/** The collaborators the core talks to but does not contain: the render
    service (PageRenderAPI.py and the headless browser behind it) and
    Python's `random` module. Both are parameters of the model. */
module Collaborators {
  import opened Common
  import opened XssMapObjects

  /** The request descriptor handed to the render service, with the
      optionality its callers give its fields. `pageEvents` records only the
      flag each caller passes (the scanner sets it, the reflection checker
      does not): the service ignores it and always asks the browser to fire
      the page's events, so a `Renderer` may not be taken to depend on it. */
  datatype RenderRequest = RenderRequest(
    requestMethod: Option<RequestType>,
    url: Option<string>,
    body: Option<string>,
    headers: map<string, string>,
    pageEvents: bool)

  /** What the render service reports for one request. `domCount(t, k)` is
      the number of matches that the structural query for context `k` (an
      XPath over the parsed page, or the quoted-string scan over its scripts)
      finds for the trigger `t`; the message lists are what the headless
      browser recorded. */
  datatype RenderedPage = RenderedPage(
    html: string,
    domCount: (string, ContextKind) -> nat,
    errors: seq<string>,
    consoleMessages: seq<string>,
    alerts: seq<string>,
    confirms: seq<string>,
    prompts: seq<string>)

  /** The render service, seen as a function of the request. */
  type Renderer = RenderRequest -> RenderedPage

  /** Python's `random` module: `k` is the index of a draw, the result the
      raw value drawn; each use reduces it into the range it asks for. */
  type RandomSource = nat -> nat
}
