/** The record that flows between the probe, the reflection checker and the
    scanner (XssMapObject.py), and the values it holds. */
module XssMapObjects {
  import opened Common

  datatype RequestType = GET | POST

  /** A parameter's `delivery` tag. The probe only ever writes `url` or
      `body`; any other tag is kept so that the branches which raise on it,
      or silently skip it, can be stated. */
  datatype Delivery = Url | Body | Unrecognized(tag: string)

  /** The context labels of the reflection checker, plus the scanner's
      wildcard `general`. */
  datatype ContextKind =
    | NodeName | AttributeName | AttributeValue | Text | Comment | Style
    | IdAttrib | ClassAttrib | StyleAttrib | JsNode | JsSingleQuote | JsDoubleQuote
    | OnAttrib | JsError | JsConsole | JsPrompt | JsConfirm
    | General

  /** The label string the source uses for each context. */
  function Label(k: ContextKind): string
  {
    match k
    case NodeName => "nodename"
    case AttributeName => "attributename"
    case AttributeValue => "attributevalue"
    case Text => "text"
    case Comment => "comment"
    case Style => "style"
    case IdAttrib => "idattrib"
    case ClassAttrib => "classattrib"
    case StyleAttrib => "styleattrib"
    case JsNode => "jsnode"
    case JsSingleQuote => "jssinglequote"
    case JsDoubleQuote => "jsdoublequote"
    case OnAttrib => "onattrib"
    case JsError => "js_error"
    case JsConsole => "js_console"
    case JsPrompt => "js_prompt"
    case JsConfirm => "js_confirm"
    case General => "general"
  }

  /** Distinct contexts have distinct labels, so comparing labels (as the
      source does) is comparing contexts. */
  lemma LabelInjective(a: ContextKind, b: ContextKind)
    ensures Label(a) == Label(b) <==> a == b
  {
  }

  /** One parameter dictionary: `delivery` (absent in the GET wildcard copy),
      `name`, `value`, `reflect_trigger` (absent until a trigger is assigned)
      and `reflect_contexts` (the empty list stands for the absent key). */
  datatype Param = Param(
    delivery: Option<Delivery>,
    name: string,
    value: string,
    trigger: Option<string>,
    contexts: seq<ContextKind>)

  /** The shape of a `params_other` entry once the reflection checker has
      loaded it: a delivery tag, a name, a value and a trigger, no contexts. */
  predicate ProbedShape(p: Param)
  {
    p.delivery.Some? && p.trigger.Some? && p.contexts == []
  }

  /** The shape of a `params_reflected` entry handed to the scanner: the
      probed shape plus a non-empty list of contexts. */
  predicate ReflectedShape(p: Param)
  {
    p.delivery.Some? && p.trigger.Some? && p.contexts != []
  }

  /** A parameter with its reflection contexts dropped: what stays the same
      while it moves from `params_other` to `params_reflected`. */
  function Stripped(p: Param): (q: Param)
    ensures q.contexts == [] && q.name == p.name && q.value == p.value
    ensures q.delivery == p.delivery && q.trigger == p.trigger
  {
    p.(contexts := [])
  }

  class XssMapObject {
    var requestType: Option<RequestType>
    var requestUrlRoot: Option<string>
    var requestBody: Option<string>
    var paramsReflected: seq<Param>
    var paramsOther: seq<Param>

    /** A fresh record: nothing known yet, both parameter lists empty. */
    constructor()
      ensures requestType == None && requestUrlRoot == None && requestBody == None
      ensures paramsReflected == [] && paramsOther == []
    {
      requestType := None;
      requestUrlRoot := None;
      requestBody := None;
      paramsReflected := [];
      paramsOther := [];
    }
  }
}
