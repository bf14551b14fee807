/** XssMap.py: validates the target request, then either scans every
    probed parameter with the whole payload catalogue (XSS scanning without
    reflection checking) or finds the reflected parameters first and scans
    only those; the results are gathered into one output record. */
module XssMapTool {
  import opened Common
  import opened Strings
  import opened XssMapObjects
  import opened Collaborators
  import opened XssMapPayloads
  import opened ScanSpec
  import opened RequestVariableProbe
  import opened ReflectionSpec
  import opened ReflectionChecking
  import opened XssScanning

  // ---------------------------------------------------------------------
  // Request validity

  const HttpScheme: string := "http://"
  const HttpsScheme: string := "https://"

  /** `^(http|https)://` matches at the start of `url`. */
  predicate HasWebScheme(url: string)
  {
    HttpScheme <= url || HttpsScheme <= url
  }

  /** `__is_GET_request_valid` as written: None and anything shorter than
      `http://` are rejected; the scheme test compares the match object with
      `False` by identity, which never holds, so nothing else is. */
  function IsGetRequestValid(targetUrl: Option<string>): (valid: bool)
    ensures valid ==> targetUrl.Some? && |HttpScheme| <= |targetUrl.value|
    ensures targetUrl.Some? && HasWebScheme(targetUrl.value) ==> valid
  {
    if targetUrl.None? then false
    else if |targetUrl.value| < 7 then false
    else true
  }

  /** As written, the GET check is a length check and nothing more. */
  lemma IsGetRequestValidIsLength(targetUrl: Option<string>)
    ensures IsGetRequestValid(targetUrl) <==> targetUrl.Some? && |targetUrl.value| >= 7
  {
  }

  /** As written, the scheme test rejects nothing: a URL of another scheme
      passes. */
  lemma SchemeCheckNeverRejects()
    ensures IsGetRequestValid(Some("ftp://x.y")) && !HasWebScheme("ftp://x.y")
  {
    assert "ftp://x.y"[0] != HttpScheme[0];
  }

  /** `__is_GET_request_valid` as evidently intended: a URL that starts
      with `http://` or `https://`. */
  function IsGetRequestValidIntended(targetUrl: Option<string>): (valid: bool)
  {
    targetUrl.Some? && |targetUrl.value| >= 7 && HasWebScheme(targetUrl.value)
  }

  /** The intended check accepts exactly the URLs the written one accepts
      that also carry a web scheme, and every one of them does. */
  lemma GetRequestValidIntendedSpec(targetUrl: Option<string>)
    ensures IsGetRequestValidIntended(targetUrl) <==>
      targetUrl.Some? && (HttpScheme <= targetUrl.value || HttpsScheme <= targetUrl.value)
    ensures IsGetRequestValidIntended(targetUrl) ==> IsGetRequestValid(targetUrl)
  {
    if targetUrl.Some? && HttpScheme <= targetUrl.value {
      assert |HttpScheme| == 7;
    }
    if targetUrl.Some? && HttpsScheme <= targetUrl.value {
      assert |HttpsScheme| == 8;
    }
  }

  /** The characters `__is_POST_request_valid` accepts in a body. */
  const FormEncodedChars: string :=
    "ABCDEFGHIJKLMNOPQRSTUVWXYZabcdefghijklmnopqrstuvwxyz01234" + "56789-._~:/?#[]@!$&'()*+,;=`.%"

  /** Every character of `body` is one a form-encoded body may hold. */
  predicate FormEncodedBody(body: string)
  {
    forall i | 0 <= i < |body| :: body[i] in FormEncodedChars
  }

  /** `__is_POST_request_valid`: a valid URL, then every body character in
      the alphabet; iterating over a missing body raises TypeError. */
  function PostRequestValidity(targetUrl: Option<string>, targetBody: Option<string>): (v: Result<bool>)
    ensures v.Err? <==> IsGetRequestValid(targetUrl) && targetBody.None?
    ensures v.Err? ==> v.error == TypeError
    ensures v == Ok(true) <==> IsGetRequestValid(targetUrl) && targetBody.Some? && FormEncodedBody(targetBody.value)
  {
    if !IsGetRequestValid(targetUrl) then Ok(false)
    else if targetBody.None? then Err(TypeError)
    else Ok(FormEncodedBody(targetBody.value))
  }

  /** The body loop of `__is_POST_request_valid`, returning at the first
      character outside the alphabet. */
  method IsFormEncoded(targetBody: string) returns (valid: bool)
    ensures valid <==> FormEncodedBody(targetBody)
    ensures !valid ==> exists i | 0 <= i < |targetBody| :: targetBody[i] !in FormEncodedChars
  {
    for i := 0 to |targetBody|
      invariant forall k | 0 <= k < i :: targetBody[k] in FormEncodedChars
    {
      if targetBody[i] !in FormEncodedChars {
        return false;
      }
    }
    return true;
  }

  method IsPostRequestValid(targetUrl: Option<string>, targetBody: Option<string>) returns (r: Result<bool>)
    ensures r == PostRequestValidity(targetUrl, targetBody)
  {
    if !IsGetRequestValid(targetUrl) {
      return Ok(false);
    }
    if targetBody.None? {
      return Err(TypeError);
    }
    var valid := IsFormEncoded(targetBody.value);
    return Ok(valid);
  }

  /** A POST with a valid URL and an empty body is valid. */
  lemma EmptyBodyValid(targetUrl: string)
    requires IsGetRequestValid(Some(targetUrl))
    ensures PostRequestValidity(Some(targetUrl), Some("")) == Ok(true)
  {
  }

  const GetInvalidPrefix: string := "The provided GET request is not valid: "
  const PostInvalidPrefix: string := "The provided POST request is not valid:\n\tURL: "
  const PostInvalidBody: string := "\n\tBody: "

  // ---------------------------------------------------------------------
  // XSS scanning without reflection checking

  /** The copies `__xss_scan_all_GET_params` and `__xss_scan_all_POST_params`
      make of the probed parameters: name, value and the `general`
      wildcard context, plus the delivery tag only when `keepDelivery`. */
  function WildcardOf(ps: seq<Param>, keepDelivery: bool): (qs: seq<Param>)
    ensures |qs| == |ps|
    ensures forall k | 0 <= k < |ps| ::
      qs[k] == Param(if keepDelivery then ps[k].delivery else None, ps[k].name, ps[k].value, None, [General])
  {
    seq(|ps|, k requires 0 <= k < |ps| =>
      Param(if keepDelivery then ps[k].delivery else None, ps[k].name, ps[k].value, None, [General]))
  }

  /** The scan run over the wildcard copies of the parameters probed from
      `url` (and `body`, for a POST). */
  function WildcardScan(url: string, body: Option<string>, keepDelivery: bool, random: RandomSource,
                        start: nat, render: Renderer): Result<ScanState>
  {
    match ProbedParams(url, body)
    case Err(e) => Err(e)
    case Ok(ps) =>
      Scan(WildcardConfig(url, body, ps, keepDelivery, random, render), start, map[])
  }

  function WildcardConfig(url: string, body: Option<string>, ps: seq<Param>, keepDelivery: bool,
                          random: RandomSource, render: Renderer): ScanConfig
  {
    ScanConfig(Some(UrlRoot(url)), Some(if body.None? then GET else POST), WildcardOf(ps, keepDelivery), [], random, render, Catalog())
  }

  /** Every wildcard parameter is attacked with the whole catalogue. */
  lemma {:induction false} WildcardTried(ps: seq<Param>, keepDelivery: bool, n: nat)
    requires n <= |ps|
    ensures Tried(WildcardOf(ps, keepDelivery), Catalog(), n) == 15 * n
    decreases n
  {
    if n > 0 {
      WildcardTried(ps, keepDelivery, n - 1);
      PlanWildcardSize();
      assert WildcardOf(ps, keepDelivery)[n - 1].contexts == [General];
    }
  }

  /** A wildcard run uses fifteen triggers per probed parameter. */
  lemma WildcardDraws(url: string, body: Option<string>, keepDelivery: bool, random: RandomSource,
                      start: nat, render: Renderer)
    ensures WildcardScan(url, body, keepDelivery, random, start, render).Ok? ==>
      WildcardScan(url, body, keepDelivery, random, start, render).value.draws ==
        start + 15 * |ProbedParams(url, body).value|
  {
    if ProbedParams(url, body).Ok? {
      var ps := ProbedParams(url, body).value;
      var cfg := WildcardConfig(url, body, ps, keepDelivery, random, render);
      ScanParamsDraws(cfg, |cfg.reflected|, ScanState([], start, map[]));
      WildcardTried(ps, keepDelivery, |ps|);
    }
  }

  /** As written, the GET copies carry no delivery tag, so the wildcard GET
      scan can never report anything: it finds nothing, or raises KeyError
      at the first indication. */
  lemma WildcardGetNeverReports(url: string, random: RandomSource, start: nat, render: Renderer)
    ensures WildcardScan(url, None, false, random, start, render).Ok? ==>
      WildcardScan(url, None, false, random, start, render).value.findings == []
  {
    if ProbedParams(url, None).Ok? {
      var ps := ProbedParams(url, None).value;
      var cfg := WildcardConfig(url, None, ps, false, random, render);
      ScanWithoutDelivery(cfg, |cfg.reflected|, ScanState([], start, map[]));
    }
  }

  /** With the delivery tag copied, as the POST copy does and evidently
      intended for GET too, the wildcard GET scan of a URL the probe accepts
      never raises, and every finding names a probed parameter and its `url`
      tag and carries an attack that calls `alert` with a drawn trigger. */
  lemma WildcardGetIntended(url: string, random: RandomSource, start: nat, render: Renderer)
    requires ProbedParams(url, None).Ok?
    ensures WildcardScan(url, None, true, random, start, render).Ok?
    ensures var ps := ProbedParams(url, None).value;
      var cfg := WildcardConfig(url, None, ps, true, random, render);
      forall i | 0 <= i < |WildcardScan(url, None, true, random, start, render).value.findings| ::
        Sound(cfg, WildcardScan(url, None, true, random, start, render).value.findings[i])
  {
    var ps := ProbedParams(url, None).value;
    var cfg := WildcardConfig(url, None, ps, true, random, render);
    GetParamsShape(url);
    ScanGetSucceeds(cfg, |cfg.reflected|, ScanState([], start, map[]));
    CatalogVerifying();
    ScanSound(cfg, start, map[]);
  }

  // ---------------------------------------------------------------------
  // Reflection checking

  /** The request type of an assessment: GET without a body, POST with one. */
  function TypeOf(body: Option<string>): RequestType
  {
    if body.None? then GET else POST
  }

  /** The page `run` renders for the loaded request, without extra
      headers. */
  function ProbePage(l: Loaded, t: RequestType, render: Renderer): RenderedPage
  {
    render(RenderRequest(Some(t), l.url, Some(l.body), map[], false))
  }

  /** `__find_GET_reflected_params` (no body) and
      `__find_POST_reflected_params`: the probed parameters loaded with a
      fresh trigger each from draw `start` on, the probe request rendered
      without extra headers, the page analysed for the
      triggers, and the reflected parameters moved; the result is the two
      lists and the index of the next draw. */
  function Reflect(url: string, body: Option<string>, random: RandomSource, start: nat, render: Renderer)
    : Result<(Lists, nat)>
  {
    match ProbedParams(url, body)
    case Err(e) => Err(e)
    case Ok(ps) =>
      match LoadSpec(Some(TypeOf(body)), Some(UrlRoot(url)), ps, "", [], random, start)
      case Err(e) => Err(e)
      case Ok(l) =>
        var rs := Analysis(ProbePage(l, TypeOf(body), render), l.searches);
        match Migrate(l.params, rs, |rs|)
        case Err(e) => Err(e)
        case Ok(lists) => Ok((lists, l.draws))
  }

  /** Reflection checking fails exactly where the probe fails, or, for a
      POST, where the URL is empty: the probe request's URL is then the
      empty root, whose last character `__load_fields_from_POST` reads. */
  lemma ReflectSucceeds(url: string, body: Option<string>, random: RandomSource, start: nat, render: Renderer)
    ensures ProbedParams(url, body).Err? ==>
      Reflect(url, body, random, start, render) == Err(ProbedParams(url, body).error)
    ensures body.None? ==>
      (Reflect(url, body, random, start, render).Ok? <==> ProbedParams(url, body).Ok?)
    ensures body.Some? ==>
      (Reflect(url, body, random, start, render).Ok? <==> ProbedParams(url, body).Ok? && url != "")
    ensures body.Some? && ProbedParams(url, body).Ok? && url == "" ==>
      Reflect(url, body, random, start, render) == Err(IndexError)
  {
    if ProbedParams(url, body).Ok? {
      var ps := ProbedParams(url, body).value;
      var t := TypeOf(body);
      var root := UrlRoot(url);
      ProbedFields(url, body);
      if body.Some? {
        var ts := Triggers(random, start, |ps|);
        assert UrlRoot(root) == root;
        OfDeliveryEmpty(ps, ts, Url, |ps|);
        if HasUrlParams(url) {
          PostProbeRequestWithUrlParams(root, ps, ts);
        } else {
          PostProbeRequestWithoutUrlParams(root, ps, ts);
        }
      }
      if LoadSpec(Some(t), Some(root), ps, "", [], random, start).Ok? {
        var l := LoadSpec(Some(t), Some(root), ps, "", [], random, start).value;
        LoadThenMigrate(Some(t), Some(root), ps, "", [], random, start, ProbePage(l, t, render));
      }
    }
  }

  /** Reflection checking neither loses nor invents a parameter: apart from
      their contexts, the two lists hold the probed parameters, each with
      its drawn trigger, and nine draws are used per parameter. */
  lemma ReflectKeepsParams(url: string, body: Option<string>, random: RandomSource, start: nat, render: Renderer)
    requires Reflect(url, body, random, start, render).Ok?
    ensures ProbedParams(url, body).Ok?
    ensures var ps := ProbedParams(url, body).value;
      var lists := Reflect(url, body, random, start, render).value.0;
      Reflect(url, body, random, start, render).value.1 == start + 9 * |ps| &&
      multiset(StripAll(lists.reflected)) + multiset(StripAll(lists.other)) ==
        multiset(StripAll(WithTriggers(ps, Triggers(random, start, |ps|))))
  {
    var ps := ProbedParams(url, body).value;
    var t := TypeOf(body);
    var l := LoadSpec(Some(t), Some(UrlRoot(url)), ps, "", [], random, start).value;
    var rs := Analysis(ProbePage(l, t, render), l.searches);
    assert l.params == WithTriggers(ps, Triggers(random, start, |ps|));
    MigrateConserves(l.params, rs, |rs|);
  }

  /** A successful reflection check is the moving of the loaded probe
      parameters, each carrying its own trigger, by the analysis of the
      rendered probe page. */
  lemma ReflectIsMigrate(url: string, body: Option<string>, random: RandomSource, start: nat, render: Renderer)
    requires Reflect(url, body, random, start, render).Ok?
    ensures ProbedParams(url, body).Ok?
    ensures var ps := ProbedParams(url, body).value;
      LoadSpec(Some(TypeOf(body)), Some(UrlRoot(url)), ps, "", [], random, start).Ok?
    ensures var ps := ProbedParams(url, body).value;
      var l := LoadSpec(Some(TypeOf(body)), Some(UrlRoot(url)), ps, "", [], random, start).value;
      var rs := Analysis(ProbePage(l, TypeOf(body), render), l.searches);
      |l.searches| == |ps| && Migrate(WithTriggers(ps, l.searches), rs, |rs|).Ok? &&
      Reflect(url, body, random, start, render).value.0 == Migrate(WithTriggers(ps, l.searches), rs, |rs|).value
  {
    var ps := ProbedParams(url, body).value;
    LoadedParams(Some(TypeOf(body)), Some(UrlRoot(url)), ps, "", [], random, start);
  }

  /** Every reflected parameter has a delivery, a trigger and some context;
      every other one a delivery, a trigger and no context. */
  lemma ReflectShapes(url: string, body: Option<string>, random: RandomSource, start: nat, render: Renderer)
    requires Reflect(url, body, random, start, render).Ok?
    ensures Shaped(Reflect(url, body, random, start, render).value.0)
  {
    ReflectIsMigrate(url, body, random, start, render);
    ProbedFields(url, body);
    var ps := ProbedParams(url, body).value;
    var l := LoadSpec(Some(TypeOf(body)), Some(UrlRoot(url)), ps, "", [], random, start).value;
    LoadedMigrateShapes(ps, l.searches, ProbePage(l, TypeOf(body), render));
  }

  /** The reflected parameters come in the order of the searches that show
      up on the rendered probe page: the `j`-th carries the trigger of the
      `j`-th such search, labelled with the contexts it shows up in. */
  lemma ReflectInOrder(url: string, body: Option<string>, random: RandomSource, start: nat, render: Renderer)
    requires Reflect(url, body, random, start, render).Ok?
    ensures ProbedParams(url, body).Ok?
    ensures var ps := ProbedParams(url, body).value;
      var l := LoadSpec(Some(TypeOf(body)), Some(UrlRoot(url)), ps, "", [], random, start).value;
      var page := ProbePage(l, TypeOf(body), render);
      var idx := Reported(page, l.searches);
      var lists := Reflect(url, body, random, start, render).value.0;
      l.searches == Triggers(random, start, |ps|) &&
      |lists.reflected| == |idx| &&
      forall j | 0 <= j < |idx| ::
        lists.reflected[j].trigger == Some(l.searches[idx[j]]) &&
        lists.reflected[j].contexts == KindsOf(ContextsFor(page, l.searches[idx[j]]))
  {
    var ps := ProbedParams(url, body).value;
    var t := TypeOf(body);
    var l := LoadSpec(Some(t), Some(UrlRoot(url)), ps, "", [], random, start).value;
    var page := ProbePage(l, t, render);
    var rs := Analysis(page, l.searches);
    assert l.searches == Triggers(random, start, |ps|);
    AnalysisInOrder(page, l.searches);
    MigrateReflected(l.params, rs, |rs|);
  }

  // ---------------------------------------------------------------------
  // The output record

  /** `results.reflection_check`, with the root and type stored beside it. */
  datatype ReflectionReport = ReflectionReport(
    requestUrlRoot: Option<string>,
    requestType: Option<RequestType>,
    paramsReflected: seq<Param>,
    paramsOther: seq<Param>)

  /** The output dictionary: the reflection part when reflection checking
      ran, the scan findings when scanning ran. */
  datatype Output = Output(reflection: Option<ReflectionReport>, xssScan: Option<seq<Finding>>)

  /** `{'results': {}}`. */
  const EmptyOutput: Output := Output(None, None)

  /** `__add_xss_results_to_output_obj`: a fresh list, every finding copied
      in order. */
  method AddXssResultsToOutput(output: Output, xssScanRes: seq<Finding>) returns (o: Output)
    ensures o.reflection == output.reflection && o.xssScan == Some(xssScanRes)
  {
    var copied: seq<Finding> := [];
    for i := 0 to |xssScanRes|
      invariant copied == xssScanRes[..i]
    {
      copied := copied + [xssScanRes[i]];
    }
    assert xssScanRes[..|xssScanRes|] == xssScanRes;
    return output.(xssScan := Some(copied));
  }

  /** `__add_reflection_results_to_output_obj`. */
  method AddReflectionResultsToOutput(output: Output, reflectCheckRes: XssMapObject) returns (o: Output)
    ensures o.xssScan == output.xssScan
    ensures o.reflection == Some(ReflectionReport(reflectCheckRes.requestUrlRoot, reflectCheckRes.requestType,
                                                  reflectCheckRes.paramsReflected, reflectCheckRes.paramsOther))
  {
    var report := ReflectionReport(reflectCheckRes.requestUrlRoot, reflectCheckRes.requestType,
                                   reflectCheckRes.paramsReflected, reflectCheckRes.paramsOther);
    return output.(reflection := Some(report));
  }

  /** The assessment with reflection checking on: the report of the two
      lists, then, when scanning is on and some parameter is reflected, the
      findings of the scan over the reflected ones; the result carries the
      index of the next draw. */
  function DefaultAssessment(url: string, body: Option<string>, doXss: bool, random: RandomSource,
                             start: nat, render: Renderer): Result<(Output, nat)>
  {
    match Reflect(url, body, random, start, render)
    case Err(e) => Err(e)
    case Ok(res) =>
      var lists := res.0;
      var report := ReflectionReport(Some(UrlRoot(url)), Some(TypeOf(body)), lists.reflected, lists.other);
      if doXss && |lists.reflected| > 0 then
        match Scan(ReflectedScanConfig(url, body, lists, random, render), res.1, map[])
        case Err(e) => Err(e)
        case Ok(st) => Ok((Output(Some(report), Some(st.findings)), st.draws))
      else
        Ok((Output(Some(report), None), res.1))
  }

  /** The scan over the reflected parameters that the default mode runs. */
  function ReflectedScanConfig(url: string, body: Option<string>, lists: Lists, random: RandomSource,
                               render: Renderer): ScanConfig
  {
    ScanConfig(Some(UrlRoot(url)), Some(TypeOf(body)), lists.reflected, lists.other, random, render, Catalog())
  }

  /** In the default mode findings are reported exactly when scanning is on
      and some parameter is reflected, and each of them names a reflected
      parameter and its delivery and carries an attack calling `alert` with
      a drawn trigger. */
  lemma DefaultSound(url: string, body: Option<string>, doXss: bool, random: RandomSource, start: nat,
                     render: Renderer)
    requires DefaultAssessment(url, body, doXss, random, start, render).Ok?
    ensures var out := DefaultAssessment(url, body, doXss, random, start, render).value.0;
      var lists := Reflect(url, body, random, start, render).value.0;
      var cfg := ReflectedScanConfig(url, body, lists, random, render);
      (out.xssScan.Some? <==> doXss && lists.reflected != []) &&
      (out.xssScan.Some? ==> forall i | 0 <= i < |out.xssScan.value| :: Sound(cfg, out.xssScan.value[i]))
  {
    var res := Reflect(url, body, random, start, render).value;
    CatalogVerifying();
    ScanSound(ReflectedScanConfig(url, body, res.0, random, render), res.1, map[]);
  }

  /** A GET assessment in the default mode fails exactly where the probe
      fails: loading, moving and the GET scan over the reflected parameters
      (all of which carry their `url` delivery) never raise. */
  lemma DefaultGetSucceeds(url: string, doXss: bool, random: RandomSource, start: nat, render: Renderer)
    ensures DefaultAssessment(url, None, doXss, random, start, render).Ok? <==> ProbedParams(url, None).Ok?
  {
    ReflectSucceeds(url, None, random, start, render);
    if Reflect(url, None, random, start, render).Ok? {
      var res := Reflect(url, None, random, start, render).value;
      var cfg := ReflectedScanConfig(url, None, res.0, random, render);
      ReflectShapes(url, None, random, start, render);
      ScanGetSucceeds(cfg, |cfg.reflected|, ScanState([], res.1, map[]));
    }
  }

  /** What a scan reads from an XssMap object. */
  ghost function ScanConfigOf(scanParameters: XssMapObject, random: RandomSource, render: Renderer): ScanConfig
    reads scanParameters
  {
    ScanConfig(scanParameters.requestUrlRoot, scanParameters.requestType, scanParameters.paramsReflected,
               scanParameters.paramsOther, random, render, Catalog())
  }

  /** Appends the wildcard copies of `ps` to `target.params_reflected`, one
      per loop turn. */
  method AppendWildcards(target: XssMapObject, ps: seq<Param>, keepDelivery: bool)
    modifies target`paramsReflected
    ensures target.paramsReflected == old(target.paramsReflected) + WildcardOf(ps, keepDelivery)
  {
    ghost var base := target.paramsReflected;
    for i := 0 to |ps|
      invariant target.paramsReflected == base + WildcardOf(ps[..i], keepDelivery)
    {
      var param := ps[i];
      var thisParam := Param(if keepDelivery then param.delivery else None, param.name, param.value, None, [General]);
      assert WildcardOf(ps[..i + 1], keepDelivery) == WildcardOf(ps[..i], keepDelivery) + [thisParam];
      target.paramsReflected := target.paramsReflected + [thisParam];
    }
    assert ps[..|ps|] == ps;
  }

  /** `probe_GET_request` (no body) or `probe_POST_request`. */
  method Probe(targetUrl: string, targetBody: Option<string>) returns (r: Result<XssMapObject>)
    ensures r.Err? <==> ProbedParams(targetUrl, targetBody).Err?
    ensures r.Err? ==> r.error == ProbedParams(targetUrl, targetBody).error
    ensures r.Ok? ==> fresh(r.value) && r.value.paramsOther == ProbedParams(targetUrl, targetBody).value
    ensures r.Ok? ==> r.value.requestUrlRoot == Some(UrlRoot(targetUrl)) &&
                      r.value.requestType == Some(if targetBody.None? then GET else POST)
  {
    if targetBody.None? {
      r := ProbeGetRequest(targetUrl);
    } else {
      r := ProbePostRequest(targetUrl, targetBody.value);
    }
  }

  class XssMap {
    const doReflectionChecking: bool
    const doXssScanning: bool
    var reflectionChecker: ReflectionChecker?
    var xssScanner: XssScanner?
    /** The random source shared by the checker and the scanner, and the
      index of its next draw. */
    const random: RandomSource
    var draws: nat

    /** `__init__`. */
    constructor(doReflect: bool, doXss: bool, random: RandomSource, start: nat)
      ensures doReflectionChecking == doReflect && doXssScanning == doXss
      ensures reflectionChecker == null && xssScanner == null
      ensures this.random == random && draws == start
    {
      doReflectionChecking := doReflect;
      doXssScanning := doXss;
      reflectionChecker := null;
      xssScanner := null;
      this.random := random;
      draws := start;
    }

    /** `__xss_scan`: a new scanner over `scanParameters`, run. */
    method XssScan(scanParameters: XssMapObject, render: Renderer) returns (r: Result<seq<Finding>>)
      modifies `xssScanner, `draws
      ensures var spec := Scan(ScanConfigOf(scanParameters, random, render), old(draws), map[]);
        (spec.Err? ==> r == Err(spec.error)) && (spec.Ok? ==> r == Ok(spec.value.findings) && draws == spec.value.draws)
    {
      var scanner := new XssScanner(scanParameters, random, draws);
      xssScanner := scanner;
      r := scanner.Run(render);
      draws := scanner.draws;
    }

    /** `__xss_scan_all_GET_params` (keepDelivery false) and
      `__xss_scan_all_POST_params` (keepDelivery true): probe, copy every
      parameter as a wildcard, scan. */
    method XssScanAllParams(targetUrl: string, targetBody: Option<string>, keepDelivery: bool, render: Renderer)
      returns (r: Result<seq<Finding>>)
      modifies `xssScanner, `draws
      ensures var spec := WildcardScan(targetUrl, targetBody, keepDelivery, random, old(draws), render);
        (spec.Err? ==> r == Err(spec.error)) && (spec.Ok? ==> r == Ok(spec.value.findings) && draws == spec.value.draws)
    {
      var informationFromProbe := Probe(targetUrl, targetBody);
      if informationFromProbe.Err? {
        return Err(informationFromProbe.error);
      }
      var theseScanParameters := new XssMapObject();
      theseScanParameters.requestUrlRoot := informationFromProbe.value.requestUrlRoot;
      theseScanParameters.requestType := Some(if targetBody.None? then GET else POST);
      theseScanParameters.paramsReflected := [];
      theseScanParameters.paramsOther := [];
      AppendWildcards(theseScanParameters, informationFromProbe.value.paramsOther, keepDelivery);
      ghost var cfg := WildcardConfig(targetUrl, targetBody, informationFromProbe.value.paramsOther, keepDelivery, random, render);
      assert ScanConfigOf(theseScanParameters, random, render) == cfg;
      ghost var start := draws;
      r := XssScan(theseScanParameters, render);
      assert WildcardScan(targetUrl, targetBody, keepDelivery, random, start, render) == Scan(cfg, start, map[]);
    }

    /** `__find_GET_reflected_params` (no body) and
      `__find_POST_reflected_params`: probe, load a reflection checker and
      run it; its result is the probe's own object, holding the two lists. */
    method FindReflectedParams(targetUrl: string, targetBody: Option<string>, render: Renderer)
      returns (r: Result<XssMapObject>)
      modifies `reflectionChecker, `draws
      ensures var spec := Reflect(targetUrl, targetBody, random, old(draws), render);
        (spec.Err? ==> r == Err(spec.error)) &&
        (spec.Ok? ==>
           r.Ok? && fresh(r.value) &&
           r.value.requestUrlRoot == Some(UrlRoot(targetUrl)) && r.value.requestType == Some(TypeOf(targetBody)) &&
           r.value.paramsReflected == spec.value.0.reflected && r.value.paramsOther == spec.value.0.other &&
           draws == spec.value.1)
    {
      var informationFromProbe := Probe(targetUrl, targetBody);
      if informationFromProbe.Err? {
        return Err(informationFromProbe.error);
      }
      var info := informationFromProbe.value;
      ghost var start := draws;
      ghost var l := LoadSpec(Some(TypeOf(targetBody)), Some(UrlRoot(targetUrl)), info.paramsOther, "", [], random, start);
      var checker := NewReflectionChecker(info, random, draws);
      if checker.Err? {
        return Err(checker.error);
      }
      var c := checker.value;
      assert c.State() == l.value && c.headers == map[];
      assert c.data.requestType == Some(TypeOf(targetBody)) && c.data.requestUrlRoot == Some(UrlRoot(targetUrl));
      reflectionChecker := c;
      draws := c.draws;
      r := c.Run(render);
    }

    /** `assess_GET_request` (no body) and `assess_POST_request`: an invalid
      request raises before anything is probed; with scanning but no
      reflection checking every parameter is scanned with every payload;
      otherwise (even with both switched off) reflection is checked, and
      the reflected parameters are scanned when scanning is on. */
    method Assess(targetUrl: Option<string>, targetBody: Option<string>, isPost: bool, render: Renderer)
      returns (r: Result<Output>)
      modifies `reflectionChecker, `xssScanner, `draws
      ensures var valid := if isPost then PostRequestValidity(targetUrl, targetBody) else Ok(IsGetRequestValid(targetUrl));
        valid != Ok(true) ==> (
          unchanged(this) && r.Err? &&
          (valid.Err? ==> r.error == valid.error) &&
          (targetUrl.None? ==> r.error == TypeError) &&
          (valid == Ok(false) && targetUrl.Some? && !isPost ==> r.error == RuntimeError(GetInvalidPrefix + targetUrl.value)) &&
          (valid == Ok(false) && targetUrl.Some? && isPost ==>
             r.error == if targetBody.None? then TypeError
                        else RuntimeError(PostInvalidPrefix + targetUrl.value + PostInvalidBody + targetBody.value)))
      ensures var valid := if isPost then PostRequestValidity(targetUrl, targetBody) else Ok(IsGetRequestValid(targetUrl));
        valid == Ok(true) && doXssScanning && !doReflectionChecking ==>
        var spec := WildcardScan(targetUrl.value, if isPost then targetBody else None, isPost, random, old(draws), render);
        (spec.Err? ==> r == Err(spec.error)) &&
        (spec.Ok? ==> r == Ok(Output(None, Some(spec.value.findings))) && draws == spec.value.draws)
      ensures var valid := if isPost then PostRequestValidity(targetUrl, targetBody) else Ok(IsGetRequestValid(targetUrl));
        valid == Ok(true) && !(doXssScanning && !doReflectionChecking) ==>
        var spec := DefaultAssessment(targetUrl.value, if isPost then targetBody else None, doXssScanning, random, old(draws), render);
        (spec.Err? ==> r == Err(spec.error)) &&
        (spec.Ok? ==> r == Ok(spec.value.0) && draws == spec.value.1)
      ensures r.Ok? && doXssScanning && !doReflectionChecking ==>
        targetUrl.Some? && r.value.reflection.None? &&
        var spec := WildcardScan(targetUrl.value, if isPost then targetBody else None, isPost, random, old(draws), render);
        spec.Ok? && r.value.xssScan == Some(spec.value.findings) && draws == spec.value.draws
      ensures r.Ok? && !(doXssScanning && !doReflectionChecking) ==>
        r.value.reflection.Some? &&
        r.value.reflection.value.requestType == Some(if isPost then POST else GET) &&
        (r.value.xssScan.Some? <==> doXssScanning && r.value.reflection.value.paramsReflected != [])
    {
      var valid: Result<bool>;
      if isPost {
        valid := IsPostRequestValid(targetUrl, targetBody);
      } else {
        valid := Ok(IsGetRequestValid(targetUrl));
      }
      if valid.Err? {
        return Err(valid.error);
      }
      if !valid.value {
        // Building the message concatenates the (possibly missing) inputs.
        if targetUrl.None? || (isPost && targetBody.None?) {
          return Err(TypeError);
        }
        if isPost {
          return Err(RuntimeError(PostInvalidPrefix + targetUrl.value + PostInvalidBody + targetBody.value));
        }
        return Err(RuntimeError(GetInvalidPrefix + targetUrl.value));
      }
      var url := targetUrl.value;
      var body := if isPost then targetBody else None;
      var output := EmptyOutput;
      ghost var start := draws;
      if doXssScanning && !doReflectionChecking {
        var xssScanResults := XssScanAllParams(url, body, isPost, render);
        if xssScanResults.Err? {
          return Err(xssScanResults.error);
        }
        output := AddXssResultsToOutput(output, xssScanResults.value);
      } else {
        var informationFromReflectCheck := FindReflectedParams(url, body, render);
        if informationFromReflectCheck.Err? {
          return Err(informationFromReflectCheck.error);
        }
        var info := informationFromReflectCheck.value;
        ghost var spec := Reflect(url, body, random, start, render);
        assert ScanConfigOf(info, random, render) == ReflectedScanConfig(url, body, spec.value.0, random, render);
        output := AddReflectionResultsToOutput(output, info);
        if |info.paramsReflected| > 0 && doXssScanning {
          var xssScanResults := XssScan(info, render);
          if xssScanResults.Err? {
            return Err(xssScanResults.error);
          }
          output := AddXssResultsToOutput(output, xssScanResults.value);
        }
      }
      return Ok(output);
    }

    /** `assess_GET_request`. In XSS-only mode a successful assessment
      reports no findings (the wildcard copies carry no delivery tag). */
    method AssessGetRequest(targetUrl: Option<string>, render: Renderer) returns (r: Result<Output>)
      modifies `reflectionChecker, `xssScanner, `draws
      ensures !IsGetRequestValid(targetUrl) ==> (unchanged(this) &&
        r == if targetUrl.None? then Err(TypeError) else Err(RuntimeError(GetInvalidPrefix + targetUrl.value)))
      ensures IsGetRequestValid(targetUrl) && doXssScanning && !doReflectionChecking ==>
        var spec := WildcardScan(targetUrl.value, None, false, random, old(draws), render);
        (spec.Err? ==> r == Err(spec.error)) &&
        (spec.Ok? ==> r == Ok(Output(None, Some([]))) && draws == spec.value.draws)
      ensures IsGetRequestValid(targetUrl) && !(doXssScanning && !doReflectionChecking) ==>
        var spec := DefaultAssessment(targetUrl.value, None, doXssScanning, random, old(draws), render);
        (spec.Err? ==> r == Err(spec.error)) &&
        (spec.Ok? ==> r == Ok(spec.value.0) && draws == spec.value.1)
      ensures r.Ok? && doXssScanning && !doReflectionChecking ==>
        r.value.reflection.None? && r.value.xssScan == Some([])
      ensures r.Ok? && !(doXssScanning && !doReflectionChecking) ==>
        r.value.reflection.Some? && r.value.reflection.value.requestType == Some(GET) &&
        (r.value.xssScan.Some? <==> doXssScanning && r.value.reflection.value.paramsReflected != [])
    {
      ghost var start := draws;
      r := Assess(targetUrl, None, false, render);
      if r.Ok? && doXssScanning && !doReflectionChecking {
        WildcardGetNeverReports(targetUrl.value, random, start, render);
      }
    }

    /** `assess_POST_request`. */
    method AssessPostRequest(targetUrl: Option<string>, targetBody: Option<string>, render: Renderer)
      returns (r: Result<Output>)
      modifies `reflectionChecker, `xssScanner, `draws
      ensures PostRequestValidity(targetUrl, targetBody).Err? ==> unchanged(this) && r == Err(TypeError)
      ensures PostRequestValidity(targetUrl, targetBody) == Ok(false) ==> (unchanged(this) &&
        r == if targetUrl.None? || targetBody.None? then Err(TypeError)
             else Err(RuntimeError(PostInvalidPrefix + targetUrl.value + PostInvalidBody + targetBody.value)))
      ensures PostRequestValidity(targetUrl, targetBody) == Ok(true) && doXssScanning && !doReflectionChecking ==>
        var spec := WildcardScan(targetUrl.value, targetBody, true, random, old(draws), render);
        (spec.Err? ==> r == Err(spec.error)) &&
        (spec.Ok? ==> r == Ok(Output(None, Some(spec.value.findings))) && draws == spec.value.draws)
      ensures PostRequestValidity(targetUrl, targetBody) == Ok(true) && !(doXssScanning && !doReflectionChecking) ==>
        var spec := DefaultAssessment(targetUrl.value, targetBody, doXssScanning, random, old(draws), render);
        (spec.Err? ==> r == Err(spec.error)) &&
        (spec.Ok? ==> r == Ok(spec.value.0) && draws == spec.value.1)
      ensures r.Ok? && doXssScanning && !doReflectionChecking ==>
        targetUrl.Some? && targetBody.Some? && r.value.reflection.None? &&
        var spec := WildcardScan(targetUrl.value, targetBody, true, random, old(draws), render);
        spec.Ok? && r.value.xssScan == Some(spec.value.findings) && draws == spec.value.draws
      ensures r.Ok? && !(doXssScanning && !doReflectionChecking) ==>
        r.value.reflection.Some? && r.value.reflection.value.requestType == Some(POST) &&
        (r.value.xssScan.Some? <==> doXssScanning && r.value.reflection.value.paramsReflected != [])
    {
      r := Assess(targetUrl, targetBody, true, render);
    }
  }
}
