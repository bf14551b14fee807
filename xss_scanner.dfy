/** XssScanner.py: for every reflected parameter, tries the catalogue
    payloads its contexts select, each with a fresh numeric trigger, renders
    the attack request and reports every alert, execution error and console
    message that carries the trigger. */
module XssScanning {
  import opened Common
  import opened Strings
  import opened XssMapObjects
  import opened Collaborators
  import opened XssMapPayloads
  import opened ScanSpec

  class XssScanner {
    var targetUrl: Option<string>
    var targetType: Option<RequestType>
    var paramsReflected: seq<Param>
    var paramsOther: seq<Param>
    var headers: map<string, string>
    /** The random source and the index of the next draw. */
    const random: RandomSource
    var draws: nat
    /** `XSSMAP_PAYLOADS`, as the scanner module imports it. */
    const payloads: seq<Payload>

    /** `__init__`: load the scan parameters, start with no headers. */
    constructor(scanParameters: XssMapObject, random: RandomSource, start: nat)
      ensures targetUrl == scanParameters.requestUrlRoot && targetType == scanParameters.requestType
      ensures paramsReflected == scanParameters.paramsReflected && paramsOther == scanParameters.paramsOther
      ensures headers == map[] && this.random == random && draws == start
      ensures payloads == Catalog()
    {
      this.random := random;
      draws := start;
      payloads := Catalog();
      new;
      LoadNewParameters(scanParameters);
      headers := map[];
    }

    /** `load_new_parameters`: copy the target and both parameter lists. */
    method LoadNewParameters(scanParameters: XssMapObject)
      modifies `targetUrl, `targetType, `paramsReflected, `paramsOther
      ensures targetUrl == scanParameters.requestUrlRoot && targetType == scanParameters.requestType
      ensures paramsReflected == scanParameters.paramsReflected && paramsOther == scanParameters.paramsOther
    {
      targetUrl := scanParameters.requestUrlRoot;
      targetType := scanParameters.requestType;
      paramsReflected := scanParameters.paramsReflected;
      paramsOther := scanParameters.paramsOther;
    }

    /** What `run` reads from the scanner, with the render service. */
    ghost function Config(render: Renderer): ScanConfig
      reads `targetUrl, `targetType, `paramsReflected, `paramsOther
    {
      ScanConfig(targetUrl, targetType, paramsReflected, paramsOther, random, render, payloads)
    }

    /** `make_trigger`: one draw, reduced into the nine-digit range. */
    method MakeTrigger() returns (t: string)
      modifies `draws
      ensures t == ScanTrigger(random, old(draws)) && draws == old(draws) + 1
    {
      t := DecimalString(TriggerLow + random(draws) % (TriggerHigh - TriggerLow));
      draws := draws + 1;
    }

    /** One of the pair loops of `render_GET_page` and `render_POST_page`:
      `name=` and the attack (for the name under test) or the parameter's
      own value, appended with nothing between pairs. */
    static method AppendAttackPairs(s0: string, ps: seq<Param>, name: string, attack: string) returns (s: string)
      ensures s == s0 + Concat(AttackPairs(ps, name, attack))
    {
      s := s0;
      for i := 0 to |ps|
        invariant s == s0 + Concat(AttackPairs(ps[..i], name, attack))
      {
        ghost var done := Concat(AttackPairs(ps[..i], name, attack));
        s := AppendAttackPair(s, ps[i], name, attack);
        ConcatPairsStep(ps, i, name, attack);
        assert s0 + done + AttackPair(ps[i], name, attack) == s0 + (done + AttackPair(ps[i], name, attack));
      }
      assert ps[..|ps|] == ps;
    }

    /** One turn of the pair loops: the parameter under test carries the
      attack, every other parameter its own value. */
    static method AppendAttackPair(s: string, param: Param, name: string, attack: string) returns (s': string)
      ensures s' == s + AttackPair(param, name, attack)
    {
      if param.name == name {
        s' := s + param.name + "=";
        s' := s' + attack;
      } else {
        s' := s + param.name + "=" + param.value;
      }
      AppendPairAssoc(s, param.name, if param.name == name then attack else param.value);
    }

    /** `render_GET_page`: the root, `?`, the pairs of the reflected then
      the other parameters, less one trailing `&`; a missing root raises
      TypeError on the first `+`. */
    method RenderGetPage(attack: string, requestUrlRoot: Option<string>, paramUnderTest: Param,
                         reflected: seq<Param>, other: seq<Param>, render: Renderer) returns (r: Result<RenderedPage>)
      ensures match GetAttackUrl(requestUrlRoot, paramUnderTest.name, attack, reflected + other)
        case Err(e) => r == Err(e)
        case Ok(u) => r == Ok(render(RenderRequest(Some(GET), Some(u), None, headers, true)))
    {
      var allParamsToAdd := reflected + other;
      if requestUrlRoot.None? {
        return Err(TypeError);
      }
      var u := AppendAttackPairs(requestUrlRoot.value + "?", allParamsToAdd, paramUnderTest.name, attack);
      if u[|u| - 1] == '&' {
        u := u[..|u| - 1];
      }
      return Ok(render(RenderRequest(Some(GET), Some(u), None, headers, true)));
    }

    /** The sorting loop of `render_POST_page`. */
    static method SortByDelivery(allParams: seq<Param>) returns (r: Result<Partitioned>)
      ensures r == PartitionByDelivery(allParams)
    {
      var urlParamsToAdd: seq<Param> := [];
      var bodyParamsToAdd: seq<Param> := [];
      for i := 0 to |allParams|
        invariant PartitionByDelivery(allParams[..i]) == Ok(Partitioned(urlParamsToAdd, bodyParamsToAdd))
      {
        var param := allParams[i];
        assert allParams[..i + 1][..i] == allParams[..i];
        if param.delivery.None? {
          PartitionSpec(allParams);
          return Err(KeyError("delivery"));
        }
        if param.delivery.value == Url {
          urlParamsToAdd := urlParamsToAdd + [param];
        } else if param.delivery.value == Body {
          bodyParamsToAdd := bodyParamsToAdd + [param];
        }
      }
      assert allParams[..|allParams|] == allParams;
      return Ok(Partitioned(urlParamsToAdd, bodyParamsToAdd));
    }

    /** `render_POST_page`: sort the parameters, build the URL (with `?`
      before the first URL pair) and the body, trim one trailing `&` from
      each, set the form content type on the scanner's headers and render. */
    method RenderPostPage(attack: string, requestUrlRoot: Option<string>, paramUnderTest: Param,
                          reflected: seq<Param>, other: seq<Param>, render: Renderer) returns (r: Result<RenderedPage>)
      modifies `headers
      ensures match PostAttackRequest(requestUrlRoot, reflected + other, paramUnderTest.name, attack)
        case Err(e) => r == Err(e) && headers == old(headers)
        case Ok((u, b)) =>
          headers == old(headers)[ContentTypeHeader := FormEncoded] &&
          r == Ok(render(RenderRequest(Some(POST), Some(u), Some(b), headers, true)))
    {
      var parts := SortByDelivery(reflected + other);
      if parts.Err? {
        return Err(parts.error);
      }
      var attackUrl := BuildPostAttackUrl(requestUrlRoot, parts.value.url, paramUnderTest.name, attack);
      if attackUrl.Err? {
        return Err(attackUrl.error);
      }
      var attackBody := BuildPostAttackBody(parts.value.body, paramUnderTest.name, attack);
      headers := headers[ContentTypeHeader := FormEncoded];
      return Ok(render(RenderRequest(Some(POST), Some(attackUrl.value), Some(attackBody), headers, true)));
    }

    /** The URL half of `render_POST_page`: the root, then `?` and the URL
      pairs when there are any, less one trailing `&`. */
    static method BuildPostAttackUrl(requestUrlRoot: Option<string>, urlParams: seq<Param>, name: string, attack: string)
      returns (r: Result<string>)
      ensures r == PostAttackUrl(requestUrlRoot, urlParams, name, attack)
    {
      // With no root, `+=` (or `[-1]` when no URL pair is added) raises.
      if requestUrlRoot.None? {
        return Err(TypeError);
      }
      var attackUrl := requestUrlRoot.value;
      if urlParams != [] {
        attackUrl := attackUrl + "?";
        attackUrl := AppendAttackPairs(attackUrl, urlParams, name, attack);
      }
      if |attackUrl| == 0 {
        return Err(IndexError);
      }
      if attackUrl[|attackUrl| - 1] == '&' {
        attackUrl := attackUrl[..|attackUrl| - 1];
      }
      return Ok(attackUrl);
    }

    /** The body half of `render_POST_page`: the body pairs, less one
      trailing `&`. */
    static method BuildPostAttackBody(bodyParams: seq<Param>, name: string, attack: string) returns (attackBody: string)
      ensures attackBody == PostAttackBody(bodyParams, name, attack)
    {
      attackBody := AppendAttackPairs("", bodyParams, name, attack);
      if |attackBody| > 0 && attackBody[|attackBody| - 1] == '&' {
        attackBody := attackBody[..|attackBody| - 1];
      }
    }

    /** One of the three message loops of the analysis. */
    static method CollectIndications(results: seq<Evidence>, msgs: seq<string>, search: string,
                                     certainty: Certainty, prefix: string) returns (extended: seq<Evidence>)
      ensures extended == results + Indications(msgs, search, certainty, prefix)
    {
      extended := results;
      for i := 0 to |msgs|
        invariant extended == results + Indications(msgs[..i], search, certainty, prefix)
      {
        assert msgs[..i + 1][..i] == msgs[..i];
        if Contains(msgs[i], search) {
          extended := extended + [Evidence(certainty, prefix + msgs[i] + "\"")];
        }
      }
      assert msgs[..|msgs|] == msgs;
    }

    /** `__analyze_rendered_page_output`. */
    static method AnalyzeRenderedPageOutput(page: Option<RenderedPage>, search: Option<string>)
      returns (r: Result<seq<Evidence>>)
      ensures r == Analyze(page, search)
    {
      var results: seq<Evidence> := [];
      if search.Some? {
        // `None['page_alerts']` raises TypeError.
        if page.None? {
          return Err(TypeError);
        }
        results := CollectIndications(results, page.value.alerts, search.value, Certain, AlertPrefix);
        results := CollectIndications(results, page.value.errors, search.value, Probable, ErrorPrefix);
        results := CollectIndications(results, page.value.consoleMessages, search.value, Probable, ConsolePrefix);
        assert results == Analyze(page, search).value;
      }
      return Ok(results);
    }

    /** The innermost loop of `run`: each result, tagged with the parameter
      name, its delivery tag and the attack, is appended to the output. */
    static method RecordResults(results: seq<Evidence>, param: Param, attack: string, output: seq<Finding>)
      returns (r: Result<seq<Finding>>)
      ensures var fs := FindingsOf(results, param, attack);
        (fs.Err? ==> r == Err(fs.error)) && (fs.Ok? ==> r == Ok(output + fs.value))
    {
      var out := output;
      for i := 0 to |results|
        invariant i == 0 ==> out == output
        invariant i > 0 ==> param.delivery.Some? && out == output + FindingsOf(results[..i], param, attack).value
      {
        if param.delivery.None? {
          return Err(KeyError("delivery"));
        }
        var result := results[i];
        out := out + [Finding(result.certainty, result.message, param.name, param.delivery.value, attack)];
        assert FindingsOf(results[..i + 1], param, attack).value ==
          FindingsOf(results[..i], param, attack).value + [Finding(result.certainty, result.message, param.name, param.delivery.value, attack)];
      }
      assert results[..|results|] == results;
      assert output + [] == output;
      return Ok(out);
    }

    /** One turn of the payload loop of `run` past the `used_payloads`
      check: draw a trigger, build the attack, render it, analyse the page
      and record what was found. */
    method TryPayload(param: Param, payload: Payload, output: seq<Finding>, render: Renderer, ghost cfg: ScanConfig)
      returns (r: Result<seq<Finding>>)
      modifies `draws, `headers
      requires cfg == Config(render)
      ensures var spec := Attempt(cfg, param, payload, ScanState(output, old(draws), old(headers)));
        (spec.Err? ==> r == Err(spec.error)) &&
        (spec.Ok? ==> r == Ok(spec.value.findings) && draws == spec.value.draws && headers == spec.value.headers)
    {
      var triggerStr := MakeTrigger();
      var attack := Replace(payload.template, TriggerValuePlaceholder, triggerStr);
      var renderedPageOutput: Option<RenderedPage> := None;
      if targetType == Some(GET) {
        var page := RenderGetPage(attack, targetUrl, param, paramsReflected, paramsOther, render);
        if page.Err? {
          return Err(page.error);
        }
        renderedPageOutput := Some(page.value);
      } else if targetType == Some(POST) {
        var page := RenderPostPage(attack, targetUrl, param, paramsReflected, paramsOther, render);
        if page.Err? {
          return Err(page.error);
        }
        renderedPageOutput := Some(page.value);
      }
      var results := AnalyzeRenderedPageOutput(renderedPageOutput, Some(triggerStr));
      if results.Err? {
        return Err(results.error);
      }
      r := RecordResults(results.value, param, attack, output);
    }

    /** One turn of the payload loop of `run`: a payload the context
      selects and whose id is not in `used_payloads` is recorded there and
      tried; any other is passed over. `seen` is what the loop has reached
      past the context filter so far. */
    method ConsiderPayload(param: Param, context: ContextKind, payload: Payload, usedPayloads: seq<nat>,
                           output: seq<Finding>, render: Renderer, ghost cfg: ScanConfig,
                           ghost st0: ScanState, ghost seen: seq<Payload>)
      returns (r: Result<seq<Finding>>, used: seq<nat>)
      modifies `draws, `headers
      requires cfg == Config(render) && usedPayloads == Ids(Dedup(seen))
      requires Attempts(cfg, param, Dedup(seen), st0) == Ok(ScanState(output, draws, headers))
      ensures var spec := Attempts(cfg, param, Dedup(seen + if Selects(context, payload) then [payload] else []), st0);
        (spec.Err? ==> r == Err(spec.error)) &&
        (spec.Ok? ==> r == Ok(spec.value.findings) && draws == spec.value.draws && headers == spec.value.headers &&
                      used == Ids(Dedup(seen + if Selects(context, payload) then [payload] else [])))
    {
      if context == General || context in payload.contexts {
        DedupStep(seen, payload);
        if payload.id in usedPayloads {
          return Ok(output), usedPayloads;
        }
        used := usedPayloads + [payload.id];
        ghost var tried := Dedup(seen);
        AttemptsNext(cfg, param, tried, payload, st0, ScanState(output, draws, headers));
        assert Ids(tried + [payload]) == used;
        r := TryPayload(param, payload, output, render, cfg);
      } else {
        assert seen + [] == seen;
        return Ok(output), usedPayloads;
      }
    }

    /** The payload loop of `run` for the context at `c`: every catalogue
      payload in order. A failure here is the failure of the whole plan. */
    method AttackContext(param: Param, c: nat, catalog: seq<Payload>, usedPayloads: seq<nat>, output: seq<Finding>,
                         render: Renderer, ghost cfg: ScanConfig, ghost st0: ScanState)
      returns (r: Result<seq<Finding>>, used: seq<nat>)
      modifies `draws, `headers
      requires cfg == Config(render) && c < |param.contexts|
      requires usedPayloads == Ids(Dedup(Candidates(param.contexts[..c], catalog)))
      requires Attempts(cfg, param, Dedup(Candidates(param.contexts[..c], catalog)), st0) ==
        Ok(ScanState(output, draws, headers))
      ensures r.Err? ==> Attempts(cfg, param, Dedup(Candidates(param.contexts, catalog)), st0) == Err(r.error)
      ensures r.Ok? ==> (used == Ids(Dedup(Candidates(param.contexts[..c + 1], catalog))) &&
        Attempts(cfg, param, Dedup(Candidates(param.contexts[..c + 1], catalog)), st0) == Ok(ScanState(r.value, draws, headers)))
    {
      var context := param.contexts[c];
      ghost var head := Candidates(param.contexts[..c], catalog);
      assert head + Matching(context, catalog[..0]) == head;
      used := usedPayloads;
      var out := output;
      for j := 0 to |catalog|
        invariant used == Ids(Dedup(head + Matching(context, catalog[..j])))
        invariant Attempts(cfg, param, Dedup(head + Matching(context, catalog[..j])), st0) == Ok(ScanState(out, draws, headers))
      {
        var o;
        o, used := AttackCandidate(param, c, catalog, j, used, out, render, cfg, st0);
        if o.Err? {
          return Err(o.error), used;
        }
        out := o.value;
      }
      assert catalog[..|catalog|] == catalog;
      CandidatesStep(param.contexts, c, catalog);
      return Ok(out), used;
    }

    /** One turn of the payload loop: the `j`-th catalogue payload, tried
      if context `c` selects it and its id was not tried yet. */
    method AttackCandidate(param: Param, c: nat, catalog: seq<Payload>, j: nat, usedPayloads: seq<nat>,
                           output: seq<Finding>, render: Renderer, ghost cfg: ScanConfig, ghost st0: ScanState)
      returns (r: Result<seq<Finding>>, used: seq<nat>)
      modifies `draws, `headers
      requires cfg == Config(render) && c < |param.contexts| && j < |catalog|
      requires usedPayloads == Ids(Dedup(Candidates(param.contexts[..c], catalog) + Matching(param.contexts[c], catalog[..j])))
      requires Attempts(cfg, param, Dedup(Candidates(param.contexts[..c], catalog) + Matching(param.contexts[c], catalog[..j])), st0) ==
        Ok(ScanState(output, draws, headers))
      ensures r.Err? ==> Attempts(cfg, param, Dedup(Candidates(param.contexts, catalog)), st0) == Err(r.error)
      ensures r.Ok? ==> (used == Ids(Dedup(Candidates(param.contexts[..c], catalog) + Matching(param.contexts[c], catalog[..j + 1]))) &&
        Attempts(cfg, param, Dedup(Candidates(param.contexts[..c], catalog) + Matching(param.contexts[c], catalog[..j + 1])), st0) ==
          Ok(ScanState(r.value, draws, headers)))
    {
      ghost var head := Candidates(param.contexts[..c], catalog);
      ghost var seen := head + Matching(param.contexts[c], catalog[..j]);
      r, used := ConsiderPayload(param, param.contexts[c], catalog[j], usedPayloads, output, render, cfg, st0, seen);
      SeenStep(head, param.contexts[c], catalog, j);
      if r.Err? {
        PlanErrPersists(cfg, param, c, catalog, j + 1, st0);
      }
    }

    /** The two inner loops of `run` for one reflected parameter: every
      context in turn, every catalogue payload it selects whose id was not
      tried yet. */
    method AttackParam(param: Param, output: seq<Finding>, render: Renderer, ghost cfg: ScanConfig)
      returns (r: Result<seq<Finding>>)
      modifies `draws, `headers
      requires cfg == Config(render)
      ensures var spec := Attempts(cfg, param, PlanIn(param.contexts, cfg.catalog), ScanState(output, old(draws), old(headers)));
        (spec.Err? ==> r == Err(spec.error)) &&
        (spec.Ok? ==> r == Ok(spec.value.findings) && draws == spec.value.draws && headers == spec.value.headers)
    {
      var catalog := payloads;
      var usedPayloads: seq<nat> := [];
      var out := output;
      ghost var st0 := ScanState(output, draws, headers);
      for c := 0 to |param.contexts|
        invariant usedPayloads == Ids(Dedup(Candidates(param.contexts[..c], catalog)))
        invariant Attempts(cfg, param, Dedup(Candidates(param.contexts[..c], catalog)), st0) == Ok(ScanState(out, draws, headers))
      {
        var o;
        o, usedPayloads := AttackContext(param, c, catalog, usedPayloads, out, render, cfg, st0);
        if o.Err? {
          return Err(o.error);
        }
        out := o.value;
      }
      assert param.contexts[..|param.contexts|] == param.contexts;
      return Ok(out);
    }

    /** `run`: the findings of attacking every reflected parameter in turn,
      exactly as the whole-run fold computes them. */
    method Run(render: Renderer) returns (r: Result<seq<Finding>>)
      modifies `draws, `headers
      ensures var spec := Scan(old(Config(render)), old(draws), old(headers));
        (spec.Err? ==> r == Err(spec.error)) &&
        (spec.Ok? ==> r == Ok(spec.value.findings) && draws == spec.value.draws && headers == spec.value.headers)
    {
      ghost var cfg := Config(render);
      ghost var st0 := ScanState([], draws, headers);
      ghost var spec := Scan(cfg, draws, headers);
      assert spec == ScanParams(cfg, |cfg.reflected|, st0);
      var output: seq<Finding> := [];
      for n := 0 to |paramsReflected|
        invariant cfg == Config(render)
        invariant ScanParams(cfg, n, st0) == Ok(ScanState(output, draws, headers))
      {
        var o := AttackNext(n, output, render, cfg, st0);
        if o.Err? {
          assert spec == Err(o.error);
          return Err(o.error);
        }
        output := o.value;
      }
      assert spec == Ok(ScanState(output, draws, headers));
      return Ok(output);
    }

    /** One turn of the outer loop of `run`: the `n`-th reflected parameter
      attacked from where the earlier ones left off; an error here is the
      error of the whole run. */
    method AttackNext(n: nat, output: seq<Finding>, render: Renderer, ghost cfg: ScanConfig, ghost st0: ScanState)
      returns (r: Result<seq<Finding>>)
      modifies `draws, `headers
      requires cfg == Config(render) && n < |cfg.reflected|
      requires ScanParams(cfg, n, st0) == Ok(ScanState(output, draws, headers))
      ensures r.Err? ==> ScanParams(cfg, |cfg.reflected|, st0) == Err(r.error)
      ensures r.Ok? ==> ScanParams(cfg, n + 1, st0) == Ok(ScanState(r.value, draws, headers))
    {
      ghost var st := ScanState(output, draws, headers);
      r := AttackParam(paramsReflected[n], output, render, cfg);
      ghost var res := if r.Err? then Err(r.error) else Ok(ScanState(r.value, draws, headers));
      ScanParamsAfter(cfg, n, st0, st, res);
    }
  }
}
