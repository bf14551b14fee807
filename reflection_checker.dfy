/** ReflectionChecker.py: rebuilds the probed request with a random trigger
    as each parameter's value, renders it, finds where each trigger shows up
    in the page, and moves the parameters whose trigger showed up from
    `params_other` to `params_reflected`. */
module ReflectionChecking {
  import opened Common
  import opened Strings
  import opened XssMapObjects
  import opened Collaborators
  import opened ReflectionSpec
  import RequestVariableProbe

  class ReflectionChecker {
    /** The probe's output object, shared with the caller and updated in place. */
    var data: XssMapObject
    var searches: seq<string>
    var requestUrl: Option<string>
    var requestBody: string
    var headers: map<string, string>
    /** The random source and the index of the next draw. */
    const random: RandomSource
    var draws: nat

    /** The fields as `__init__` sets them before it calls `load`. */
    constructor(info: XssMapObject, random: RandomSource, start: nat)
      ensures data == info && searches == [] && requestUrl == Some("") && requestBody == ""
      ensures headers == map[] && this.random == random && draws == start
    {
      data := info;
      searches := [];
      requestUrl := Some("");
      requestBody := "";
      headers := map[];
      this.random := random;
      draws := start;
    }

    /** The part of the checker that `load` sets. */
    ghost function State(): Loaded
      reads this, data
    {
      Loaded(requestUrl, requestBody, searches, data.paramsOther, draws)
    }

    /** `__make_trigger`: nine letters, one draw each. */
    method MakeTrigger() returns (t: string)
      modifies `draws
      ensures t == ReflTrigger(random, old(draws)) && draws == old(draws) + 9
    {
      t := "";
      for j := 0 to 9
        invariant draws == old(draws) + j
        invariant t == ReflTrigger(random, old(draws))[..j]
      {
        t := t + [AsciiLowercase[random(draws) % 26]];
        draws := draws + 1;
      }
    }

    /** `load`: dispatch on the request type. */
    method Load() returns (o: Outcome)
      modifies this, data`paramsOther
      ensures data == old(data) && headers == old(headers)
      ensures var spec := LoadSpec(old(data.requestType), old(data.requestUrlRoot), old(data.paramsOther),
                                   old(requestBody), old(searches), random, old(draws));
        o == OutcomeOf(spec) && (spec.Ok? ==> State() == spec.value)
    {
      if data.requestType == Some(GET) {
        o := LoadFieldsFromGet();
      } else if data.requestType == Some(POST) {
        o := LoadFieldsFromPost();
      } else {
        requestUrl := data.requestUrlRoot;
        o := Pass;
      }
    }

    /** `__load_fields_from_GET`. */
    method LoadFieldsFromGet() returns (o: Outcome)
      modifies this, data`paramsOther
      ensures data == old(data) && headers == old(headers)
      ensures old(data.requestUrlRoot).None? ==> o == Fail(AttributeError)
      ensures old(data.requestUrlRoot).Some? ==> o == Pass
      ensures old(data.requestUrlRoot).Some? ==>
        State() == GetLoaded(old(data.requestUrlRoot).value, old(data.paramsOther), old(requestBody), random, old(draws))
    {
      var root := data.requestUrlRoot;
      if root.None? {
        return Fail(AttributeError);
      }
      var url := GatherGetParams(SplitOnce(root.value, '?')[0]);
      requestUrl := Some(url);
      return Pass;
    }

    /** The loop of `__load_fields_from_GET`: a trigger per parameter, its
      pair appended to the URL, `?` before the first and `&` between. */
    method GatherGetParams(base: string) returns (url: string)
      modifies `draws, `searches, data`paramsOther
      ensures var ps := old(data.paramsOther);
        var ts := Triggers(random, old(draws), |ps|);
        url == GetUrlAfter(base, TriggerPairs(ps, ts), |ps|) &&
        searches == ts && data.paramsOther == WithTriggers(ps, ts) && draws == old(draws) + 9 * |ps|
    {
      url := base;
      searches := [];
      ghost var ps := data.paramsOther;
      ghost var ts := Triggers(random, draws, |ps|);
      ghost var pairs := TriggerPairs(ps, ts);
      ghost var d0 := draws;
      var n := |data.paramsOther|;
      for idx := 0 to n
        invariant LoadLoop(ps, ts, d0, idx)
        invariant url == GetUrlAfter(base, pairs, idx)
      {
        url := GetTurn(ps, ts, d0, base, pairs, idx, url);
      }
      assert ts[..n] == ts && data.paramsOther == WithTriggers(ps, ts);
    }

    /** The state of either load loop after `idx` parameters: that many
      triggers drawn, searched for, and recorded on their parameters. */
    ghost predicate LoadLoop(ps: seq<Param>, ts: seq<string>, d0: nat, idx: nat)
      reads this, data
    {
      |ts| == |ps| && idx <= |ps| && ts == Triggers(random, d0, |ps|) &&
      draws == d0 + 9 * idx && searches == ts[..idx] && data.paramsOther == TriggeredUpTo(ps, ts, idx)
    }

    /** One turn of the loop of `__load_fields_from_GET`. */
    method GetTurn(ghost ps: seq<Param>, ghost ts: seq<string>, ghost d0: nat, ghost base: string,
                   ghost pairs: seq<string>, idx: nat, url: string)
      returns (url': string)
      modifies `draws, `searches, data`paramsOther
      requires LoadLoop(ps, ts, d0, idx) && idx < |ps| && pairs == TriggerPairs(ps, ts)
      requires url == GetUrlAfter(base, pairs, idx)
      ensures LoadLoop(ps, ts, d0, idx + 1) && url' == GetUrlAfter(base, pairs, idx + 1)
    {
      url' := url;
      if idx == 0 {
        url' := url' + "?";
      }
      var triggerStr := MakeTrigger();
      TriggerAt(random, d0, |ps|, idx);
      var param := data.paramsOther[idx];
      url' := AppendGetPair(base, pairs, idx, |data.paramsOther|, url', param.name + "=" + triggerStr);
      RecordTrigger(ps, ts, idx, triggerStr);
    }

    /** One turn of the loop of `__load_fields_from_POST`; a parameter
      without a delivery raises before anything is drawn. */
    method PostTurn(ghost ps: seq<Param>, ghost ts: seq<string>, ghost d0: nat, base: string, idx: nat,
                    url: string, body: string, firstUrlParam: bool)
      returns (o: Outcome, url': string, body': string, firstUrlParam': bool)
      modifies `draws, `searches, data`paramsOther
      requires LoadLoop(ps, ts, d0, idx) && idx < |ps|
      requires PostLoop(base, ps, ts, idx) == Ok(PostState(url, body, firstUrlParam))
      ensures var next := PostLoop(base, ps, ts, idx + 1);
        (next.Err? ==> o == Fail(next.error)) &&
        (next.Ok? ==> o == Pass && next.value == PostState(url', body', firstUrlParam') && LoadLoop(ps, ts, d0, idx + 1))
    {
      var param := data.paramsOther[idx];
      if param.delivery.None? {
        return Fail(KeyError("delivery")), url, body, firstUrlParam;
      }
      var triggerStr := MakeTrigger();
      TriggerAt(random, d0, |ps|, idx);
      o, url', body', firstUrlParam' := AppendPostPair(base, ps, ts, idx, url, body, firstUrlParam,
                                                       param.delivery.value, param.name + "=" + triggerStr);
      if o.Pass? {
        RecordTrigger(ps, ts, idx, triggerStr);
      }
    }

    /** The end of one turn of either load loop: the parameter at `idx`
      records its trigger, which joins the searches. */
    method RecordTrigger(ghost ps: seq<Param>, ghost ts: seq<string>, idx: nat, triggerStr: string)
      modifies `searches, data`paramsOther
      requires |ts| == |ps| && idx < |ps| && triggerStr == ts[idx]
      requires searches == ts[..idx] && data.paramsOther == TriggeredUpTo(ps, ts, idx)
      ensures searches == ts[..idx + 1] && data.paramsOther == TriggeredUpTo(ps, ts, idx + 1)
    {
      data.paramsOther := data.paramsOther[idx := data.paramsOther[idx].(trigger := Some(triggerStr))];
      searches := searches + [triggerStr];
      assert ts[..idx + 1] == ts[..idx] + [triggerStr];
    }

    /** One parameter's `name=trigger` on the GET URL, then `&` unless it
      is the last. */
    static method AppendGetPair(ghost base: string, ghost pairs: seq<string>, idx: nat, n: nat, url: string, pair: string)
      returns (extended: string)
      requires n == |pairs| && idx < n && pair == pairs[idx]
      requires url == (if idx == 0 then base + "?" else GetUrlAfter(base, pairs, idx))
      ensures extended == GetUrlAfter(base, pairs, idx + 1)
    {
      extended := url + pair;
      if idx < n - 1 {
        extended := extended + "&";
      }
      GetUrlStep(base, pairs, idx);
    }

    /** `__load_fields_from_POST`. */
    method LoadFieldsFromPost() returns (o: Outcome)
      modifies this, data`paramsOther
      ensures data == old(data) && headers == old(headers)
      ensures old(data.requestUrlRoot).None? ==> o == Fail(AttributeError)
      ensures old(data.requestUrlRoot).Some? ==>
        var spec := PostLoaded(old(data.requestUrlRoot).value, old(data.paramsOther), random, old(draws));
        o == OutcomeOf(spec) && (spec.Ok? ==> State() == spec.value)
    {
      var root := data.requestUrlRoot;
      if root.None? {
        return Fail(AttributeError);
      }
      ghost var ps := data.paramsOther;
      ghost var ts := Triggers(random, draws, |ps|);
      var base := SplitOnce(root.value, '?')[0];
      var gathered, url, body := GatherPostParams(base);
      if gathered.Fail? {
        PostLoopPieces(base, ps, ts, |ps|);
        return gathered;
      }
      var request := FinishPostRequest(root.value, ps, ts, base, url, body);
      if request.Err? {
        return Fail(request.error);
      }
      requestUrl := Some(request.value.0);
      requestBody := request.value.1;
      return Pass;
    }

    /** The end of `__load_fields_from_POST`: the URL's last character is
      read without a guard, then a trailing `&` is dropped from the URL and
      from the body. */
    static method FinishPostRequest(ghost root: string, ghost ps: seq<Param>, ghost ts: seq<string>,
                                    base: string, url: string, body: string)
      returns (r: Result<(string, string)>)
      requires |ts| == |ps| && base == RequestVariableProbe.UrlRoot(root)
      requires PostLoop(base, ps, ts, |ps|).Ok?
      requires PostLoop(base, ps, ts, |ps|).value.url == url && PostLoop(base, ps, ts, |ps|).value.body == body
      ensures r == PostProbeRequest(root, ps, ts)
    {
      PostLoopPieces(base, ps, ts, |ps|);
      ghost var acc := PostPieces(ps, ts, |ps|).value;
      assert url == PostUrlBuilt(base, acc.url) && body == Terminated(acc.body);
      if |url| == 0 {
        return Err(IndexError);
      }
      var trimmedUrl, trimmedBody := url, body;
      if url[|url| - 1] == '&' {
        trimmedUrl := url[..|url| - 1];
      }
      if |body| > 0 && body[|body| - 1] == '&' {
        trimmedBody := body[..|body| - 1];
      }
      return Ok((trimmedUrl, trimmedBody));
    }

    /** The loop of `__load_fields_from_POST`: a trigger per parameter, its
      pair appended, with `&`, to the URL (after a `?` for the first) or to
      the body by its `delivery`. */
    method GatherPostParams(base: string) returns (o: Outcome, url: string, body: string)
      modifies `draws, `searches, data`paramsOther
      ensures var ps := old(data.paramsOther);
        var st := PostLoop(base, ps, Triggers(random, old(draws), |ps|), |ps|);
        (st.Err? ==> o == Fail(st.error)) && (st.Ok? ==> o == Pass && url == st.value.url && body == st.value.body)
      ensures var ps := old(data.paramsOther);
        var ts := Triggers(random, old(draws), |ps|);
        o.Pass? ==> searches == ts && data.paramsOther == WithTriggers(ps, ts) && draws == old(draws) + 9 * |ps|
    {
      url := base;
      body := "";
      searches := [];
      var firstUrlParam := true;
      ghost var ps := data.paramsOther;
      ghost var ts := Triggers(random, draws, |ps|);
      ghost var d0 := draws;
      var n := |data.paramsOther|;
      for idx := 0 to n
        invariant LoadLoop(ps, ts, d0, idx)
        invariant PostLoop(base, ps, ts, idx) == Ok(PostState(url, body, firstUrlParam))
      {
        var turn;
        turn, url, body, firstUrlParam := PostTurn(ps, ts, d0, base, idx, url, body, firstUrlParam);
        if turn.Fail? {
          PostLoopErrPersists(base, ps, ts, idx + 1, n);
          return turn, url, body;
        }
      }
      assert ts[..n] == ts && data.paramsOther == WithTriggers(ps, ts);
      return Pass, url, body;
    }

    /** One parameter's `name=trigger` and `&`, on the URL (after a `?` for
      the first `url` parameter) or on the body; any other delivery
      raises. The `?` is added before the trigger is drawn in the loop,
      which the draw does not see. */
    static method AppendPostPair(ghost base: string, ghost ps: seq<Param>, ghost ts: seq<string>, idx: nat,
                                 url: string, body: string, firstUrlParam: bool, delivery: Delivery, pair: string)
      returns (o: Outcome, url': string, body': string, firstUrlParam': bool)
      requires |ts| == |ps| && idx < |ps| && ps[idx].delivery == Some(delivery)
      requires pair == ps[idx].name + "=" + ts[idx]
      requires PostLoop(base, ps, ts, idx) == Ok(PostState(url, body, firstUrlParam))
      ensures var next := PostLoop(base, ps, ts, idx + 1);
        (next.Err? ==> o == Fail(next.error)) &&
        (next.Ok? ==> o == Pass && next.value == PostState(url', body', firstUrlParam'))
    {
      url', body', firstUrlParam' := url, body, firstUrlParam;
      if delivery == Url && firstUrlParam {
        firstUrlParam' := false;
        url' := url + "?";
      }
      if delivery == Url {
        url' := url' + pair + "&";
      } else if delivery == Body {
        body' := body + pair + "&";
      } else {
        return Fail(RuntimeError(UnrecognizedDelivery)), url', body', firstUrlParam';
      }
      o := Pass;
    }

    /** The count of messages mentioning the trigger, as each of the four
      message loops computes it. */
    static method CountContaining(msgs: seq<string>, search: string) returns (count: nat)
      ensures count == NumContaining(msgs, search)
    {
      count := 0;
      for i := 0 to |msgs|
        invariant count == NumContaining(msgs[..i], search)
      {
        assert msgs[..i + 1][..i] == msgs[..i];
        if Contains(msgs[i], search) {
          count := count + 1;
        }
      }
      assert msgs[..|msgs|] == msgs;
    }

    /** The contexts of one trigger: the thirteen page queries in order (one
      loop turn each, standing for the thirteen query blocks), then the
      error, console, prompt and confirm messages. */
    static method ContextsOfSearch(page: RenderedPage, search: string) returns (contexts: seq<ContextCount>)
      ensures contexts == ContextsFor(page, search)
    {
      contexts := [];
      ghost var tested: seq<ContextKind> := [];
      for q := 0 to |DomKinds|
        invariant tested == DomKinds[..q]
        invariant contexts == Positive(page, search, tested)
      {
        var kind := DomKinds[q];
        var count := page.domCount(search, kind);
        DomKindCount(page, search, q);
        PositiveSnoc(page, search, tested, kind);
        if count > 0 {
          contexts := contexts + [ContextCount(kind, count)];
        }
        tested := tested + [kind];
      }
      assert tested == DomKinds;
      ContextsForSplit(page, search);
      var errorCount := CountContaining(page.errors, search);
      if errorCount > 0 {
        contexts := contexts + [ContextCount(JsError, errorCount)];
      }
      assert contexts == Positive(page, search, DomKinds) + Found(JsError, errorCount);
      var consoleMsgCount := CountContaining(page.consoleMessages, search);
      if consoleMsgCount > 0 {
        contexts := contexts + [ContextCount(JsConsole, consoleMsgCount)];
      }
      assert contexts == Positive(page, search, DomKinds) + Found(JsError, errorCount) + Found(JsConsole, consoleMsgCount);
      var promptPopupCount := CountContaining(page.prompts, search);
      if promptPopupCount > 0 {
        contexts := contexts + [ContextCount(JsPrompt, promptPopupCount)];
      }
      assert contexts == Positive(page, search, DomKinds) + Found(JsError, errorCount) + Found(JsConsole, consoleMsgCount) + Found(JsPrompt, promptPopupCount);
      var confirmPopupCount := CountContaining(page.confirms, search);
      if confirmPopupCount > 0 {
        contexts := contexts + [ContextCount(JsConfirm, confirmPopupCount)];
      }
      assert contexts == Positive(page, search, DomKinds) + Found(JsError, errorCount) + Found(JsConsole, consoleMsgCount) + Found(JsPrompt, promptPopupCount) + Found(JsConfirm, confirmPopupCount);
    }

    /** `__analyze_rendered_page_output`: one result per trigger seen in at
      least one context. */
    method AnalyzeRenderedPageOutput(page: RenderedPage) returns (results: seq<ReflectionResult>)
      ensures results == Analysis(page, searches)
    {
      results := [];
      for i := 0 to |searches|
        invariant results == Analysis(page, searches[..i])
      {
        var search := searches[i];
        var contexts := ContextsOfSearch(page, search);
        assert searches[..i + 1][..i] == searches[..i];
        if contexts != [] {
          results := results + [ReflectionResult(search, contexts)];
        }
      }
      assert searches[..|searches|] == searches;
    }

    /** `__find_parameter_and_mark_as_reflected`: move the first parameter
      carrying the trigger to the end of `params_reflected`, with no
      contexts yet, and return its index there. */
    method FindParameterAndMarkAsReflected(triggerStr: string) returns (r: Result<nat>)
      modifies data`paramsReflected, data`paramsOther
      ensures var found := FindFrom(old(data.paramsOther), triggerStr, 0);
        found.Err? ==> r == Err(found.error) && unchanged(data)
      ensures var found := FindFrom(old(data.paramsOther), triggerStr, 0);
        found.Ok? ==> r == Ok(|old(data.paramsReflected)|) && data.paramsOther == RemoveAt(old(data.paramsOther), found.value)
      ensures var found := FindFrom(old(data.paramsOther), triggerStr, 0);
        found.Ok? ==> data.paramsReflected == old(data.paramsReflected) + [old(data.paramsOther)[found.value].(contexts := [])]
    {
      for idx := 0 to |data.paramsOther|
        invariant FindFrom(data.paramsOther, triggerStr, 0) == FindFrom(data.paramsOther, triggerStr, idx)
        invariant data.paramsReflected == old(data.paramsReflected) && data.paramsOther == old(data.paramsOther)
      {
        var param := data.paramsOther[idx];
        if param.trigger.None? {
          return Err(KeyError("reflect_trigger"));
        }
        if param.trigger.value == triggerStr {
          var reflectedParam := param.(contexts := []);
          data.paramsReflected := data.paramsReflected + [reflectedParam];
          data.paramsOther := data.paramsOther[..idx] + data.paramsOther[idx + 1..];
          return Ok(|data.paramsReflected| - 1);
        }
      }
      return Err(RuntimeError(NotFoundMessage));
    }

    /** The inner loop of `run`: each context kind found for a trigger is
      appended to the contexts of the parameter at `i`. */
    method RecordContexts(i: nat, contexts: seq<ContextCount>)
      modifies data`paramsReflected
      requires i < |data.paramsReflected|
      ensures data.paramsReflected == old(data.paramsReflected)[i :=
        old(data.paramsReflected)[i].(contexts := old(data.paramsReflected)[i].contexts + KindsOf(contexts))]
    {
      ghost var base := data.paramsReflected;
      for c := 0 to |contexts|
        invariant |data.paramsReflected| == |base|
        invariant forall k | 0 <= k < |base| && k != i :: data.paramsReflected[k] == base[k]
        invariant data.paramsReflected[i] == base[i].(contexts := base[i].contexts + KindsOf(contexts[..c]))
      {
        var contextDesc := contexts[c].kind;
        assert KindsOf(contexts[..c + 1]) == KindsOf(contexts[..c]) + [contextDesc];
        data.paramsReflected := data.paramsReflected[i := data.paramsReflected[i].(contexts :=
          data.paramsReflected[i].contexts + [contextDesc])];
      }
      assert contexts[..|contexts|] == contexts;
    }

    /** `run`: render the probe request, analyse the page, then rebuild
      `params_reflected` from the results; the object returned is the
      shared `data`. */
    method Run(render: Renderer) returns (r: Result<XssMapObject>)
      modifies data`paramsReflected, data`paramsOther
      ensures r.Ok? ==> r.value == data
      ensures
        var page := render(RenderRequest(data.requestType, requestUrl, Some(requestBody), headers, false));
        var results := Analysis(page, searches);
        var migrated := Migrate(old(data.paramsOther), results, |results|);
        (migrated.Err? ==> r == Err(migrated.error)) &&
        (migrated.Ok? ==> r == Ok(data) && migrated.value == Lists(data.paramsReflected, data.paramsOther))
    {
      var renderedPageOutput := render(RenderRequest(data.requestType, requestUrl, Some(requestBody), headers, false));
      var results := AnalyzeRenderedPageOutput(renderedPageOutput);
      data.paramsReflected := [];
      var o := MarkAllReflected(results);
      if o.Fail? {
        return Err(o.error);
      }
      return Ok(data);
    }

    /** The outer loop of `run`: each result's parameter moves to
      `params_reflected` and receives the result's context kinds. */
    method MarkAllReflected(results: seq<ReflectionResult>) returns (o: Outcome)
      modifies data`paramsReflected, data`paramsOther
      requires data.paramsReflected == []
      ensures var migrated := Migrate(old(data.paramsOther), results, |results|);
        (migrated.Err? ==> o == Fail(migrated.error)) &&
        (migrated.Ok? ==> o == Pass && migrated.value == Lists(data.paramsReflected, data.paramsOther))
    {
      ghost var other0 := data.paramsOther;
      for n := 0 to |results|
        invariant Migrate(other0, results, n).Ok?
        invariant data.paramsReflected == Migrate(other0, results, n).value.reflected
        invariant data.paramsOther == Migrate(other0, results, n).value.other
      {
        var marked := MarkOne(results[n]);
        if marked.Fail? {
          MigrateErrPersists(other0, results, n + 1, |results|);
          return marked;
        }
      }
      return Pass;
    }

    /** One turn of the outer loop of `run`: the result's parameter moves
      to `params_reflected`, then receives the result's context kinds. */
    method MarkOne(result: ReflectionResult) returns (o: Outcome)
      modifies data`paramsReflected, data`paramsOther
      ensures var marked := MarkReflected(old(Lists(data.paramsReflected, data.paramsOther)), result);
        (marked.Err? ==> o == Fail(marked.error)) &&
        (marked.Ok? ==> o == Pass && marked.value == Lists(data.paramsReflected, data.paramsOther))
    {
      var index := FindParameterAndMarkAsReflected(result.payload);
      if index.Err? {
        return Fail(index.error);
      }
      ghost var base := data.paramsReflected;
      assert |base| == index.value + 1 && base[index.value].contexts == [];
      RecordContexts(index.value, result.contexts);
      assert [] + KindsOf(result.contexts) == KindsOf(result.contexts);
      assert data.paramsReflected == base[..index.value] + [base[index.value].(contexts := KindsOf(result.contexts))];
      return Pass;
    }
  }

  /** `ReflectionChecker(information_from_probe)`: build the checker and
      load the probe's output into it; an exception in `load` escapes the
      constructor, so no checker results. */
  method NewReflectionChecker(info: XssMapObject, random: RandomSource, start: nat) returns (r: Result<ReflectionChecker>)
    modifies info`paramsOther
    ensures var spec := LoadSpec(old(info.requestType), old(info.requestUrlRoot), old(info.paramsOther),
                                 "", [], random, start);
      (spec.Err? ==> r == Err(spec.error)) && (spec.Ok? <==> r.Ok?)
    ensures r.Ok? ==> fresh(r.value) && r.value.data == info && r.value.random == random && r.value.headers == map[]
    ensures var spec := LoadSpec(old(info.requestType), old(info.requestUrlRoot), old(info.paramsOther),
                                 "", [], random, start);
      r.Ok? ==> r.value.State() == spec.value
  {
    var checker := new ReflectionChecker(info, random, start);
    var o := checker.Load();
    if o.Fail? {
      return Err(o.error);
    }
    return Ok(checker);
  }
}
