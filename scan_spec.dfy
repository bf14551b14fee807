/** What the active scanner (XssScanner.py) computes, as functions of its
    inputs: the trigger it draws, the payloads it tries for a reflected
    parameter, the attack request it renders, the evidence it reads off the
    rendered page, and the findings of a whole run. */
module ScanSpec {
  import opened Common
  import opened Strings
  import opened XssMapObjects
  import opened Collaborators
  import opened XssMapPayloads
  import RequestVariableProbe
  import ReflectionSpec

  // ---------------------------------------------------------------------
  // Triggers

  const TriggerLow: nat := 100000000
  const TriggerHigh: nat := 999999999

  /** `random.randrange(100000000, 999999999)` fed with draw `k`. */
  function ScanTriggerValue(random: RandomSource, k: nat): (n: nat)
    ensures TriggerLow <= n < TriggerHigh
  {
    TriggerLow + random(k) % (TriggerHigh - TriggerLow)
  }

  /** `make_trigger`: the decimal text of that number. */
  function ScanTrigger(random: RandomSource, k: nat): string
  {
    DecimalString(ScanTriggerValue(random, k))
  }

  /** Nine decimal digits, the first one not zero. */
  predicate IsScanTrigger(t: string)
  {
    |t| == 9 && (forall i | 0 <= i < 9 :: IsDigit(t[i])) && t[0] != '0'
  }

  /** Every scan trigger is nine digits that spell the number drawn, so it
      never holds a `{` (and cannot recreate a placeholder). */
  lemma ScanTriggerDigits(random: RandomSource, k: nat)
    ensures IsScanTrigger(ScanTrigger(random, k))
    ensures DigitsValue(ScanTrigger(random, k)) == ScanTriggerValue(random, k)
    ensures '{' !in ScanTrigger(random, k)
  {
    assert Pow10(8) == 100000000;
    DecimalStringDigits(ScanTriggerValue(random, k), 8);
    var t := ScanTrigger(random, k);
    assert forall i | 0 <= i < |t| :: t[i] != '{';
  }

  // ---------------------------------------------------------------------
  // Which payloads a reflected parameter is attacked with

  /** `context == 'general' or context in payload['contexts']`. */
  predicate Selects(context: ContextKind, p: Payload)
  {
    context == General || context in p.contexts
  }

  /** The payloads of `catalog` that `context` selects, in catalogue order. */
  function Matching(context: ContextKind, catalog: seq<Payload>): seq<Payload>
    decreases |catalog|
  {
    if catalog == [] then []
    else
      var last := catalog[|catalog| - 1];
      Matching(context, catalog[..|catalog| - 1]) + (if Selects(context, last) then [last] else [])
  }

  /** Every payload the two inner loops reach past the context filter, in
      loop order: context by context, each through the whole catalogue. */
  function Candidates(contexts: seq<ContextKind>, catalog: seq<Payload>): seq<Payload>
    decreases |contexts|
  {
    if contexts == [] then []
    else Candidates(contexts[..|contexts| - 1], catalog) + Matching(contexts[|contexts| - 1], catalog)
  }

  function Ids(ps: seq<Payload>): (ids: seq<nat>)
    ensures |ids| == |ps| && forall k | 0 <= k < |ps| :: ids[k] == ps[k].id
  {
    seq(|ps|, k requires 0 <= k < |ps| => ps[k].id)
  }

  /** The `used_payloads` bookkeeping: a candidate whose id was already
      tried is skipped. */
  function Dedup(ps: seq<Payload>): seq<Payload>
    decreases |ps|
  {
    if ps == [] then []
    else
      var prev := Dedup(ps[..|ps| - 1]);
      var last := ps[|ps| - 1];
      if last.id in Ids(prev) then prev else prev + [last]
  }

  /** The payloads of `catalog` tried, in order, for a parameter reflected
      in `contexts`. */
  function PlanIn(contexts: seq<ContextKind>, catalog: seq<Payload>): seq<Payload>
  {
    Dedup(Candidates(contexts, catalog))
  }

  /** The payloads tried, in order, for a parameter reflected in `contexts`. */
  function Plan(contexts: seq<ContextKind>): seq<Payload>
  {
    PlanIn(contexts, Catalog())
  }

  /** A payload passes the filter for `context` exactly when it is in the
      catalogue and `context` selects it. */
  lemma {:induction false} MatchingSpec(context: ContextKind, catalog: seq<Payload>, p: Payload)
    ensures p in Matching(context, catalog) <==> p in catalog && Selects(context, p)
    decreases |catalog|
  {
    if catalog != [] {
      var init := catalog[..|catalog| - 1];
      MatchingSpec(context, init, p);
      assert catalog == init + [catalog[|catalog| - 1]];
    }
  }

  /** A payload is a candidate exactly when it is in the catalogue and one
      of the contexts selects it. */
  lemma {:induction false} CandidatesSpec(contexts: seq<ContextKind>, catalog: seq<Payload>, p: Payload)
    ensures p in Candidates(contexts, catalog) <==>
      p in catalog && exists c | c in contexts :: Selects(c, p)
    decreases |contexts|
  {
    if contexts != [] {
      var init := contexts[..|contexts| - 1];
      var last := contexts[|contexts| - 1];
      CandidatesSpec(init, catalog, p);
      MatchingSpec(last, catalog, p);
      assert contexts == init + [last];
      if p in catalog && Selects(last, p) {
        assert last in contexts;
      }
      if c :| c in contexts && Selects(c, p) {
        if c != last {
          assert c in init;
        }
      }
    }
  }

  /** What the `used_payloads` list guarantees: no id is tried twice, only
      candidates are tried, and every candidate's id is tried. */
  lemma {:induction false} DedupSpec(ps: seq<Payload>)
    ensures forall i, j | 0 <= i < j < |Dedup(ps)| :: Dedup(ps)[i].id != Dedup(ps)[j].id
    ensures forall i | 0 <= i < |Dedup(ps)| :: Dedup(ps)[i] in ps
    ensures forall j | 0 <= j < |ps| :: ps[j].id in Ids(Dedup(ps))
    decreases |ps|
  {
    if ps != [] {
      var init := ps[..|ps| - 1];
      DedupSpec(init);
      var prev := Dedup(init);
      assert forall i | 0 <= i < |prev| :: prev[i] in init && prev[i] in ps;
      assert forall j | 0 <= j < |init| :: init[j] == ps[j];
      if ps[|ps| - 1].id !in Ids(prev) {
        var d := prev + [ps[|ps| - 1]];
        assert forall i | 0 <= i < |prev| :: d[i] == prev[i];
        assert Ids(d) == Ids(prev) + [ps[|ps| - 1].id];
      }
    }
  }

  /** Candidates whose ids are already distinct pass through unchanged. */
  lemma {:induction false} DedupDistinct(ps: seq<Payload>)
    requires forall i, j | 0 <= i < j < |ps| :: ps[i].id != ps[j].id
    ensures Dedup(ps) == ps
    decreases |ps|
  {
    if ps != [] {
      var init := ps[..|ps| - 1];
      DedupDistinct(init);
      assert ps[|ps| - 1].id !in Ids(init);
      assert init + [ps[|ps| - 1]] == ps;
    }
  }

  /** The wildcard selects the whole catalogue, in order. */
  lemma {:induction false} MatchingGeneral(catalog: seq<Payload>)
    ensures Matching(General, catalog) == catalog
    decreases |catalog|
  {
    if catalog != [] {
      MatchingGeneral(catalog[..|catalog| - 1]);
      assert catalog[..|catalog| - 1] + [catalog[|catalog| - 1]] == catalog;
    }
  }

  /** The plan for a reflected parameter: distinct ids, catalogue payloads
      that one of its contexts selects, and every such payload's id. */
  lemma PlanSpec(contexts: seq<ContextKind>)
    ensures forall i, j | 0 <= i < j < |Plan(contexts)| :: Plan(contexts)[i].id != Plan(contexts)[j].id
    ensures forall i | 0 <= i < |Plan(contexts)| ::
      Plan(contexts)[i] in Catalog() && exists c | c in contexts :: Selects(c, Plan(contexts)[i])
    ensures forall p, c | p in Catalog() && c in contexts && Selects(c, p) :: p.id in Ids(Plan(contexts))
  {
    var cands := Candidates(contexts, Catalog());
    DedupSpec(cands);
    assert Plan(contexts) == Dedup(cands);
    forall i | 0 <= i < |Plan(contexts)|
      ensures Plan(contexts)[i] in Catalog() && exists c | c in contexts :: Selects(c, Plan(contexts)[i])
    {
      CandidatesSpec(contexts, Catalog(), Plan(contexts)[i]);
    }
    forall p, c | p in Catalog() && c in contexts && Selects(c, p)
      ensures p.id in Ids(Plan(contexts))
    {
      CandidatesSpec(contexts, Catalog(), p);
      var j :| 0 <= j < |cands| && cands[j] == p;
      assert cands[j].id in Ids(Plan(contexts));
    }
  }

  /** The wildcard plan tries fifteen payloads. */
  lemma PlanWildcardSize()
    ensures |Plan([General])| == 15
  {
    PlanWildcard();
    CatalogScripts();
  }

  /** A parameter carrying only the wildcard (the scan-everything mode) is
      attacked with the whole catalogue, in catalogue order. */
  lemma PlanWildcard()
    ensures Plan([General]) == Catalog()
  {
    var catalog := Catalog();
    CatalogScripts();
    assert forall i, j | 0 <= i < j < |catalog| :: catalog[i].id != catalog[j].id;
    DedupDistinct(catalog);
    MatchingGeneral(catalog);
    assert [General][..0] == [];
    assert Candidates([General], catalog) == catalog;
  }

  /** A parameter reflected only in contexts no payload targets (plain text,
      an id attribute, an event handler, the browser message kinds) is not
      attacked at all. */
  lemma PlanUntargeted(contexts: seq<ContextKind>)
    requires forall c | c in contexts :: c != General && !Targeted(c)
    ensures Plan(contexts) == []
  {
    CatalogContexts();
    var cands := Candidates(contexts, Catalog());
    if cands != [] {
      CandidatesSpec(contexts, Catalog(), cands[0]);
      assert false;
    }
  }

  // ---------------------------------------------------------------------
  // Evidence on the rendered page

  datatype Certainty = Certain | Probable

  /** One result dictionary before the run adds its parameter fields. */
  datatype Evidence = Evidence(certainty: Certainty, message: string)

  const AlertPrefix: string := "Indicated via alert: \""
  const ErrorPrefix: string := "Indicated via execution error: \""
  const ConsolePrefix: string := "Indicated via console message: \""

  /** One result per message that contains the trigger, in message order. */
  function Indications(msgs: seq<string>, search: string, certainty: Certainty, prefix: string): seq<Evidence>
    decreases |msgs|
  {
    if msgs == [] then []
    else
      var last := msgs[|msgs| - 1];
      Indications(msgs[..|msgs| - 1], search, certainty, prefix) +
      (if Contains(last, search) then [Evidence(certainty, prefix + last + "\"")] else [])
  }

  /** `__analyze_rendered_page_output`: without a search nothing is found;
      without a page the first lookup raises TypeError; otherwise alerts
      are CERTAIN, execution errors and console messages PROBABLE. Prompts
      and confirms are not looked at. */
  function Analyze(page: Option<RenderedPage>, search: Option<string>): Result<seq<Evidence>>
  {
    if search.None? then Ok([])
    else if page.None? then Err(TypeError)
    else
      var p := page.value;
      Ok(Indications(p.alerts, search.value, Certain, AlertPrefix) +
         Indications(p.errors, search.value, Probable, ErrorPrefix) +
         Indications(p.consoleMessages, search.value, Probable, ConsolePrefix))
  }

  /** The positions of the messages that contain `search`, in increasing
      order. */
  function Hits(msgs: seq<string>, search: string): (h: seq<nat>)
    ensures forall j | 0 <= j < |h| :: h[j] < |msgs|
  {
    if msgs == [] then []
    else Hits(msgs[..|msgs| - 1], search) + (if Contains(msgs[|msgs| - 1], search) then [|msgs| - 1] else [])
  }

  /** The hits are exactly the messages containing the search, each once and
      in message order, and there are `NumContaining` of them. */
  lemma HitsSpec(msgs: seq<string>, search: string)
    ensures |Hits(msgs, search)| == ReflectionSpec.NumContaining(msgs, search)
    ensures forall j, j' | 0 <= j < j' < |Hits(msgs, search)| :: Hits(msgs, search)[j] < Hits(msgs, search)[j']
    ensures forall k | 0 <= k < |msgs| :: Contains(msgs[k], search) <==> k in Hits(msgs, search)
  {
    HitsCount(msgs, search);
    HitsIncreasing(msgs, search);
    HitsExactly(msgs, search);
  }

  /** One hit per message that contains the search. */
  lemma {:induction false} HitsCount(msgs: seq<string>, search: string)
    ensures |Hits(msgs, search)| == ReflectionSpec.NumContaining(msgs, search)
    decreases |msgs|
  {
    if msgs != [] {
      HitsCount(msgs[..|msgs| - 1], search);
    }
  }

  /** The hits come in message order, each once. */
  lemma {:induction false} HitsIncreasing(msgs: seq<string>, search: string)
    ensures forall j, j' | 0 <= j < j' < |Hits(msgs, search)| :: Hits(msgs, search)[j] < Hits(msgs, search)[j']
    decreases |msgs|
  {
    if msgs != [] {
      var n := |msgs| - 1;
      var prev := Hits(msgs[..n], search);
      HitsIncreasing(msgs[..n], search);
      if Contains(msgs[n], search) {
        assert Hits(msgs, search) == prev + [n];
      } else {
        assert Hits(msgs, search) == prev;
      }
    }
  }

  /** A message is a hit exactly when it contains the search. */
  lemma {:induction false} HitsExactly(msgs: seq<string>, search: string)
    ensures forall k | 0 <= k < |msgs| :: Contains(msgs[k], search) <==> k in Hits(msgs, search)
    decreases |msgs|
  {
    if msgs != [] {
      var n := |msgs| - 1;
      var init := msgs[..n];
      var prev := Hits(init, search);
      HitsExactly(init, search);
      assert forall k | 0 <= k < n :: init[k] == msgs[k];
      assert n !in prev;
      if Contains(msgs[n], search) {
        assert Hits(msgs, search) == prev + [n];
      } else {
        assert Hits(msgs, search) == prev;
      }
    }
  }

  /** The results quote the messages that contain the trigger, one result
      per such message and in message order, each after the prefix and
      with the given certainty. */
  lemma {:induction false} IndicationsSpec(msgs: seq<string>, search: string, certainty: Certainty, prefix: string)
    ensures |Indications(msgs, search, certainty, prefix)| == |Hits(msgs, search)|
    ensures forall i | 0 <= i < |Hits(msgs, search)| ::
      Indications(msgs, search, certainty, prefix)[i] ==
        Evidence(certainty, prefix + msgs[Hits(msgs, search)[i]] + "\"")
    decreases |msgs|
  {
    if msgs != [] {
      var n := |msgs| - 1;
      var init := msgs[..n];
      IndicationsSpec(init, search, certainty, prefix);
      assert forall k | 0 <= k < n :: init[k] == msgs[k];
    }
  }

  /** The analysis of a page for a trigger: first one CERTAIN result per
      alert that contains the trigger, then one PROBABLE result per such
      execution error, then one per such console message, each list in its
      own order and each result quoting its message; without a search
      there are none, and a missing page raises TypeError. */
  lemma AnalyzeSpec(page: RenderedPage, search: string)
    ensures Analyze(None, None) == Ok([]) && Analyze(Some(page), None) == Ok([])
    ensures Analyze(None, Some(search)) == Err(TypeError)
    ensures Analyze(Some(page), Some(search)).Ok?
    ensures var es := Analyze(Some(page), Some(search)).value;
      var a := Hits(page.alerts, search);
      var e := Hits(page.errors, search);
      var c := Hits(page.consoleMessages, search);
      |es| == |a| + |e| + |c| &&
      (forall i | 0 <= i < |a| :: es[i] == Evidence(Certain, AlertPrefix + page.alerts[a[i]] + "\"")) &&
      (forall i | 0 <= i < |e| :: es[|a| + i] == Evidence(Probable, ErrorPrefix + page.errors[e[i]] + "\"")) &&
      (forall i | 0 <= i < |c| ::
        es[|a| + |e| + i] == Evidence(Probable, ConsolePrefix + page.consoleMessages[c[i]] + "\""))
    ensures var es := Analyze(Some(page), Some(search)).value;
      |es| == ReflectionSpec.NumContaining(page.alerts, search) + ReflectionSpec.NumContaining(page.errors, search) +
              ReflectionSpec.NumContaining(page.consoleMessages, search) &&
      forall i | 0 <= i < |es| :: (es[i].certainty == Certain <==> i < ReflectionSpec.NumContaining(page.alerts, search))
  {
    IndicationsSpec(page.alerts, search, Certain, AlertPrefix);
    IndicationsSpec(page.errors, search, Probable, ErrorPrefix);
    IndicationsSpec(page.consoleMessages, search, Probable, ConsolePrefix);
    HitsSpec(page.alerts, search);
    HitsSpec(page.errors, search);
    HitsSpec(page.consoleMessages, search);
  }

  // ---------------------------------------------------------------------
  // The attack request

  /** One `name=value` piece of an attack request: every parameter with
      the name under test carries the attack, the others their own value. */
  function AttackPair(p: Param, name: string, attack: string): string
  {
    p.name + "=" + (if p.name == name then attack else p.value)
  }

  function AttackPairs(ps: seq<Param>, name: string, attack: string): (pairs: seq<string>)
    ensures |pairs| == |ps| && forall k | 0 <= k < |ps| :: pairs[k] == AttackPair(ps[k], name, attack)
  {
    seq(|ps|, k requires 0 <= k < |ps| => AttackPair(ps[k], name, attack))
  }

  /** `render_GET_page`'s URL: the root, `?`, then every pair with nothing
      between them, less one trailing `&`; a missing root raises TypeError. */
  function GetAttackUrl(root: Option<string>, name: string, attack: string, all: seq<Param>): Result<string>
  {
    if root.None? then Err(TypeError)
    else Ok(TrimLast(root.value + "?" + Concat(AttackPairs(all, name, attack)), '&'))
  }

  /** The pairs of an attack request that holds no `&` in its names, values
      or attack hold no `&` either, and the last one holds an `=`. */
  lemma AttackPairsFree(all: seq<Param>, name: string, attack: string)
    requires |all| >= 1
    requires '&' !in attack && forall k | 0 <= k < |all| :: '&' !in all[k].name && '&' !in all[k].value
    ensures '&' !in Concat(AttackPairs(all, name, attack))
    ensures '=' in Concat(AttackPairs(all, name, attack))
  {
    var pairs := AttackPairs(all, name, attack);
    ConcatFree(pairs, '&');
    var last := pairs[|pairs| - 1];
    assert last[|all[|all| - 1].name|] == '=';
    assert Concat(pairs) == Concat(pairs[..|pairs| - 1]) + last;
    assert Concat(pairs)[|Concat(pairs[..|pairs| - 1])| + |all[|all| - 1].name|] == '=';
  }

  /** As written, nothing separates the pairs of the GET attack URL, so the
      target parses its query as a single parameter, however many the
      request was meant to carry. */
  lemma GetAttackUrlFusesParams(root: string, name: string, attack: string, all: seq<Param>)
    requires '?' !in root && |all| >= 2
    requires '&' !in attack && forall k | 0 <= k < |all| :: '&' !in all[k].name && '&' !in all[k].value
    ensures GetAttackUrl(Some(root), name, attack, all).Ok?
    ensures var url := GetAttackUrl(Some(root), name, attack, all).value;
      RequestVariableProbe.ProbedParams(url, None).Ok? &&
      |RequestVariableProbe.ProbedParams(url, None).value| == 1 < |all|
  {
    var q := Concat(AttackPairs(all, name, attack));
    AttackPairsFree(all, name, attack);
    var u := root + "?" + q;
    assert u == root + ['?'] + q;
    assert u[|u| - 1] == q[|q| - 1];
    assert GetAttackUrl(Some(root), name, attack, all) == Ok(u);
    SplitOnceOf(root, q, '?');
    assert RequestVariableProbe.UrlQuery(u) == Ok(q);
    SplitAbsent(q, '&');
    RequestVariableProbe.ParsePiecesSpec([q], Url);
  }

  /** The GET attack URL as evidently intended: the pairs joined with `&`. */
  function GetAttackUrlJoined(root: Option<string>, name: string, attack: string, all: seq<Param>): Result<string>
  {
    if root.None? then Err(TypeError)
    else Ok(root.value + "?" + Join(AttackPairs(all, name, attack), '&'))
  }

  /** The parameters an attack request is meant to deliver: every one with
      its own name, those under test with the attack as their value. */
  function Sent(all: seq<Param>, name: string, attack: string): (ps: seq<Param>)
    ensures |ps| == |all|
  {
    seq(|all|, k requires 0 <= k < |all| =>
      Param(Some(Url), all[k].name, if all[k].name == name then attack else all[k].value, None, []))
  }

  /** With the pairs joined by `&`, the target parses the attack URL back
      into exactly the parameters meant, the one under test carrying the
      attack. */
  lemma GetAttackUrlJoinedRoundTrip(root: string, name: string, attack: string, all: seq<Param>)
    requires '?' !in root && |all| >= 1
    requires '&' !in attack
    requires forall k | 0 <= k < |all| :: '=' !in all[k].name && '&' !in all[k].name && '&' !in all[k].value
    ensures GetAttackUrlJoined(Some(root), name, attack, all).Ok?
    ensures RequestVariableProbe.ProbedParams(GetAttackUrlJoined(Some(root), name, attack, all).value, None)
         == Ok(Sent(all, name, attack))
  {
    var sent := Sent(all, name, attack);
    var pairs := AttackPairs(all, name, attack);
    assert RequestVariableProbe.PairsOf(sent) == pairs;
    RequestVariableProbe.ParseParamsOfJoin(sent, Url);
    var q := Join(pairs, '&');
    var u := root + "?" + q;
    assert u == root + ['?'] + q;
    SplitOnceOf(root, q, '?');
    assert RequestVariableProbe.UrlQuery(u) == Ok(q);
  }

  /** The two lists `render_POST_page` sorts the parameters into. */
  datatype Partitioned = Partitioned(url: seq<Param>, body: seq<Param>)

  /** The sorting loop: a parameter without a delivery tag raises KeyError,
      one with an unrecognised tag is dropped. */
  function PartitionByDelivery(ps: seq<Param>): Result<Partitioned>
    decreases |ps|
  {
    if ps == [] then Ok(Partitioned([], []))
    else
      match PartitionByDelivery(ps[..|ps| - 1])
      case Err(e) => Err(e)
      case Ok(acc) =>
        var p := ps[|ps| - 1];
        match p.delivery
        case None => Err(KeyError("delivery"))
        case Some(Url) => Ok(acc.(url := acc.url + [p]))
        case Some(Body) => Ok(acc.(body := acc.body + [p]))
        case Some(Unrecognized(_)) => Ok(acc)
  }

  /** The attack URL of a POST: the root, then `?` and the URL pairs when
      there are any, less one trailing `&`. A missing root raises TypeError
      (on `+=` or on `[-1]`), an empty one without URL pairs IndexError. */
  function PostAttackUrl(root: Option<string>, urlParams: seq<Param>, name: string, attack: string): Result<string>
  {
    if root.None? then Err(TypeError)
    else
      var u := if urlParams == [] then root.value else root.value + "?" + Concat(AttackPairs(urlParams, name, attack));
      if u == [] then Err(IndexError) else Ok(TrimLast(u, '&'))
  }

  /** The attack body of a POST: the body pairs, less one trailing `&`. */
  function PostAttackBody(bodyParams: seq<Param>, name: string, attack: string): string
  {
    TrimLast(Concat(AttackPairs(bodyParams, name, attack)), '&')
  }

  /** `render_POST_page`'s URL and body, or the error raised building them. */
  function PostAttackRequest(root: Option<string>, all: seq<Param>, name: string, attack: string): Result<(string, string)>
  {
    match PartitionByDelivery(all)
    case Err(e) => Err(e)
    case Ok(parts) =>
      match PostAttackUrl(root, parts.url, name, attack)
      case Err(e) => Err(e)
      case Ok(u) => Ok((u, PostAttackBody(parts.body, name, attack)))
  }

  /** The parameters tagged with delivery `d`, in their order in `ps`. */
  function Tagged(ps: seq<Param>, d: Delivery): seq<Param>
  {
    if ps == [] then [] else (if ps[0].delivery == Some(d) then [ps[0]] else []) + Tagged(ps[1..], d)
  }

  /** Adding a parameter at the end adds it at the end of its own list. */
  lemma {:induction false} TaggedSnoc(ps: seq<Param>, p: Param, d: Delivery)
    ensures Tagged(ps + [p], d) == Tagged(ps, d) + (if p.delivery == Some(d) then [p] else [])
    decreases |ps|
  {
    if ps != [] {
      TaggedSnoc(ps[1..], p, d);
      assert (ps + [p])[1..] == ps[1..] + [p];
    } else {
      assert Tagged([p][1..], d) == [];
    }
  }

  /** The sorting loop succeeds exactly when every parameter has a delivery
      tag, and then the URL list is the `url` parameters and the body list
      the `body` parameters, each in the input's order. */
  lemma {:induction false} PartitionSpec(ps: seq<Param>)
    ensures PartitionByDelivery(ps).Ok? <==> forall k | 0 <= k < |ps| :: ps[k].delivery.Some?
    ensures PartitionByDelivery(ps).Err? ==> PartitionByDelivery(ps).error == KeyError("delivery")
    ensures PartitionByDelivery(ps).Ok? ==>
      PartitionByDelivery(ps).value == Partitioned(Tagged(ps, Url), Tagged(ps, Body))
    ensures PartitionByDelivery(ps).Ok? ==>
      var parts := PartitionByDelivery(ps).value;
      (forall p :: p in parts.url <==> p in ps && p.delivery == Some(Url)) &&
      (forall p :: p in parts.body <==> p in ps && p.delivery == Some(Body))
    decreases |ps|
  {
    if ps != [] {
      var init := ps[..|ps| - 1];
      PartitionSpec(init);
      assert ps == init + [ps[|ps| - 1]];
      assert forall k | 0 <= k < |init| :: init[k] == ps[k];
      TaggedSnoc(init, ps[|ps| - 1], Url);
      TaggedSnoc(init, ps[|ps| - 1], Body);
    }
  }

  /** The errors of a POST attack request, in the order the source meets
      them: a parameter without a delivery tag, a missing root, an empty
      root with no URL parameter. */
  lemma PostAttackRequestErrors(root: Option<string>, all: seq<Param>, name: string, attack: string)
    ensures (exists k | 0 <= k < |all| :: all[k].delivery.None?) ==>
      PostAttackRequest(root, all, name, attack) == Err(KeyError("delivery"))
    ensures (forall k | 0 <= k < |all| :: all[k].delivery.Some?) ==>
      (root.None? <==> PostAttackRequest(root, all, name, attack) == Err(TypeError))
    ensures (forall k | 0 <= k < |all| :: all[k].delivery != Some(Url) && all[k].delivery.Some?) ==>
      (root == Some("") <==> PostAttackRequest(root, all, name, attack) == Err(IndexError))
  {
    PartitionSpec(all);
    if forall k | 0 <= k < |all| :: all[k].delivery != Some(Url) && all[k].delivery.Some? {
      PartitionWithoutUrl(all);
    }
  }

  /** Without `url` parameters the URL part of the partition is empty. */
  lemma {:induction false} PartitionWithoutUrl(ps: seq<Param>)
    requires forall k | 0 <= k < |ps| :: ps[k].delivery != Some(Url) && ps[k].delivery.Some?
    ensures PartitionByDelivery(ps).Ok? && PartitionByDelivery(ps).value.url == []
    decreases |ps|
  {
    if ps != [] {
      var init := ps[..|ps| - 1];
      assert forall k | 0 <= k < |init| :: init[k] == ps[k];
      PartitionWithoutUrl(init);
    }
  }

  // ---------------------------------------------------------------------
  // A whole run

  /** One result dictionary as `run` returns it. */
  datatype Finding = Finding(
    certainty: Certainty,
    message: string,
    parameter: string,
    deliver: Delivery,
    attack: string)

  /** What `run` reads: the scanner's target and parameter lists, the
      random source, the render service and the payload catalogue. */
  datatype ScanConfig = ScanConfig(
    targetUrl: Option<string>,
    targetType: Option<RequestType>,
    reflected: seq<Param>,
    other: seq<Param>,
    random: RandomSource,
    render: Renderer,
    catalog: seq<Payload>)

  /** What `run` changes as it goes: the findings so far, the index of the
      next draw, and the scanner's headers. */
  datatype ScanState = ScanState(findings: seq<Finding>, draws: nat, headers: map<string, string>)

  const ContentTypeHeader: string := "Content-Type"
  const FormEncoded: string := "application/x-www-form-urlencoded"

  /** The page rendered for one attack and the headers afterwards: a GET or
      POST target builds its request (a POST also sets the form content
      type on the scanner's headers), any other target renders nothing. */
  function AttackPage(cfg: ScanConfig, name: string, attack: string, headers: map<string, string>)
    : Result<(Option<RenderedPage>, map<string, string>)>
  {
    var all := cfg.reflected + cfg.other;
    match cfg.targetType
    case Some(GET) =>
      (match GetAttackUrl(cfg.targetUrl, name, attack, all)
       case Err(e) => Err(e)
       case Ok(u) => Ok((Some(cfg.render(RenderRequest(Some(GET), Some(u), None, headers, true))), headers)))
    case Some(POST) =>
      (match PostAttackRequest(cfg.targetUrl, all, name, attack)
       case Err(e) => Err(e)
       case Ok((u, b)) =>
         var h := headers[ContentTypeHeader := FormEncoded];
         Ok((Some(cfg.render(RenderRequest(Some(POST), Some(u), Some(b), h, true))), h)))
    case None => Ok((None, headers))
  }

  /** The loop over one analysis's results: each becomes a finding for the
      parameter under test; reading the delivery tag of a parameter that
      has none raises KeyError at the first result. */
  function FindingsOf(es: seq<Evidence>, param: Param, attack: string): Result<seq<Finding>>
  {
    if es == [] then Ok([])
    else if param.delivery.None? then Err(KeyError("delivery"))
    else Ok(seq(|es|, i requires 0 <= i < |es| =>
      Finding(es[i].certainty, es[i].message, param.name, param.delivery.value, attack)))
  }

  /** One payload tried against one reflected parameter: draw a trigger,
      substitute it, render, analyse, record. */
  function Attempt(cfg: ScanConfig, param: Param, payload: Payload, st: ScanState): Result<ScanState>
  {
    var trigger := ScanTrigger(cfg.random, st.draws);
    var attack := Attack(payload, trigger);
    match AttackPage(cfg, param.name, attack, st.headers)
    case Err(e) => Err(e)
    case Ok((page, headers)) =>
      match Analyze(page, Some(trigger))
      case Err(e) => Err(e)
      case Ok(es) =>
        match FindingsOf(es, param, attack)
        case Err(e) => Err(e)
        case Ok(fs) => Ok(ScanState(st.findings + fs, st.draws + 1, headers))
  }

  /** The payloads of `plan` tried in turn, stopping at the first error. */
  function Attempts(cfg: ScanConfig, param: Param, plan: seq<Payload>, st0: ScanState): Result<ScanState>
    decreases |plan|
  {
    if plan == [] then Ok(st0)
    else
      match Attempts(cfg, param, plan[..|plan| - 1], st0)
      case Err(e) => Err(e)
      case Ok(st) => Attempt(cfg, param, plan[|plan| - 1], st)
  }

  /** The first `n` reflected parameters attacked in turn. */
  function ScanParams(cfg: ScanConfig, n: nat, st0: ScanState): Result<ScanState>
    requires n <= |cfg.reflected|
    decreases n
  {
    if n == 0 then Ok(st0)
    else
      match ScanParams(cfg, n - 1, st0)
      case Err(e) => Err(e)
      case Ok(st) => Attempts(cfg, cfg.reflected[n - 1], PlanIn(cfg.reflected[n - 1].contexts, cfg.catalog), st)
  }

  /** `run`, from draw `start` with the scanner's headers `headers`. */
  function Scan(cfg: ScanConfig, start: nat, headers: map<string, string>): Result<ScanState>
  {
    ScanParams(cfg, |cfg.reflected|, ScanState([], start, headers))
  }

  /** How many payloads the first `n` reflected parameters are attacked with. */
  function Tried(ps: seq<Param>, catalog: seq<Payload>, n: nat): nat
    requires n <= |ps|
  {
    if n == 0 then 0 else Tried(ps, catalog, n - 1) + |PlanIn(ps[n - 1].contexts, catalog)|
  }

  /** `attack` calls `alert` with the trigger of draw `d`. */
  ghost predicate Alerts(cfg: ScanConfig, attack: string, d: nat)
  {
    Contains(attack, "alert(" + ScanTrigger(cfg.random, d) + ")")
  }

  /** A finding for `param`: it names the parameter and its delivery tag,
      and its attack calls `alert` with a drawn trigger. */
  ghost predicate Carries(cfg: ScanConfig, param: Param, f: Finding)
  {
    f.parameter == param.name && Some(f.deliver) == param.delivery &&
    exists d: nat :: Alerts(cfg, f.attack, d)
  }

  /** A finding the run can stand behind: it is a finding for one of the
      reflected parameters. */
  ghost predicate Sound(cfg: ScanConfig, f: Finding)
  {
    exists k {:trigger Carries(cfg, cfg.reflected[k], f)} | 0 <= k < |cfg.reflected| :: Carries(cfg, cfg.reflected[k], f)
  }

  /** One attempt uses one draw, keeps the earlier findings and adds one
      finding per result of the analysis of the attacked page, with that
      result's certainty and message, for the parameter under test, with
      the attack built from this draw (which, for a catalogue payload,
      calls `alert` with the trigger); an attempt against a target that is
      neither GET nor POST raises TypeError, and any result for a parameter
      without a delivery tag raises KeyError. */
  lemma AttemptSpec(cfg: ScanConfig, param: Param, payload: Payload, st: ScanState)
    ensures cfg.targetType.None? ==> Attempt(cfg, param, payload, st) == Err(TypeError)
    ensures Attempt(cfg, param, payload, st).Ok? ==>
      var st' := Attempt(cfg, param, payload, st).value;
      st'.draws == st.draws + 1 && |st.findings| <= |st'.findings| &&
      st'.findings[..|st.findings|] == st.findings &&
      (param.delivery.None? ==> st'.findings == st.findings) &&
      forall i | |st.findings| <= i < |st'.findings| ::
        st'.findings[i].parameter == param.name && Some(st'.findings[i].deliver) == param.delivery &&
        st'.findings[i].attack == Attack(payload, ScanTrigger(cfg.random, st.draws))
    ensures Attempt(cfg, param, payload, st).Ok? ==>
      var trigger := ScanTrigger(cfg.random, st.draws);
      var page := AttackPage(cfg, param.name, Attack(payload, trigger), st.headers);
      var st' := Attempt(cfg, param, payload, st).value;
      page.Ok? && page.value.0.Some? && st'.headers == page.value.1 &&
      var es := Analyze(page.value.0, Some(trigger)).value;
      |st'.findings| == |st.findings| + |es| &&
      forall i | 0 <= i < |es| ::
        st'.findings[|st.findings| + i].certainty == es[i].certainty &&
        st'.findings[|st.findings| + i].message == es[i].message
  {
    if Attempt(cfg, param, payload, st).Ok? {
      var st' := Attempt(cfg, param, payload, st).value;
      assert st'.findings[..|st.findings|] == st.findings;
    }
  }

  /** The report of `page` for trigger `t`: one CERTAIN finding per alert
      that contains the trigger, then one PROBABLE finding per such
      execution error and per such console message, each quoting its
      message after the prefix of its list. */
  ghost predicate Reports(fs: seq<Finding>, page: RenderedPage, t: string)
  {
    var a := Hits(page.alerts, t);
    var e := Hits(page.errors, t);
    var c := Hits(page.consoleMessages, t);
    |fs| == |a| + |e| + |c| &&
    (forall k | 0 <= k < |a| ::
      fs[k].certainty == Certain && fs[k].message == AlertPrefix + page.alerts[a[k]] + "\"") &&
    (forall k | |a| <= k < |a| + |e| ::
      fs[k].certainty == Probable && fs[k].message == ErrorPrefix + page.errors[e[k - |a|]] + "\"") &&
    (forall k | |a| + |e| <= k < |fs| ::
      fs[k].certainty == Probable && fs[k].message == ConsolePrefix + page.consoleMessages[c[k - |a| - |e|]] + "\"")
  }

  /** Findings that copy the certainty and message of the analysis of
      `page` for `t`, one for one, are the page's report. */
  lemma CopiesReport(fs: seq<Finding>, page: RenderedPage, t: string)
    requires var es := Analyze(Some(page), Some(t)).value;
      |fs| == |es| && forall i | 0 <= i < |es| :: fs[i].certainty == es[i].certainty && fs[i].message == es[i].message
    ensures Reports(fs, page, t)
  {
    AnalyzeSpec(page, t);
    var es := Analyze(Some(page), Some(t)).value;
    var a := Hits(page.alerts, t);
    var e := Hits(page.errors, t);
    var c := Hits(page.consoleMessages, t);
    assert forall i | 0 <= i < |a| :: es[0 + i] == es[i];
    CopiesBlock(fs, es, 0, page.alerts, a, Certain, AlertPrefix);
    CopiesBlock(fs, es, |a|, page.errors, e, Probable, ErrorPrefix);
    CopiesBlock(fs, es, |a| + |e|, page.consoleMessages, c, Probable, ConsolePrefix);
  }

  /** One block of the report: the evidence at `lo` on quotes the lines
      picked by `hits`, and the findings copy it. */
  lemma CopiesBlock(fs: seq<Finding>, es: seq<Evidence>, lo: nat, lines: seq<string>, hits: seq<nat>,
                    certainty: Certainty, prefix: string)
    requires |fs| == |es| && lo + |hits| <= |es|
    requires forall i | 0 <= i < |es| :: fs[i].certainty == es[i].certainty && fs[i].message == es[i].message
    requires forall i | 0 <= i < |hits| :: hits[i] < |lines|
    requires forall i | 0 <= i < |hits| :: es[lo + i] == Evidence(certainty, prefix + lines[hits[i]] + "\"")
    ensures forall k | lo <= k < lo + |hits| ::
      fs[k].certainty == certainty && fs[k].message == prefix + lines[hits[k - lo]] + "\""
  {
    forall k | lo <= k < lo + |hits|
      ensures fs[k].certainty == certainty && fs[k].message == prefix + lines[hits[k - lo]] + "\""
    {
      var i := k - lo;
      assert es[lo + i] == Evidence(certainty, prefix + lines[hits[i]] + "\"");
    }
  }

  /** What one successful attempt adds is the report of the page its
      attack rendered, and nothing else. */
  lemma AttemptReports(cfg: ScanConfig, param: Param, payload: Payload, st: ScanState, st': ScanState, page: RenderedPage)
    requires Attempt(cfg, param, payload, st) == Ok(st')
    requires AttackPage(cfg, param.name, Attack(payload, ScanTrigger(cfg.random, st.draws)), st.headers).Ok?
    requires AttackPage(cfg, param.name, Attack(payload, ScanTrigger(cfg.random, st.draws)), st.headers).value.0 == Some(page)
    ensures |st.findings| <= |st'.findings|
    ensures Reports(st'.findings[|st.findings|..], page, ScanTrigger(cfg.random, st.draws))
  {
    AttemptSpec(cfg, param, payload, st);
    CopiesReport(st'.findings[|st.findings|..], page, ScanTrigger(cfg.random, st.draws));
  }

  /** For a verifying payload, every finding an attempt adds is a finding
      for the parameter under test. */
  lemma AttemptCarries(cfg: ScanConfig, param: Param, payload: Payload, st: ScanState)
    requires Verifying(payload)
    ensures Attempt(cfg, param, payload, st).Ok? ==>
      var st' := Attempt(cfg, param, payload, st).value;
      forall i | |st.findings| <= i < |st'.findings| :: Carries(cfg, param, st'.findings[i])
  {
    AttemptSpec(cfg, param, payload, st);
    var trigger := ScanTrigger(cfg.random, st.draws);
    ScanTriggerDigits(cfg.random, st.draws);
    assert AttackAlerts(payload, trigger);
    assert Alerts(cfg, Attack(payload, trigger), st.draws);
  }

  /** A GET attempt with a root, for a parameter with a delivery tag, never
      raises. */
  lemma AttemptGetSucceeds(cfg: ScanConfig, param: Param, payload: Payload, st: ScanState)
    requires cfg.targetType == Some(GET) && cfg.targetUrl.Some? && param.delivery.Some?
    ensures Attempt(cfg, param, payload, st).Ok?
  {
  }

  /** A plan of `m` payloads uses `m` draws and keeps the earlier findings. */
  lemma {:induction false} AttemptsDraws(cfg: ScanConfig, param: Param, plan: seq<Payload>, st0: ScanState)
    ensures Attempts(cfg, param, plan, st0).Ok? ==>
      var st := Attempts(cfg, param, plan, st0).value;
      st.draws == st0.draws + |plan| && |st0.findings| <= |st.findings| &&
      st.findings[..|st0.findings|] == st0.findings
    decreases |plan|
  {
    if plan != [] && Attempts(cfg, param, plan, st0).Ok? {
      var init := plan[..|plan| - 1];
      AttemptsDraws(cfg, param, init, st0);
      var mid := Attempts(cfg, param, init, st0).value;
      AttemptSpec(cfg, param, plan[|plan| - 1], mid);
      var st := Attempts(cfg, param, plan, st0).value;
      assert st.findings[..|st0.findings|] == mid.findings[..|st0.findings|];
    }
  }

  /** Every finding a plan of verifying payloads adds is a finding for the
      parameter under test. */
  lemma {:induction false} AttemptsCarry(cfg: ScanConfig, param: Param, plan: seq<Payload>, st0: ScanState)
    requires forall j | 0 <= j < |plan| :: Verifying(plan[j])
    ensures Attempts(cfg, param, plan, st0).Ok? ==>
      var st := Attempts(cfg, param, plan, st0).value;
      |st0.findings| <= |st.findings| &&
      forall i | |st0.findings| <= i < |st.findings| :: Carries(cfg, param, st.findings[i])
    decreases |plan|
  {
    if plan != [] && Attempts(cfg, param, plan, st0).Ok? {
      var init := plan[..|plan| - 1];
      AttemptsCarry(cfg, param, init, st0);
      var mid := Attempts(cfg, param, init, st0).value;
      AttemptSpec(cfg, param, plan[|plan| - 1], mid);
      AttemptCarries(cfg, param, plan[|plan| - 1], mid);
      var st := Attempts(cfg, param, plan, st0).value;
      forall i | |st0.findings| <= i < |mid.findings|
        ensures Carries(cfg, param, st.findings[i])
      {
        assert st.findings[i] == st.findings[..|mid.findings|][i];
      }
    }
  }

  /** Every payload a reflected parameter is attacked with is a verifying
      catalogue payload. */
  lemma PlanVerifying(contexts: seq<ContextKind>)
    ensures forall j | 0 <= j < |Plan(contexts)| :: Verifying(Plan(contexts)[j])
  {
    CatalogVerifying();
    PlanInVerifying(contexts, Catalog());
  }

  /** Every payload of `catalog` verifies. */
  ghost predicate VerifyingCatalog(catalog: seq<Payload>)
  {
    forall i | 0 <= i < |catalog| :: Verifying(catalog[i])
  }

  /** The scanner's catalogue is one of verifying payloads. */
  lemma CatalogVerifying()
    ensures VerifyingCatalog(Catalog())
  {
    CatalogScripts();
  }

  /** A plan drawn from a catalogue of verifying payloads holds only
      verifying payloads. */
  lemma PlanInVerifying(contexts: seq<ContextKind>, catalog: seq<Payload>)
    requires VerifyingCatalog(catalog)
    ensures forall j | 0 <= j < |PlanIn(contexts, catalog)| :: Verifying(PlanIn(contexts, catalog)[j])
  {
    var cands := Candidates(contexts, catalog);
    DedupSpec(cands);
    forall j | 0 <= j < |PlanIn(contexts, catalog)| ensures Verifying(PlanIn(contexts, catalog)[j]) {
      CandidatesSpec(contexts, catalog, PlanIn(contexts, catalog)[j]);
    }
  }

  /** The first `n` parameters use one draw per payload tried and keep the
      earlier findings. */
  lemma {:induction false} ScanParamsDraws(cfg: ScanConfig, n: nat, st0: ScanState)
    requires n <= |cfg.reflected|
    ensures ScanParams(cfg, n, st0).Ok? ==>
      var st := ScanParams(cfg, n, st0).value;
      st.draws == st0.draws + Tried(cfg.reflected, cfg.catalog, n) && |st0.findings| <= |st.findings| &&
      st.findings[..|st0.findings|] == st0.findings
    decreases n
  {
    if n > 0 && ScanParams(cfg, n, st0).Ok? {
      ScanParamsDraws(cfg, n - 1, st0);
      var mid := ScanParams(cfg, n - 1, st0).value;
      AttemptsDraws(cfg, cfg.reflected[n - 1], PlanIn(cfg.reflected[n - 1].contexts, cfg.catalog), mid);
      var st := ScanParams(cfg, n, st0).value;
      assert st.findings[..|st0.findings|] == mid.findings[..|st0.findings|];
    }
  }

  /** Every finding of `fs` from index `lo` on is sound, one finding at a
      time from the end (SoundFromAll states it for all indices at once). */
  ghost predicate SoundFrom(cfg: ScanConfig, fs: seq<Finding>, lo: nat)
    decreases |fs|
  {
    |fs| <= lo || (SoundFrom(cfg, fs[..|fs| - 1], lo) && Sound(cfg, fs[|fs| - 1]))
  }

  /** SoundFrom holds exactly when every finding from `lo` on is sound. */
  lemma {:induction false} SoundFromAll(cfg: ScanConfig, fs: seq<Finding>, lo: nat)
    ensures SoundFrom(cfg, fs, lo) <==> forall i | lo <= i < |fs| :: Sound(cfg, fs[i])
    decreases |fs|
  {
    if |fs| > lo {
      var init := fs[..|fs| - 1];
      SoundFromAll(cfg, init, lo);
      assert forall i | lo <= i < |init| :: init[i] == fs[i];
    }
  }

  /** Every finding the plan of a reflected parameter adds is sound, when
      the catalogue's payloads all verify. */
  lemma ParamSound(cfg: ScanConfig, k: nat, param: Param, st0: ScanState, st: ScanState)
    requires k < |cfg.reflected| && cfg.reflected[k] == param && VerifyingCatalog(cfg.catalog)
    requires Attempts(cfg, param, PlanIn(param.contexts, cfg.catalog), st0) == Ok(st)
    ensures |st0.findings| <= |st.findings| && SoundFrom(cfg, st.findings, |st0.findings|)
  {
    var plan := PlanIn(param.contexts, cfg.catalog);
    PlanInVerifying(param.contexts, cfg.catalog);
    AttemptsCarry(cfg, param, plan, st0);
    forall i | |st0.findings| <= i < |st.findings|
      ensures Sound(cfg, st.findings[i])
    {
      assert Carries(cfg, cfg.reflected[k], st.findings[i]);
    }
    SoundFromAll(cfg, st.findings, |st0.findings|);
  }

  /** Sound findings from `lo` on, extended by sound findings, stay sound
      from `lo` on. */
  lemma SoundFromExtend(cfg: ScanConfig, prefix: seq<Finding>, fs: seq<Finding>, lo: nat)
    requires |prefix| <= |fs| && fs[..|prefix|] == prefix
    requires SoundFrom(cfg, prefix, lo) && SoundFrom(cfg, fs, |prefix|)
    ensures SoundFrom(cfg, fs, lo)
  {
    SoundFromAll(cfg, prefix, lo);
    SoundFromAll(cfg, fs, |prefix|);
    forall i | lo <= i < |prefix| ensures Sound(cfg, fs[i]) {
      assert fs[i] == fs[..|prefix|][i];
    }
    SoundFromAll(cfg, fs, lo);
  }

  /** A run that went through left only sound findings from `lo` on. */
  ghost predicate SoundRun(cfg: ScanConfig, res: Result<ScanState>, lo: nat)
  {
    res.Ok? ==> lo <= |res.value.findings| && SoundFrom(cfg, res.value.findings, lo)
  }

  /** Every finding the first `n` parameters add is sound. */
  lemma {:induction false} ScanParamsSound(cfg: ScanConfig, n: nat, st0: ScanState)
    requires n <= |cfg.reflected| && VerifyingCatalog(cfg.catalog)
    ensures SoundRun(cfg, ScanParams(cfg, n, st0), |st0.findings|)
    decreases n
  {
    if n > 0 && ScanParams(cfg, n, st0).Ok? {
      ScanParamsSound(cfg, n - 1, st0);
      AttemptsSound(cfg, n - 1, ScanParams(cfg, n - 1, st0), ScanParams(cfg, n, st0), |st0.findings|);
    }
  }

  /** The attempts of the `k`-th parameter, started from the run `prev`
      and ending in `res`, keep the findings from `lo` on sound. */
  lemma AttemptsSound(cfg: ScanConfig, k: nat, prev: Result<ScanState>, res: Result<ScanState>, lo: nat)
    requires k < |cfg.reflected| && VerifyingCatalog(cfg.catalog)
    requires prev.Ok? && SoundRun(cfg, prev, lo)
    requires res == Attempts(cfg, cfg.reflected[k], PlanIn(cfg.reflected[k].contexts, cfg.catalog), prev.value)
    ensures SoundRun(cfg, res, lo)
  {
    if res.Ok? {
      var param, mid := cfg.reflected[k], prev.value;
      AttemptsDraws(cfg, param, PlanIn(param.contexts, cfg.catalog), mid);
      ParamSound(cfg, k, param, mid, res.value);
      SoundFromExtend(cfg, mid.findings, res.value.findings, lo);
    }
  }

  /** What a whole run over a catalogue of verifying payloads (the
      scanner's is one, by CatalogVerifying) promises: one draw per payload
      tried, and only sound findings (each names a reflected parameter and
      its delivery tag, and its attack calls `alert` with a drawn trigger). */
  lemma ScanSound(cfg: ScanConfig, start: nat, headers: map<string, string>)
    requires VerifyingCatalog(cfg.catalog)
    ensures Scan(cfg, start, headers).Ok? ==>
      var st := Scan(cfg, start, headers).value;
      st.draws == start + Tried(cfg.reflected, cfg.catalog, |cfg.reflected|) &&
      forall i | 0 <= i < |st.findings| :: Sound(cfg, st.findings[i])
  {
    ScanParamsDraws(cfg, |cfg.reflected|, ScanState([], start, headers));
    ScanParamsSound(cfg, |cfg.reflected|, ScanState([], start, headers));
    if Scan(cfg, start, headers).Ok? {
      SoundFromAll(cfg, Scan(cfg, start, headers).value.findings, 0);
    }
  }

  /** A parameter without a delivery tag adds no findings, whatever its
      plan. */
  lemma {:induction false} AttemptsWithoutDelivery(cfg: ScanConfig, param: Param, plan: seq<Payload>, st0: ScanState)
    requires param.delivery.None?
    ensures Attempts(cfg, param, plan, st0).Ok? ==> Attempts(cfg, param, plan, st0).value.findings == st0.findings
    decreases |plan|
  {
    if plan != [] && Attempts(cfg, param, plan, st0).Ok? {
      AttemptsWithoutDelivery(cfg, param, plan[..|plan| - 1], st0);
      AttemptSpec(cfg, param, plan[|plan| - 1], Attempts(cfg, param, plan[..|plan| - 1], st0).value);
    }
  }

  /** Reflected parameters that all lack a delivery tag can never be
      reported: a run over them either raises or adds nothing. */
  lemma ScanWithoutDelivery(cfg: ScanConfig, n: nat, st0: ScanState)
    requires n <= |cfg.reflected|
    requires forall k | 0 <= k < |cfg.reflected| :: cfg.reflected[k].delivery.None?
    ensures ScanParams(cfg, n, st0).Ok? ==> ScanParams(cfg, n, st0).value.findings == st0.findings
  {
    ScanParamsDraws(cfg, n, st0);
    ScanWithoutDeliveryCount(cfg, n, st0);
    if ScanParams(cfg, n, st0).Ok? {
      var fs := ScanParams(cfg, n, st0).value.findings;
      assert fs == fs[..|st0.findings|];
    }
  }

  /** The run `r`, when it went through, holds `count` findings. */
  predicate FindingCount(r: Result<ScanState>, count: nat)
  {
    r.Ok? ==> |r.value.findings| == count
  }

  /** Parameters without a delivery tag leave the number of findings as it
      was. */
  lemma {:induction false} ScanWithoutDeliveryCount(cfg: ScanConfig, n: nat, st0: ScanState)
    requires n <= |cfg.reflected|
    requires forall k | 0 <= k < |cfg.reflected| :: cfg.reflected[k].delivery.None?
    ensures FindingCount(ScanParams(cfg, n, st0), |st0.findings|)
    decreases n
  {
    if n > 0 && ScanParams(cfg, n, st0).Ok? {
      ScanWithoutDeliveryCount(cfg, n - 1, st0);
      ParamWithoutDelivery(cfg, n - 1, ScanParams(cfg, n - 1, st0), ScanParams(cfg, n, st0), |st0.findings|);
    }
  }

  /** The attempts of the `k`-th parameter, without a delivery tag, started
      from the run `prev` and ending in `res`, add nothing. */
  lemma ParamWithoutDelivery(cfg: ScanConfig, k: nat, prev: Result<ScanState>, res: Result<ScanState>, count: nat)
    requires k < |cfg.reflected| && cfg.reflected[k].delivery.None? && prev.Ok? && FindingCount(prev, count)
    requires res == Attempts(cfg, cfg.reflected[k], PlanIn(cfg.reflected[k].contexts, cfg.catalog), prev.value)
    ensures FindingCount(res, count)
  {
    AttemptsWithoutDelivery(cfg, cfg.reflected[k], PlanIn(cfg.reflected[k].contexts, cfg.catalog), prev.value);
  }

  /** A plan against a target that is neither GET nor POST raises TypeError
      at its first payload. */
  lemma {:induction false} AttemptsUntyped(cfg: ScanConfig, param: Param, plan: seq<Payload>, st0: ScanState)
    requires cfg.targetType.None?
    ensures Attempts(cfg, param, plan, st0) == if plan == [] then Ok(st0) else Err(TypeError)
    decreases |plan|
  {
    if plan != [] {
      var init := plan[..|plan| - 1];
      AttemptsUntyped(cfg, param, init, st0);
      if init == [] {
        AttemptSpec(cfg, param, plan[|plan| - 1], st0);
      }
    }
  }

  /** None of the first `n` parameters has a payload to try. */
  predicate NothingPlanned(ps: seq<Param>, catalog: seq<Payload>, n: nat)
    requires n <= |ps|
  {
    forall k | 0 <= k < n :: PlanIn(ps[k].contexts, catalog) == []
  }

  /** Against a target that is neither GET nor POST, the run raises
      TypeError as soon as some parameter has a payload to try, and
      otherwise returns nothing. */
  lemma ScanUntyped(cfg: ScanConfig, n: nat, st0: ScanState)
    requires cfg.targetType.None? && n <= |cfg.reflected|
    ensures ScanParams(cfg, n, st0) ==
      if NothingPlanned(cfg.reflected, cfg.catalog, n) then Ok(st0) else Err(TypeError)
  {
    if NothingPlanned(cfg.reflected, cfg.catalog, n) {
      ScanUntypedNothing(cfg, n, st0);
    } else {
      ScanUntypedRaises(cfg, n, st0);
    }
  }

  /** The run's result is its starting state, unchanged. */
  predicate Unmoved(r: Result<ScanState>, st0: ScanState)
  {
    r == Ok(st0)
  }

  /** Nothing to try: the run returns its starting state. */
  lemma {:induction false} ScanUntypedNothing(cfg: ScanConfig, n: nat, st0: ScanState)
    requires n <= |cfg.reflected| && NothingPlanned(cfg.reflected, cfg.catalog, n)
    ensures Unmoved(ScanParams(cfg, n, st0), st0)
    decreases n
  {
    if n > 0 {
      NothingPlannedInit(cfg.reflected, cfg.catalog, n);
      ScanUntypedNothing(cfg, n - 1, st0);
      NothingToTry(cfg, n, st0);
    }
  }

  /** A parameter with an empty plan leaves the run's state as it was. */
  lemma NothingToTry(cfg: ScanConfig, n: nat, st0: ScanState)
    requires 0 < n <= |cfg.reflected| && Unmoved(ScanParams(cfg, n - 1, st0), st0)
    requires PlanIn(cfg.reflected[n - 1].contexts, cfg.catalog) == []
    ensures Unmoved(ScanParams(cfg, n, st0), st0)
  {
    ScanParamsNext(cfg, n, st0, st0);
  }

  /** Nothing planned for the first `n` parameters: nothing for the first
      `n - 1` and nothing for the last. */
  lemma NothingPlannedInit(ps: seq<Param>, catalog: seq<Payload>, n: nat)
    requires 0 < n <= |ps| && NothingPlanned(ps, catalog, n)
    ensures NothingPlanned(ps, catalog, n - 1) && PlanIn(ps[n - 1].contexts, catalog) == []
  {
  }

  /** Something to try: the run raises TypeError at the first parameter
      that has a payload, and keeps that error to the end. */
  lemma ScanUntypedRaises(cfg: ScanConfig, n: nat, st0: ScanState)
    requires cfg.targetType.None? && n <= |cfg.reflected| && !NothingPlanned(cfg.reflected, cfg.catalog, n)
    ensures ScanParams(cfg, n, st0) == Err(TypeError)
  {
    var j := FirstPlanned(cfg.reflected, cfg.catalog, n);
    UntypedRaisesFirst(cfg, j + 1, st0);
    RaisedStays(cfg, j + 1, n, st0, TypeError);
  }

  /** The first of the first `n` parameters that has a payload to try. */
  function FirstPlanned(ps: seq<Param>, catalog: seq<Payload>, n: nat): (j: nat)
    requires n <= |ps| && !NothingPlanned(ps, catalog, n)
    ensures j < n && NothingPlanned(ps, catalog, j) && PlanIn(ps[j].contexts, catalog) != []
  {
    if NothingPlanned(ps, catalog, n - 1) then n - 1 else FirstPlanned(ps, catalog, n - 1)
  }

  /** The first parameter with a payload to try raises TypeError. */
  lemma UntypedRaisesFirst(cfg: ScanConfig, n: nat, st0: ScanState)
    requires cfg.targetType.None? && 0 < n <= |cfg.reflected| && NothingPlanned(cfg.reflected, cfg.catalog, n - 1)
    requires PlanIn(cfg.reflected[n - 1].contexts, cfg.catalog) != []
    ensures ScanParams(cfg, n, st0) == Err(TypeError)
  {
    ScanUntypedNothing(cfg, n - 1, st0);
    ScanParamsNext(cfg, n, st0, st0);
    AttemptsUntyped(cfg, cfg.reflected[n - 1], PlanIn(cfg.reflected[n - 1].contexts, cfg.catalog), st0);
  }

  /** A plan of GET attempts with a root, for a parameter with a delivery
      tag, never raises. */
  lemma {:induction false} AttemptsGetSucceed(cfg: ScanConfig, param: Param, plan: seq<Payload>, st0: ScanState)
    requires cfg.targetType == Some(GET) && cfg.targetUrl.Some? && param.delivery.Some?
    ensures Attempts(cfg, param, plan, st0).Ok?
    decreases |plan|
  {
    if plan != [] {
      AttemptsGetSucceed(cfg, param, plan[..|plan| - 1], st0);
      AttemptGetSucceeds(cfg, param, plan[|plan| - 1], Attempts(cfg, param, plan[..|plan| - 1], st0).value);
    }
  }

  /** A GET run with a root over parameters that all carry a delivery tag
      never raises. */
  lemma {:induction false} ScanGetSucceeds(cfg: ScanConfig, n: nat, st0: ScanState)
    requires cfg.targetType == Some(GET) && cfg.targetUrl.Some? && n <= |cfg.reflected|
    requires forall k | 0 <= k < |cfg.reflected| :: cfg.reflected[k].delivery.Some?
    ensures ScanParams(cfg, n, st0).Ok?
    decreases n
  {
    if n > 0 {
      ScanGetSucceeds(cfg, n - 1, st0);
      var param := cfg.reflected[n - 1];
      AttemptsGetSucceed(cfg, param, PlanIn(param.contexts, cfg.catalog), ScanParams(cfg, n - 1, st0).value);
    }
  }

  // ---------------------------------------------------------------------
  // Steps of the folds, as the scanner's loops take them

  lemma MatchingStep(context: ContextKind, catalog: seq<Payload>, j: nat)
    requires j < |catalog|
    ensures Matching(context, catalog[..j + 1]) ==
      Matching(context, catalog[..j]) + (if Selects(context, catalog[j]) then [catalog[j]] else [])
  {
    assert catalog[..j + 1][..j] == catalog[..j];
  }

  lemma CandidatesStep(contexts: seq<ContextKind>, c: nat, catalog: seq<Payload>)
    requires c < |contexts|
    ensures Candidates(contexts[..c + 1], catalog) == Candidates(contexts[..c], catalog) + Matching(contexts[c], catalog)
  {
    assert contexts[..c + 1][..c] == contexts[..c];
  }

  lemma DedupStep(ps: seq<Payload>, p: Payload)
    ensures Dedup(ps + [p]) == if p.id in Ids(Dedup(ps)) then Dedup(ps) else Dedup(ps) + [p]
  {
    assert (ps + [p])[..|ps|] == ps;
  }

  lemma AttemptsStep(cfg: ScanConfig, param: Param, plan: seq<Payload>, p: Payload, st0: ScanState)
    ensures Attempts(cfg, param, plan + [p], st0) ==
      match Attempts(cfg, param, plan, st0)
      case Err(e) => Err(e)
      case Ok(st) => Attempt(cfg, param, p, st)
  {
    assert (plan + [p])[..|plan|] == plan;
  }

  /** One more payload after a plan that went through. */
  lemma AttemptsNext(cfg: ScanConfig, param: Param, plan: seq<Payload>, p: Payload, st0: ScanState, st: ScanState)
    requires Attempts(cfg, param, plan, st0) == Ok(st)
    ensures Attempts(cfg, param, plan + [p], st0) == Attempt(cfg, param, p, st)
  {
    AttemptsStep(cfg, param, plan, p, st0);
  }

  /** Appending a pair piece by piece appends the whole pair. */
  lemma AppendPairAssoc(s: string, name: string, value: string)
    ensures s + name + "=" + value == s + (name + "=" + value)
  {
  }

  lemma ConcatPairsStep(ps: seq<Param>, i: nat, name: string, attack: string)
    requires i < |ps|
    ensures Concat(AttackPairs(ps[..i + 1], name, attack)) ==
      Concat(AttackPairs(ps[..i], name, attack)) + AttackPair(ps[i], name, attack)
  {
    assert AttackPairs(ps[..i + 1], name, attack)[..i] == AttackPairs(ps[..i], name, attack);
  }

  lemma {:induction false} MatchingPrefix(context: ContextKind, catalog: seq<Payload>, j: nat)
    requires j <= |catalog|
    ensures Matching(context, catalog[..j]) <= Matching(context, catalog)
    decreases |catalog| - j
  {
    if j < |catalog| {
      MatchingPrefix(context, catalog, j + 1);
      MatchingStep(context, catalog, j);
    } else {
      assert catalog[..j] == catalog;
    }
  }

  lemma {:induction false} CandidatesPrefix(contexts: seq<ContextKind>, c: nat, catalog: seq<Payload>)
    requires c <= |contexts|
    ensures Candidates(contexts[..c], catalog) <= Candidates(contexts, catalog)
    decreases |contexts| - c
  {
    if c < |contexts| {
      CandidatesPrefix(contexts, c + 1, catalog);
      CandidatesStep(contexts, c, catalog);
    } else {
      assert contexts[..c] == contexts;
    }
  }

  lemma {:induction false} DedupPrefix(xs: seq<Payload>, ys: seq<Payload>)
    requires xs <= ys
    ensures Dedup(xs) <= Dedup(ys)
    decreases |ys|
  {
    if |xs| < |ys| {
      var init := ys[..|ys| - 1];
      assert xs <= init;
      DedupPrefix(xs, init);
      DedupStep(init, ys[|ys| - 1]);
      assert init + [ys[|ys| - 1]] == ys;
    } else {
      assert xs == ys;
    }
  }

  /** What the scanner has tried after `j` catalogue entries for the
      context at `c` is a prefix of the whole plan over that catalogue. */
  lemma PlanPrefix(contexts: seq<ContextKind>, c: nat, catalog: seq<Payload>, j: nat)
    requires c < |contexts| && j <= |catalog|
    ensures Dedup(Candidates(contexts[..c], catalog) + Matching(contexts[c], catalog[..j])) <=
      Dedup(Candidates(contexts, catalog))
  {
    var head := Candidates(contexts[..c], catalog);
    MatchingPrefix(contexts[c], catalog, j);
    CandidatesStep(contexts, c, catalog);
    CandidatesPrefix(contexts, c + 1, catalog);
    var m := Matching(contexts[c], catalog[..j]);
    var whole := Candidates(contexts, catalog);
    assert head + m <= head + Matching(contexts[c], catalog);
    assert head + m <= whole;
    DedupPrefix(head + m, whole);
  }

  /** An error after `j` catalogue entries for the context at `c` is the
      error of the whole plan over that catalogue. */
  lemma PlanErrPersists(cfg: ScanConfig, param: Param, c: nat, catalog: seq<Payload>, j: nat, st0: ScanState)
    requires c < |param.contexts| && j <= |catalog|
    requires Attempts(cfg, param, Dedup(Candidates(param.contexts[..c], catalog) +
                                        Matching(param.contexts[c], catalog[..j])), st0).Err?
    ensures Attempts(cfg, param, Dedup(Candidates(param.contexts, catalog)), st0) ==
      Attempts(cfg, param, Dedup(Candidates(param.contexts[..c], catalog) + Matching(param.contexts[c], catalog[..j])), st0)
  {
    PlanPrefix(param.contexts, c, catalog, j);
    AttemptsErrPersists(cfg, param, Dedup(Candidates(param.contexts[..c], catalog) +
                                          Matching(param.contexts[c], catalog[..j])),
                        Dedup(Candidates(param.contexts, catalog)), st0);
  }

  /** What the scanner has reached past the filter grows by the next
      catalogue entry when the context selects it. */
  lemma SeenStep(head: seq<Payload>, context: ContextKind, catalog: seq<Payload>, j: nat)
    requires j < |catalog|
    ensures head + Matching(context, catalog[..j + 1]) ==
      head + Matching(context, catalog[..j]) + (if Selects(context, catalog[j]) then [catalog[j]] else [])
  {
    MatchingStep(context, catalog, j);
  }

  /** A plan that raised keeps raising the same error however it goes on. */
  lemma {:induction false} AttemptsErrPersists(cfg: ScanConfig, param: Param, plan: seq<Payload>, longer: seq<Payload>, st0: ScanState)
    requires plan <= longer && Attempts(cfg, param, plan, st0).Err?
    ensures Attempts(cfg, param, longer, st0) == Attempts(cfg, param, plan, st0)
    decreases |longer|
  {
    if |plan| < |longer| {
      var init := longer[..|longer| - 1];
      assert plan <= init;
      AttemptsErrPersists(cfg, param, plan, init, st0);
    } else {
      assert plan == longer;
    }
  }

  /** After the first `n - 1` parameters, the next one's attempts continue
      from the state they leave. */
  lemma ScanParamsNext(cfg: ScanConfig, n: nat, st0: ScanState, st: ScanState)
    requires 0 < n <= |cfg.reflected| && ScanParams(cfg, n - 1, st0) == Ok(st)
    ensures ScanParams(cfg, n, st0) == Attempts(cfg, cfg.reflected[n - 1], PlanIn(cfg.reflected[n - 1].contexts, cfg.catalog), st)
  {
  }

  /** What the attempts of the `n`-th parameter end in is the state after
      `n + 1` parameters or, when they raise, the error of the whole run. */
  lemma ScanParamsAfter(cfg: ScanConfig, n: nat, st0: ScanState, st: ScanState, res: Result<ScanState>)
    requires n < |cfg.reflected| && ScanParams(cfg, n, st0) == Ok(st)
    requires res == Attempts(cfg, cfg.reflected[n], PlanIn(cfg.reflected[n].contexts, cfg.catalog), st)
    ensures res.Ok? ==> ScanParams(cfg, n + 1, st0) == res
    ensures res.Err? ==> ScanParams(cfg, |cfg.reflected|, st0) == res
  {
    ScanParamsNext(cfg, n + 1, st0, st);
    if res.Err? {
      ScanParamsErrPersists(cfg, n + 1, |cfg.reflected|, st0);
    }
  }

  /** A run that raised at some parameter keeps the same error to the end. */
  lemma ScanParamsErrPersists(cfg: ScanConfig, n: nat, m: nat, st0: ScanState)
    requires n <= m <= |cfg.reflected| && ScanParams(cfg, n, st0).Err?
    ensures ScanParams(cfg, m, st0) == ScanParams(cfg, n, st0)
  {
    RaisedStays(cfg, n, m, st0, ScanParams(cfg, n, st0).error);
  }

  /** The error `e`, raised within the first `n` parameters, is the run's
      result after any later number of them. */
  lemma {:induction false} RaisedStays(cfg: ScanConfig, n: nat, m: nat, st0: ScanState, e: Error)
    requires n <= m <= |cfg.reflected| && ScanParams(cfg, n, st0) == Err(e)
    ensures ScanParams(cfg, m, st0) == Err(e)
    decreases m
  {
    if n < m {
      RaisedStays(cfg, n, m - 1, st0, e);
    }
  }
}
