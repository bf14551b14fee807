/** RequestVariableProbe.py: splits a request's URL query and form body into
    parameter records. Nothing is decoded or re-encoded. */
module RequestVariableProbe {
  import opened Common
  import opened Strings
  import opened XssMapObjects

  /** `__has_URL_params`: the URL has a query part to split. */
  function HasUrlParams(url: string): (r: bool)
    ensures r <==> |SplitOnce(url, '?')| == 2
  {
    '?' in url
  }

  /** The text before the first `?` (the whole URL when there is none). */
  function UrlRoot(url: string): (root: string)
    ensures '?' !in root && root <= url
  {
    SplitOnce(url, '?')[0]
  }

  /** `url.split('?', 1)[1]`, which raises IndexError without a `?`. */
  function UrlQuery(url: string): (r: Result<string>)
    ensures r.Ok? <==> HasUrlParams(url)
    ensures r.Ok? ==> url == UrlRoot(url) + "?" + r.value
    ensures r.Err? ==> r.error == IndexError
  {
    var parts := SplitOnce(url, '?');
    if |parts| < 2 then Err(IndexError) else Ok(parts[1])
  }

  /** One `name=value` piece: the name is the text before its first `=`,
      the value everything after it; a piece without `=` raises IndexError. */
  function ParseParam(piece: string, d: Delivery): (r: Result<Param>)
    ensures r.Ok? <==> '=' in piece
    ensures r.Err? ==> r.error == IndexError
    ensures r.Ok? ==> piece == r.value.name + "=" + r.value.value && '=' !in r.value.name
    ensures r.Ok? ==> r.value == Param(Some(d), r.value.name, r.value.value, None, [])
  {
    var parts := SplitOnce(piece, '=');
    if |parts| < 2 then Err(IndexError) else Ok(Param(Some(d), parts[0], parts[1], None, []))
  }

  /** The pieces parsed in order, stopping at the first one that raises. */
  function ParsePieces(pieces: seq<string>, d: Delivery): Result<seq<Param>>
    decreases |pieces|
  {
    if pieces == [] then Ok([])
    else
      match ParsePieces(pieces[..|pieces| - 1], d)
      case Err(e) => Err(e)
      case Ok(ps) =>
        match ParseParam(pieces[|pieces| - 1], d)
        case Err(e) => Err(e)
        case Ok(p) => Ok(ps + [p])
  }

  /** The parameters of a query or form body: split on every `&`, then each
      piece on its first `=`. */
  function ParseParams(s: string, d: Delivery): Result<seq<Param>>
  {
    ParsePieces(Split(s, '&'), d)
  }

  /** Parsing succeeds exactly when every piece has an `=`, and otherwise
      raises IndexError. */
  lemma {:induction false} ParsePiecesOk(pieces: seq<string>, d: Delivery)
    ensures ParsePieces(pieces, d).Ok? <==> forall k | 0 <= k < |pieces| :: '=' in pieces[k]
    ensures ParsePieces(pieces, d).Err? ==> ParsePieces(pieces, d).error == IndexError
    decreases |pieces|
  {
    if pieces != [] {
      var init := pieces[..|pieces| - 1];
      ParsePiecesOk(init, d);
      assert forall k | 0 <= k < |init| :: init[k] == pieces[k];
    }
  }

  /** A successful parse gives one record per piece, in order. */
  lemma {:induction false} ParsePiecesValues(pieces: seq<string>, d: Delivery)
    ensures ParsePieces(pieces, d).Ok? ==>
      var ps := ParsePieces(pieces, d).value;
      |ps| == |pieces| && forall k | 0 <= k < |pieces| :: ParseParam(pieces[k], d) == Ok(ps[k])
    decreases |pieces|
  {
    if pieces != [] && ParsePieces(pieces, d).Ok? {
      var init := pieces[..|pieces| - 1];
      ParsePiecesValues(init, d);
      var ps := ParsePieces(init, d).value;
      assert ParsePieces(pieces, d).value == ps + [ParseParam(pieces[|pieces| - 1], d).value];
    }
  }

  /** Parsing succeeds exactly when every piece has an `=`; it then gives one
      record per piece, in order, and otherwise raises IndexError. */
  lemma ParsePiecesSpec(pieces: seq<string>, d: Delivery)
    ensures ParsePieces(pieces, d).Ok? <==> forall k | 0 <= k < |pieces| :: '=' in pieces[k]
    ensures ParsePieces(pieces, d).Err? ==> ParsePieces(pieces, d).error == IndexError
    ensures ParsePieces(pieces, d).Ok? ==>
      var ps := ParsePieces(pieces, d).value;
      |ps| == |pieces| && forall k | 0 <= k < |pieces| :: ParseParam(pieces[k], d) == Ok(ps[k])
  {
    ParsePiecesOk(pieces, d);
    ParsePiecesValues(pieces, d);
  }

  /** The record a piece becomes, written back as `name=value`. */
  function PairOf(p: Param): string
  {
    p.name + "=" + p.value
  }

  function PairsOf(ps: seq<Param>): (pairs: seq<string>)
    ensures |pairs| == |ps| && forall k | 0 <= k < |ps| :: pairs[k] == PairOf(ps[k])
  {
    seq(|ps|, k requires 0 <= k < |ps| => PairOf(ps[k]))
  }

  /** No decoding happens: re-joining the parsed records with `&` gives the
      query or body text back. */
  lemma ParseParamsRoundTrip(s: string, d: Delivery)
    requires ParseParams(s, d).Ok?
    ensures Join(PairsOf(ParseParams(s, d).value), '&') == s
  {
    var pieces := Split(s, '&');
    ParsePiecesSpec(pieces, d);
    var ps := ParseParams(s, d).value;
    assert PairsOf(ps) == pieces;
    JoinSplit(s, '&');
  }

  /** One record without `=` or `&` in its name and `&` in its value is
      read back from its pair. */
  lemma PairParses(p: Param, d: Delivery)
    requires p == Param(Some(d), p.name, p.value, None, [])
    requires '=' !in p.name && '&' !in p.name && '&' !in p.value
    ensures '&' !in PairOf(p) && ParseParam(PairOf(p), d) == Ok(p)
  {
    SplitOnceOf(p.name, p.value, '=');
    assert PairOf(p) == p.name + ['='] + p.value;
  }

  /** Records of that form are read back from their pairs, in order. */
  lemma {:induction false} ParsePairs(ps: seq<Param>, d: Delivery)
    requires forall k | 0 <= k < |ps| ::
      ps[k] == Param(Some(d), ps[k].name, ps[k].value, None, []) &&
      '=' !in ps[k].name && '&' !in ps[k].name && '&' !in ps[k].value
    ensures ParsePieces(PairsOf(ps), d) == Ok(ps)
    decreases |ps|
  {
    if ps != [] {
      var init := ps[..|ps| - 1];
      ParsePairs(init, d);
      PairParses(ps[|ps| - 1], d);
      assert PairsOf(ps)[..|ps| - 1] == PairsOf(init);
      assert ps == init + [ps[|ps| - 1]];
    }
  }

  /** Conversely, records whose names hold no `=` or `&` and whose values
      hold no `&` are recovered exactly from their `&`-joined pairs. */
  lemma ParseParamsOfJoin(ps: seq<Param>, d: Delivery)
    requires |ps| >= 1
    requires forall k | 0 <= k < |ps| ::
      ps[k] == Param(Some(d), ps[k].name, ps[k].value, None, []) &&
      '=' !in ps[k].name && '&' !in ps[k].name && '&' !in ps[k].value
    ensures ParseParams(Join(PairsOf(ps), '&'), d) == Ok(ps)
  {
    var pairs := PairsOf(ps);
    forall k | 0 <= k < |pairs| ensures '&' !in pairs[k] {
      PairParses(ps[k], d);
    }
    SplitJoin(pairs, '&');
    ParsePairs(ps, d);
  }

  /** An empty query or body is a single empty piece, which has no `=`. */
  lemma EmptyTextRaises(d: Delivery)
    ensures ParseParams("", d) == Err(IndexError)
  {
    ParsePiecesSpec(Split("", '&'), d);
  }

  /** `__process_URL_params`: the URL's query parameters, delivery `url`. */
  method ProcessUrlParams(url: string) returns (r: Result<seq<Param>>)
    ensures r == (match UrlQuery(url) case Err(e) => Err(e) case Ok(q) => ParseParams(q, Url))
  {
    var parts := SplitOnce(url, '?');
    if |parts| < 2 {
      return Err(IndexError);
    }
    var originals := Split(parts[1], '&');
    r := ProcessPieces(originals, Url);
  }

  /** `__process_body_params`: the form body's parameters, delivery `body`. */
  method ProcessBodyParams(body: string) returns (r: Result<seq<Param>>)
    ensures r == ParseParams(body, Body)
  {
    var originals := Split(body, '&');
    r := ProcessPieces(originals, Body);
  }

  /** The loop shared by the two functions above: one record per piece,
      appended in order. */
  method ProcessPieces(originals: seq<string>, d: Delivery) returns (r: Result<seq<Param>>)
    ensures r == ParsePieces(originals, d)
  {
    var outputList: seq<Param> := [];
    for i := 0 to |originals|
      invariant ParsePieces(originals[..i], d) == Ok(outputList)
    {
      var parts := SplitOnce(originals[i], '=');
      if |parts| < 2 {
        ParsePiecesSpec(originals, d);
        return Err(IndexError);
      }
      var thisParam := Param(Some(d), parts[0], parts[1], None, []);
      assert originals[..i + 1][..i] == originals[..i];
      outputList := outputList + [thisParam];
    }
    assert originals[..|originals|] == originals;
    return Ok(outputList);
  }

  /** The parameters the probe finds for a GET (no body) or a POST request:
      URL parameters first, then body parameters. */
  function ProbedParams(url: string, body: Option<string>): Result<seq<Param>>
  {
    var fromUrl := if HasUrlParams(url) then ParseParams(UrlQuery(url).value, Url) else Ok([]);
    match fromUrl
    case Err(e) => Err(e)
    case Ok(urlParams) =>
      match body
      case None => Ok(urlParams)
      case Some(b) =>
        match ParseParams(b, Body)
        case Err(e) => Err(e)
        case Ok(bodyParams) => Ok(urlParams + bodyParams)
  }

  /** The POST probe's loop that appends each body parameter to the
      object's other parameters, in order. */
  method AppendOther(output: XssMapObject, ps: seq<Param>)
    modifies output`paramsOther
    ensures output.paramsOther == old(output.paramsOther) + ps
  {
    ghost var start := output.paramsOther;
    for i := 0 to |ps|
      invariant output.paramsOther == start + ps[..i]
    {
      assert ps[..i + 1] == ps[..i] + [ps[i]];
      output.paramsOther := output.paramsOther + [ps[i]];
    }
    assert ps[..|ps|] == ps;
  }

  /** `probe_POST_request`: the root before the first `?`, type POST, and
      every URL parameter followed by every body parameter. */
  method ProbePostRequest(url: string, body: string) returns (r: Result<XssMapObject>)
    ensures r.Ok? <==> ProbedParams(url, Some(body)).Ok?
    ensures r.Err? ==> r.error == ProbedParams(url, Some(body)).error
    ensures r.Ok? ==> fresh(r.value)
    ensures r.Ok? ==> r.value.requestUrlRoot == Some(UrlRoot(url)) && r.value.requestType == Some(POST)
    ensures r.Ok? ==> r.value.requestBody == None && r.value.paramsReflected == []
    ensures r.Ok? ==> r.value.paramsOther == ProbedParams(url, Some(body)).value
  {
    var output := new XssMapObject();
    output.requestUrlRoot := Some(SplitOnce(url, '?')[0]);
    output.requestType := Some(POST);
    output.paramsOther := [];
    ghost var spec := ProbedParams(url, Some(body));
    ghost var fromUrlSpec := if HasUrlParams(url) then ParseParams(UrlQuery(url).value, Url) else Ok([]);
    if HasUrlParams(url) {
      var fromUrl := ProcessUrlParams(url);
      assert fromUrl == fromUrlSpec;
      if fromUrl.Err? {
        assert spec == Err(fromUrl.error);
        return Err(fromUrl.error);
      }
      output.paramsOther := fromUrl.value;
    }
    var urlParams := output.paramsOther;
    assert fromUrlSpec == Ok(urlParams);
    var bodyParams := ProcessBodyParams(body);
    if bodyParams.Err? {
      assert spec == Err(bodyParams.error);
      return Err(bodyParams.error);
    }
    assert spec == Ok(urlParams + bodyParams.value);
    AppendOther(output, bodyParams.value);
    return Ok(output);
  }

  /** `probe_GET_request`: the root before the first `?`, type GET, and the
      URL parameters (none when the URL has no `?`). */
  method ProbeGetRequest(url: string) returns (r: Result<XssMapObject>)
    ensures r.Ok? <==> ProbedParams(url, None).Ok?
    ensures r.Err? ==> r.error == ProbedParams(url, None).error
    ensures r.Ok? ==> fresh(r.value)
    ensures r.Ok? ==> r.value.requestUrlRoot == Some(UrlRoot(url)) && r.value.requestType == Some(GET)
    ensures r.Ok? ==> r.value.requestBody == None && r.value.paramsReflected == []
    ensures r.Ok? ==> r.value.paramsOther == ProbedParams(url, None).value
  {
    var output := new XssMapObject();
    output.requestUrlRoot := Some(SplitOnce(url, '?')[0]);
    output.requestType := Some(GET);
    output.paramsOther := [];
    if HasUrlParams(url) {
      var fromUrl := ProcessUrlParams(url);
      if fromUrl.Err? {
        return Err(fromUrl.error);
      }
      output.paramsOther := fromUrl.value;
    }
    return Ok(output);
  }

  /** `ps` are the records of `pieces`, one per piece and in order: each
      piece is its record's `name=value` with no `=` in the name, and the
      record has delivery `d`, no trigger and no contexts. */
  ghost predicate RecordsOf(ps: seq<Param>, pieces: seq<string>, d: Delivery)
  {
    |ps| == |pieces| &&
    forall k | 0 <= k < |ps| ::
      PairOf(ps[k]) == pieces[k] && '=' !in ps[k].name &&
      ps[k] == Param(Some(d), ps[k].name, ps[k].value, None, [])
  }

  /** A successful parse gives exactly the records of the `&`-pieces. */
  lemma ParsedRecords(s: string, d: Delivery)
    ensures ParseParams(s, d).Ok? <==> forall k | 0 <= k < |Split(s, '&')| :: '=' in Split(s, '&')[k]
    ensures ParseParams(s, d).Ok? ==> RecordsOf(ParseParams(s, d).value, Split(s, '&'), d)
  {
    assert ParseParams(s, d) == ParsePieces(Split(s, '&'), d);
    ParsePiecesOk(Split(s, '&'), d);
    PiecesRecords(Split(s, '&'), d);
  }

  lemma PiecesRecords(pieces: seq<string>, d: Delivery)
    ensures ParsePieces(pieces, d).Ok? ==> RecordsOf(ParsePieces(pieces, d).value, pieces, d)
  {
    ParsePiecesValues(pieces, d);
    if ParsePieces(pieces, d).Ok? {
      var ps := ParsePieces(pieces, d).value;
      forall k | 0 <= k < |ps|
        ensures PairOf(ps[k]) == pieces[k] && '=' !in ps[k].name
        ensures ps[k] == Param(Some(d), ps[k].name, ps[k].value, None, [])
      {
        assert ParseParam(pieces[k], d) == Ok(ps[k]);
      }
    }
  }

  /** A GET URL without `?` has no parameters; with one, the probe succeeds
      exactly when every `&`-piece of the query holds `=`, and its
      parameters are then the query's pieces in order, delivered by `url`. */
  lemma GetParamsShape(url: string)
    ensures !HasUrlParams(url) ==> ProbedParams(url, None) == Ok([])
    ensures HasUrlParams(url) ==>
      var pieces := Split(UrlQuery(url).value, '&');
      (ProbedParams(url, None).Ok? <==> forall k | 0 <= k < |pieces| :: '=' in pieces[k]) &&
      (ProbedParams(url, None).Ok? ==> RecordsOf(ProbedParams(url, None).value, pieces, Url))
  {
    if HasUrlParams(url) {
      ParsedRecords(UrlQuery(url).value, Url);
    }
  }

  /** A POST's parameters are the GET probe's parameters of the same URL
      followed by the body's pieces in order, delivered by `body`; the probe
      succeeds exactly when both parts parse, and an empty body raises
      IndexError. */
  lemma PostParamsPartition(url: string, body: string)
    ensures body == "" ==> ProbedParams(url, Some(body)).Err?
    ensures ProbedParams(url, Some(body)).Ok? <==>
      ProbedParams(url, None).Ok? && forall k | 0 <= k < |Split(body, '&')| :: '=' in Split(body, '&')[k]
    ensures ProbedParams(url, Some(body)).Ok? ==>
      var ps := ProbedParams(url, Some(body)).value;
      var n := |Split(body, '&')|;
      n <= |ps| && ps[..|ps| - n] == ProbedParams(url, None).value &&
      RecordsOf(ps[|ps| - n..], Split(body, '&'), Body)
  {
    EmptyTextRaises(Body);
    ParsedRecords(body, Body);
    if ProbedParams(url, Some(body)).Ok? {
      var urlParams := ProbedParams(url, None).value;
      var bodyParams := ParseParams(body, Body).value;
      var ps := ProbedParams(url, Some(body)).value;
      assert ps == urlParams + bodyParams;
      assert ps[..|urlParams|] == urlParams && ps[|urlParams|..] == bodyParams;
    }
  }

  /** Every probed parameter is delivered by `url` or `body` and carries no
      trigger and no contexts yet; a URL with a query contributes the first
      parameter, and without one every parameter comes from the body. */
  lemma ProbedFields(url: string, body: Option<string>)
    requires ProbedParams(url, body).Ok?
    ensures var ps := ProbedParams(url, body).value;
      forall k | 0 <= k < |ps| ::
        (ps[k].delivery == Some(Url) || ps[k].delivery == Some(Body)) && ps[k].trigger.None? && ps[k].contexts == []
    ensures var ps := ProbedParams(url, body).value;
      HasUrlParams(url) ==> |ps| > 0 && ps[0].delivery == Some(Url)
    ensures var ps := ProbedParams(url, body).value;
      !HasUrlParams(url) ==> forall k | 0 <= k < |ps| :: ps[k].delivery == Some(Body)
  {
    var fromUrl := if HasUrlParams(url) then ParseParams(UrlQuery(url).value, Url) else Ok([]);
    if HasUrlParams(url) {
      ParsedRecords(UrlQuery(url).value, Url);
    }
    var u := fromUrl.value;
    assert Unprobed(u, Url);
    if body.Some? {
      ParsedRecords(body.value, Body);
      var b := ParseParams(body.value, Body).value;
      assert Unprobed(b, Body);
      assert ProbedParams(url, body).value == u + b;
      UnprobedConcat(u, b);
    }
  }

  /** Every record is delivered by `d` and has no trigger and no contexts. */
  predicate Unprobed(ps: seq<Param>, d: Delivery)
  {
    forall k | 0 <= k < |ps| :: ps[k].delivery == Some(d) && ps[k].trigger.None? && ps[k].contexts == []
  }

  lemma UnprobedConcat(u: seq<Param>, b: seq<Param>)
    requires Unprobed(u, Url) && Unprobed(b, Body)
    ensures forall k | 0 <= k < |u + b| ::
      ((u + b)[k].delivery == Some(Url) || (u + b)[k].delivery == Some(Body)) &&
      (u + b)[k].trigger.None? && (u + b)[k].contexts == []
    ensures |u| > 0 ==> (u + b)[0].delivery == Some(Url)
    ensures u == [] ==> forall k | 0 <= k < |u + b| :: (u + b)[k].delivery == Some(Body)
  {
  }
}
