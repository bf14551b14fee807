/** The few Python string operations the xssmap core relies on, with the
    semantics of CPython's `str` for the argument shapes the core uses. */
module Strings {

  /** Python's `needle in hay`. */
  predicate Contains(hay: string, needle: string)
  {
    exists i | 0 <= i <= |hay| :: needle <= hay[i..]
  }

  /** Python's `hay.split(sep)` for a one-character separator: every piece,
      in order, including empty ones. */
  function Split(s: string, sep: char): (pieces: seq<string>)
    ensures |pieces| >= 1
    decreases |s|
  {
    if s == [] then [[]]
    else
      var rest := Split(s[1..], sep);
      if s[0] == sep then [[]] + rest
      else [[s[0]] + rest[0]] + rest[1..]
  }

  /** Python's `sep.join(pieces)`. */
  function Join(pieces: seq<string>, sep: char): string
    decreases |pieces|
  {
    if pieces == [] then []
    else if |pieces| == 1 then pieces[0]
    else pieces[0] + [sep] + Join(pieces[1..], sep)
  }

  /** Appending one more piece to a non-empty join adds the separator and
      the piece. */
  lemma {:induction false} JoinSnoc(pieces: seq<string>, last: string, sep: char)
    requires |pieces| >= 1
    ensures Join(pieces + [last], sep) == Join(pieces, sep) + [sep] + last
    decreases |pieces|
  {
    if |pieces| > 1 {
      JoinSnoc(pieces[1..], last, sep);
      assert (pieces + [last])[1..] == pieces[1..] + [last];
    } else {
      assert pieces + [last] == [pieces[0], last];
      assert [pieces[0], last][1..] == [last];
    }
  }

  /** No piece produced by `split` contains the separator. */
  lemma {:induction false} SplitPiecesFree(s: string, sep: char)
    ensures forall k | 0 <= k < |Split(s, sep)| :: sep !in Split(s, sep)[k]
    decreases |s|
  {
    if s != [] {
      SplitPiecesFree(s[1..], sep);
    }
  }

  /** Joining the pieces of a split gives the original text back. */
  lemma {:induction false} JoinSplit(s: string, sep: char)
    ensures Join(Split(s, sep), sep) == s
    decreases |s|
  {
    if s != [] {
      var rest := Split(s[1..], sep);
      JoinSplit(s[1..], sep);
      if s[0] == sep {
        assert Split(s, sep) == [[]] + rest;
        assert ([[]] + rest)[1..] == rest;
      } else {
        var ps := Split(s, sep);
        assert ps == [[s[0]] + rest[0]] + rest[1..];
        if |rest| == 1 {
          assert Join(rest, sep) == rest[0];
        } else {
          assert ps[1..] == rest[1..];
          assert Join(rest, sep) == rest[0] + [sep] + Join(rest[1..], sep);
        }
      }
    }
  }

  lemma {:induction false} SplitPrefix(p: string, t: string, sep: char)
    requires sep !in p
    ensures Split(p + t, sep) == [p + Split(t, sep)[0]] + Split(t, sep)[1..]
    decreases |p|
  {
    if p != [] {
      SplitPrefix(p[1..], t, sep);
      assert (p + t)[1..] == p[1..] + t;
      assert (p + t)[0] == p[0];
      assert [p[0]] + (p[1..] + Split(t, sep)[0]) == p + Split(t, sep)[0];
    } else {
      var st := Split(t, sep);
      assert p + t == t;
      assert p + st[0] == st[0];
      assert [st[0]] + st[1..] == st;
    }
  }

  /** Splitting a join of separator-free pieces gives the pieces back. */
  lemma {:induction false} SplitJoin(pieces: seq<string>, sep: char)
    requires |pieces| >= 1
    requires forall k | 0 <= k < |pieces| :: sep !in pieces[k]
    ensures Split(Join(pieces, sep), sep) == pieces
    decreases |pieces|
  {
    if |pieces| == 1 {
      SplitPrefix(pieces[0], [], sep);
      assert Split([], sep) == [[]];
      assert pieces[0] + [] == pieces[0];
      assert Join(pieces, sep) == pieces[0];
      assert pieces == [pieces[0]];
    } else {
      SplitJoin(pieces[1..], sep);
      var tail := [sep] + Join(pieces[1..], sep);
      SplitPrefix(pieces[0], tail, sep);
      assert pieces[0] + [sep] + Join(pieces[1..], sep) == pieces[0] + tail;
      assert tail[1..] == Join(pieces[1..], sep);
      assert Split(tail, sep) == [[]] + pieces[1..];
      assert Join(pieces, sep) == pieces[0] + tail;
      assert pieces[0] + [] == pieces[0];
      assert [pieces[0]] + pieces[1..] == pieces;
    }
  }

  /** Python's `s.split(sep, 1)`: the whole text when `sep` does not occur,
      otherwise the text before and after its first occurrence. */
  function SplitOnce(s: string, sep: char): (parts: seq<string>)
    ensures 1 <= |parts| <= 2
    ensures |parts| == 2 <==> sep in s
    ensures |parts| == 1 ==> parts[0] == s
    ensures |parts| == 2 ==> s == parts[0] + [sep] + parts[1] && sep !in parts[0]
    decreases |s|
  {
    if s == [] then [s]
    else if s[0] == sep then [[], s[1..]]
    else
      var rest := SplitOnce(s[1..], sep);
      if |rest| == 1 then [s]
      else
        assert s == [s[0]] + s[1..];
        [[s[0]] + rest[0], rest[1]]
  }

  /** The decomposition `before + [sep] + after` with `sep` absent from
      `before` is unique, so it is what `split(sep, 1)` returns. */
  lemma SplitOnceOf(before: string, after: string, sep: char)
    requires sep !in before
    ensures SplitOnce(before + [sep] + after, sep) == [before, after]
  {
    var s := before + [sep] + after;
    var parts := SplitOnce(s, sep);
    assert s[|before|] == sep;
    assert |parts| == 2;
    assert forall j | 0 <= j < |before| :: s[j] == before[j];
    assert s[|parts[0]|] == sep;
    assert forall j | 0 <= j < |parts[0]| :: s[j] == parts[0][j];
    assert parts[0] == s[..|before|] == before;
    assert parts[1] == s[|before| + 1..] == after;
  }

  /** Python's `s.replace(pat, rep)` for a non-empty pattern: occurrences are
      replaced from left to right, never overlapping. */
  function Replace(s: string, pat: string, rep: string): string
    requires |pat| > 0
    decreases |s|
  {
    if pat <= s then rep + Replace(s[|pat|..], pat, rep)
    else if s == [] then []
    else [s[0]] + Replace(s[1..], pat, rep)
  }

  /** A pattern that starts with a character the text lacks does not occur in it. */
  lemma ContainsHead(s: string, pat: string)
    requires |pat| > 0 && pat[0] !in s
    ensures !Contains(s, pat)
  {
  }

  /** Replacing a pattern that does not occur leaves the text alone. */
  lemma {:induction false} ReplaceAbsent(s: string, pat: string, rep: string)
    requires |pat| > 0 && !Contains(s, pat)
    ensures Replace(s, pat, rep) == s
    decreases |s|
  {
    assert s[0..] == s;
    if s != [] {
      ReplaceAbsent(s[1..], pat, rep);
    }
  }

  /** A text with exactly one occurrence of the pattern, placed after a
      prefix that cannot start one, has that occurrence replaced and
      nothing else changed. */
  lemma ReplaceOnce(pre: string, pat: string, post: string, rep: string)
    requires |pat| > 0 && pat[0] !in pre && !Contains(post, pat)
    ensures Replace(pre + pat + post, pat, rep) == pre + rep + post
  {
    assert pre + pat + post == pre + (pat + post);
    ReplaceKeepsPrefix(pre, pat + post, pat, rep);
    ReplaceAt(pat, post, rep);
    ReplaceAbsent(post, pat, rep);
    assert pre + (rep + post) == pre + rep + post;
  }

  /** A prefix without the pattern's first character passes through
      unchanged. */
  lemma {:induction false} ReplaceKeepsPrefix(pre: string, x: string, pat: string, rep: string)
    requires |pat| > 0 && pat[0] !in pre
    ensures Replace(pre + x, pat, rep) == pre + Replace(x, pat, rep)
    decreases |pre|
  {
    if pre == [] {
      assert pre + x == x;
    } else {
      var t := pre[1..] + x;
      assert pre + x == [pre[0]] + t;
      assert pre[0] in pre;
      ReplaceCons(pre[0], t, pat, rep);
      ReplaceKeepsPrefix(pre[1..], x, pat, rep);
      assert [pre[0]] + (pre[1..] + Replace(x, pat, rep)) == pre + Replace(x, pat, rep);
    }
  }

  /** A text that starts with the pattern has that occurrence replaced. */
  lemma ReplaceAt(pat: string, post: string, rep: string)
    requires |pat| > 0
    ensures Replace(pat + post, pat, rep) == rep + Replace(post, pat, rep)
  {
    assert pat <= pat + post;
    assert (pat + post)[|pat|..] == post;
  }

  /** A first character that differs from the pattern's is kept. */
  lemma ReplaceCons(c: char, t: string, pat: string, rep: string)
    requires |pat| > 0 && c != pat[0]
    ensures Replace([c] + t, pat, rep) == [c] + Replace(t, pat, rep)
  {
    var s := [c] + t;
    assert s[0] == c && s[1..] == t;
    assert !(pat <= s);
  }

  /** How many positions of `s` start an occurrence of `pat` (overlaps counted). */
  function Occurrences(s: string, pat: string): nat
    decreases |s|
  {
    (if pat <= s then 1 else 0) + (if s == [] then 0 else Occurrences(s[1..], pat))
  }

  /** `Occurrences` counts exactly the positions that start the pattern. */
  lemma {:induction false} OccurrencesPositive(s: string, pat: string)
    ensures Occurrences(s, pat) > 0 <==> Contains(s, pat)
    decreases |s|
  {
    assert s[0..] == s;
    if s != [] {
      OccurrencesPositive(s[1..], pat);
      if Contains(s[1..], pat) {
        var i :| 0 <= i <= |s[1..]| && pat <= s[1..][i..];
        assert s[1..][i..] == s[i + 1..];
      }
      if Contains(s, pat) && !(pat <= s) {
        var i :| 0 <= i <= |s| && pat <= s[i..];
        assert i > 0;
        assert s[1..][i - 1..] == s[i..];
      }
    }
  }

  /** A pattern whose character at `k` is `c` cannot start anywhere in a text
      that has no `c` from position `k` on. */
  lemma {:induction false} NoOccurrenceWithout(t: string, pat: string, k: nat, c: char)
    requires k < |pat| && pat[k] == c
    requires forall j | k <= j < |t| :: t[j] != c
    ensures Occurrences(t, pat) == 0
    decreases |t|
  {
    if t != [] {
      NoOccurrenceWithout(t[1..], pat, k, c);
    }
  }

  /** A pattern `a + [c] + b` whose only `c` is the marked one occurs exactly
      once in `pre + pat + post` when neither `pre` nor `post` holds a `c`. */
  lemma {:induction false} OccursOnce(pre: string, a: string, c: char, b: string, post: string)
    requires c !in pre && c !in a && c !in b && c !in post
    ensures Occurrences(pre + (a + [c] + b) + post, a + [c] + b) == 1
    decreases |pre|
  {
    var pat := a + [c] + b;
    var k := |a|;
    assert pat[k] == c;
    var s := pre + pat + post;
    if pre == [] {
      assert s == pat + post;
      assert pat <= s;
      var t := s[1..];
      forall j | k <= j < |t| ensures t[j] != c {
        assert t[j] == s[j + 1];
        if j + 1 < |pat| {
          assert j + 1 > k;
          assert s[j + 1] == b[j + 1 - k - 1];
        } else {
          assert s[j + 1] == post[j + 1 - |pat|];
        }
      }
      NoOccurrenceWithout(t, pat, k, c);
    } else {
      assert s[1..] == pre[1..] + pat + post;
      OccursOnce(pre[1..], a, c, b, post);
    }
  }

  /** The text built by appending the pieces one after another with `+=`. */
  function Concat(pieces: seq<string>): string
    decreases |pieces|
  {
    if pieces == [] then [] else Concat(pieces[..|pieces| - 1]) + pieces[|pieces| - 1]
  }

  /** A character none of the pieces holds is not in their concatenation. */
  lemma {:induction false} ConcatFree(pieces: seq<string>, c: char)
    requires forall k | 0 <= k < |pieces| :: c !in pieces[k]
    ensures c !in Concat(pieces)
    decreases |pieces|
  {
    if pieces != [] {
      ConcatFree(pieces[..|pieces| - 1], c);
    }
  }

  /** A text without the separator splits into itself alone. */
  lemma SplitAbsent(s: string, sep: char)
    requires sep !in s
    ensures Split(s, sep) == [s]
  {
    SplitJoin([s], sep);
  }

  /** Python's `s[:-1] if s and s[-1] == ch else s`. */
  function TrimLast(s: string, ch: char): (r: string)
    ensures r == s || s == r + [ch]
  {
    if |s| > 0 && s[|s| - 1] == ch then s[..|s| - 1] else s
  }

  /** A character of the digits 0-9. */
  predicate IsDigit(c: char) { '0' <= c <= '9' }

  function DigitChar(d: nat): (c: char)
    requires d < 10
    ensures IsDigit(c) && (c as int) - ('0' as int) == d
  {
    (('0' as int) + d) as char
  }

  /** Python's `str(n)` for a natural number: its decimal digits. */
  function DecimalString(n: nat): (s: string)
    decreases n
  {
    if n < 10 then [DigitChar(n)] else DecimalString(n / 10) + [DigitChar(n % 10)]
  }

  /** The number a string of decimal digits denotes. */
  function DigitsValue(s: string): nat
    requires forall i | 0 <= i < |s| :: IsDigit(s[i])
    decreases |s|
  {
    if s == [] then 0
    else
      assert IsDigit(s[|s| - 1]);
      10 * DigitsValue(s[..|s| - 1]) + ((s[|s| - 1] as int) - ('0' as int))
  }

  function Pow10(e: nat): (p: nat)
    ensures p >= 1
  {
    if e == 0 then 1 else 10 * Pow10(e - 1)
  }

  /** `str(n)` is made of digits, denotes `n`, has no leading zero, and has
      `e + 1` digits exactly when `10^e <= n < 10^(e+1)`. */
  lemma {:induction false} DecimalStringDigits(n: nat, e: nat)
    requires Pow10(e) <= n < 10 * Pow10(e)
    ensures |DecimalString(n)| == e + 1
    ensures forall i | 0 <= i < |DecimalString(n)| :: IsDigit(DecimalString(n)[i])
    ensures DigitsValue(DecimalString(n)) == n
    ensures DecimalString(n)[0] != '0'
    decreases n
  {
    var s := DecimalString(n);
    if e == 0 {
      assert s == [DigitChar(n)];
      assert s[..0] == [];
    } else {
      assert n >= 10;
      DecimalStringDigits(n / 10, e - 1);
      var h := DecimalString(n / 10);
      assert s == h + [DigitChar(n % 10)];
      assert s[..|s| - 1] == h;
      assert s[0] == h[0];
    }
  }
}
