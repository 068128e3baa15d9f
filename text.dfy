/**
 * String operations the component and the service rely on: trimming with the
 * whitespace sets of JavaScript and of Python, the `||` / `or` fallbacks of
 * the two languages, Python's `str.join`, the "each piece followed by a
 * newline" accumulation of the text extractors, and decimal rendering.
 */
module Text {
  import opened Common

  /** The characters JavaScript's `String.prototype.trim` removes: WhiteSpace
    * and LineTerminator of ECMA-262 (sections 12.2 and 12.3), with every
    * character of Unicode category Zs. */
  const JS_SPACES: set<char> := {
    '\t', '\n', '\U{B}', '\U{C}', '\r', ' ', '\U{A0}', '\U{1680}',
    '\U{2000}', '\U{2001}', '\U{2002}', '\U{2003}', '\U{2004}', '\U{2005}',
    '\U{2006}', '\U{2007}', '\U{2008}', '\U{2009}', '\U{200A}',
    '\U{2028}', '\U{2029}', '\U{202F}', '\U{205F}', '\U{3000}', '\U{FEFF}'}

  /** The characters Python's `str.strip()` removes: those `str.isspace` holds for. */
  const PY_SPACES: set<char> := {
    '\t', '\n', '\U{B}', '\U{C}', '\r', '\U{1C}', '\U{1D}', '\U{1E}', '\U{1F}',
    ' ', '\U{85}', '\U{A0}', '\U{1680}',
    '\U{2000}', '\U{2001}', '\U{2002}', '\U{2003}', '\U{2004}', '\U{2005}',
    '\U{2006}', '\U{2007}', '\U{2008}', '\U{2009}', '\U{200A}',
    '\U{2028}', '\U{2029}', '\U{202F}', '\U{205F}', '\U{3000}'}

  predicate IsJsSpace(c: char) {
    c in JS_SPACES
  }

  predicate IsPySpace(c: char) {
    c in PY_SPACES
  }

  ghost predicate AllSpace(s: string, isSpace: char -> bool) {
    forall i :: 0 <= i < |s| ==> isSpace(s[i])
  }

  /** The index of the first character of `s` from `k` on that is not a space, or `|s|`. */
  function SkipSpaces(s: string, k: nat, isSpace: char -> bool): (n: nat)
    requires k <= |s|
    ensures k <= n <= |s|
    decreases |s| - k
  {
    if k < |s| && isSpace(s[k]) then SkipSpaces(s, k + 1, isSpace) else k
  }

  /** Everything `SkipSpaces` passes over is a space, and it stops at a non-space. */
  lemma {:induction false} SkipSpacesStops(s: string, k: nat, isSpace: char -> bool)
    requires k <= |s|
    ensures forall i :: k <= i < SkipSpaces(s, k, isSpace) ==> isSpace(s[i])
    ensures SkipSpaces(s, k, isSpace) < |s| ==> !isSpace(s[SkipSpaces(s, k, isSpace)])
    decreases |s| - k
  {
    if k < |s| && isSpace(s[k]) {
      SkipSpacesStops(s, k + 1, isSpace);
    }
  }

  /** The index just past the last character of `s` before `k` that is not a
    * space, looking no further back than `lo`; `lo` when there is none. */
  function SkipSpacesBack(s: string, lo: nat, k: nat, isSpace: char -> bool): (n: nat)
    requires lo <= k <= |s|
    ensures lo <= n <= k
    decreases k
  {
    if k > lo && isSpace(s[k - 1]) then SkipSpacesBack(s, lo, k - 1, isSpace) else k
  }

  /** Everything `SkipSpacesBack` passes over is a space, and it stops after a non-space. */
  lemma {:induction false} SkipSpacesBackStops(s: string, lo: nat, k: nat, isSpace: char -> bool)
    requires lo <= k <= |s|
    ensures forall i :: SkipSpacesBack(s, lo, k, isSpace) <= i < k ==> isSpace(s[i])
    ensures SkipSpacesBack(s, lo, k, isSpace) > lo ==> !isSpace(s[SkipSpacesBack(s, lo, k, isSpace) - 1])
    decreases k
  {
    if k > lo && isSpace(s[k - 1]) {
      SkipSpacesBackStops(s, lo, k - 1, isSpace);
    }
  }

  /** Where the trimmed text starts and ends in `s`. */
  function TrimBounds(s: string, isSpace: char -> bool): (b: (nat, nat))
    ensures b.0 <= b.1 <= |s|
  {
    var lo := SkipSpaces(s, 0, isSpace);
    (lo, SkipSpacesBack(s, lo, |s|, isSpace))
  }

  /** The bounds cut off a space-only prefix and suffix and keep a text that
    * starts and ends with a non-space; an empty text is cut at the end. */
  lemma TrimBoundsSpec(s: string, isSpace: char -> bool)
    ensures var b := TrimBounds(s, isSpace);
      && (forall i :: 0 <= i < b.0 ==> isSpace(s[i]))
      && (forall i :: b.1 <= i < |s| ==> isSpace(s[i]))
      && (b.0 < b.1 ==> !isSpace(s[b.0]) && !isSpace(s[b.1 - 1]))
      && (b.0 == b.1 ==> b.0 == |s|)
  {
    var lo := SkipSpaces(s, 0, isSpace);
    SkipSpacesStops(s, 0, isSpace);
    SkipSpacesBackStops(s, lo, |s|, isSpace);
  }

  /** `s.trim()` in JavaScript, `s.strip()` in Python: `s` without its
    * space-only prefix and suffix. */
  function Trim(s: string, isSpace: char -> bool): (r: string)
    ensures |r| <= |s|
  {
    var b := TrimBounds(s, isSpace);
    s[b.0..b.1]
  }

  /** The trimmed text is empty exactly when `s` is blank, and otherwise
    * starts and ends with a non-space. */
  lemma TrimBlank(s: string, isSpace: char -> bool)
    ensures Trim(s, isSpace) == [] <==> AllSpace(s, isSpace)
    ensures var r := Trim(s, isSpace); r != [] ==> !isSpace(r[0]) && !isSpace(r[|r| - 1])
  {
    TrimBoundsSpec(s, isSpace);
  }

  /** What trimming removes is a blank prefix and a blank suffix: the result
    * is the slice of `s` between them. */
  lemma TrimIsSlice(s: string, isSpace: char -> bool)
    ensures exists lo, hi {:trigger s[lo..hi]} :: (
      && 0 <= lo <= hi <= |s|
      && Trim(s, isSpace) == s[lo..hi]
      && AllSpace(s[..lo], isSpace)
      && AllSpace(s[hi..], isSpace))
  {
    var b := TrimBounds(s, isSpace);
    TrimBoundsSpec(s, isSpace);
    assert AllSpace(s[..b.0], isSpace) by {
      forall i | 0 <= i < b.0 ensures isSpace(s[..b.0][i]) {
        assert s[..b.0][i] == s[i];
      }
    }
    assert AllSpace(s[b.1..], isSpace) by {
      forall i | 0 <= i < |s| - b.1 ensures isSpace(s[b.1..][i]) {
        assert s[b.1..][i] == s[b.1 + i];
      }
    }
    assert Trim(s, isSpace) == s[b.0..b.1];
  }

  /** Trimming twice removes nothing more. */
  lemma TrimIdempotent(s: string, isSpace: char -> bool)
    ensures Trim(Trim(s, isSpace), isSpace) == Trim(s, isSpace)
  {
    var r := Trim(s, isSpace);
    TrimBlank(s, isSpace);
    if r != [] {
      assert SkipSpaces(r, 0, isSpace) == 0;
      assert SkipSpacesBack(r, 0, |r|, isSpace) == |r|;
      assert r[0..|r|] == r;
    }
  }

  /** JavaScript's `a || b` where each side is a string or `undefined`:
    * `a` unless it is falsy (`undefined` or the empty string), else `b`. */
  function JsOr(a: Option<string>, b: Option<string>): (r: Option<string>)
    ensures (a.Some? && a.value != "") ==> r == a
    ensures !(a.Some? && a.value != "") ==> r == b
    ensures (r.Some? && r.value != "") <==> (a.Some? && a.value != "") || (b.Some? && b.value != "")
  {
    if a.Some? && a.value != "" then a else b
  }

  /** Python's `q or fallback` for `q: Optional[str]`: `None` and `""` are falsy. */
  function PyOr(q: Option<string>, fallback: string): (r: string)
    ensures q.Some? && q.value != "" ==> r == q.value
    ensures (q.None? || q.value == "") ==> r == fallback
    ensures fallback != "" ==> r != ""
  {
    if q.Some? && q.value != "" then q.value else fallback
  }

  /** Python's `sep.join(parts)`. */
  function JoinWith(sep: string, parts: seq<string>): (r: string)
    ensures |parts| == 1 ==> r == parts[0]
  {
    if |parts| == 0 then ""
    else if |parts| == 1 then parts[0]
    else JoinWith(sep, parts[..|parts| - 1]) + sep + parts[|parts| - 1]
  }

  function SumLen(parts: seq<string>): nat {
    if parts == [] then 0 else SumLen(parts[..|parts| - 1]) + |parts[|parts| - 1]|
  }

  /** A join of `n` parts holds every part and `n - 1` separators. */
  lemma {:induction false} JoinLength(sep: string, parts: seq<string>)
    requires parts != []
    ensures |JoinWith(sep, parts)| == SumLen(parts) + (|parts| - 1) * |sep|
  {
    if |parts| > 1 {
      JoinLength(sep, parts[..|parts| - 1]);
    }
  }

  /** Splitting the parts anywhere splits the join at a separator: the parts
    * appear in order, one separator between each two neighbours. */
  lemma {:induction false} JoinSplit(sep: string, parts: seq<string>, k: nat)
    requires 0 < k < |parts|
    ensures JoinWith(sep, parts) == JoinWith(sep, parts[..k]) + sep + JoinWith(sep, parts[k..])
    decreases |parts|
  {
    var n := |parts|;
    if k == n - 1 {
      assert parts[k..] == [parts[n - 1]];
    } else {
      JoinSplit(sep, parts[..n - 1], k);
      assert parts[..n - 1][..k] == parts[..k];
      assert parts[..n - 1][k..] == parts[k..][..|parts[k..]| - 1];
    }
  }

  /** The text the extractors build: every piece followed by "\n", in order
    * (`text += piece + "\n"` over the pieces). */
  function Terminated(pieces: seq<string>): string {
    if pieces == [] then ""
    else Terminated(pieces[..|pieces| - 1]) + pieces[|pieces| - 1] + "\n"
  }

  /** Read from the front, the accumulated text is the first piece, its
    * newline, then the text of the other pieces. */
  lemma {:induction false} TerminatedCons(p: string, pieces: seq<string>)
    ensures Terminated([p] + pieces) == p + "\n" + Terminated(pieces)
    decreases |pieces|
  {
    if pieces != [] {
      var n := |pieces|;
      assert ([p] + pieces)[..n] == [p] + pieces[..n - 1];
      TerminatedCons(p, pieces[..n - 1]);
    }
  }

  /** Exactly one newline is added per piece. */
  lemma {:induction false} TerminatedNewlines(pieces: seq<string>)
    ensures |Terminated(pieces)| == SumLen(pieces) + |pieces|
    ensures multiset(Terminated(pieces))['\n'] == |pieces| + NewlinesIn(pieces)
  {
    if pieces != [] {
      TerminatedNewlines(pieces[..|pieces| - 1]);
    }
  }

  function NewlinesIn(pieces: seq<string>): nat {
    if pieces == [] then 0
    else NewlinesIn(pieces[..|pieces| - 1]) + multiset(pieces[|pieces| - 1])['\n']
  }

  /** Index of the first "\n" in `s`, or `|s|` when there is none. */
  function NewlineIndex(s: string): (k: nat)
    ensures k <= |s|
    ensures k < |s| ==> s[k] == '\n'
    ensures forall i :: 0 <= i < k ==> s[i] != '\n'
  {
    if s == [] || s[0] == '\n' then 0 else 1 + NewlineIndex(s[1..])
  }

  /** The pieces of a text whose pieces are each ended by "\n" (Python's
    * `s.split("\n")` without the final empty piece). */
  function Lines(s: string): seq<string>
    decreases |s|
  {
    if s == [] then []
    else
      var k := NewlineIndex(s);
      if k == |s| then [s] else [s[..k]] + Lines(s[k + 1..])
  }

  /** Cutting the accumulated text at its newlines gives back the pieces,
    * when no piece holds a newline of its own. */
  lemma {:induction false} LinesOfTerminated(pieces: seq<string>)
    requires forall i :: 0 <= i < |pieces| ==> '\n' !in pieces[i]
    ensures Lines(Terminated(pieces)) == pieces
    decreases |pieces|
  {
    if pieces != [] {
      var p, rest := pieces[0], pieces[1..];
      assert pieces == [p] + rest;
      TerminatedCons(p, rest);
      var s := p + "\n" + Terminated(rest);
      assert s[|p|] == '\n';
      assert forall i :: 0 <= i < |p| ==> s[i] == p[i];
      assert NewlineIndex(s) == |p|;
      assert s[..|p|] == p;
      assert s[|p| + 1..] == Terminated(rest);
      LinesOfTerminated(rest);
    }
  }

  function DigitChar(d: nat): (c: char)
    requires d < 10
    ensures '0' <= c <= '9'
  {
    ['0', '1', '2', '3', '4', '5', '6', '7', '8', '9'][d]
  }

  /** Python's `str(n)` for a natural number. */
  function NatToDecimal(n: nat): (r: string)
    ensures r != []
    ensures forall i :: 0 <= i < |r| ==> '0' <= r[i] <= '9'
  {
    if n < 10 then [DigitChar(n)] else NatToDecimal(n / 10) + [DigitChar(n % 10)]
  }

  /** The number a string of decimal digits denotes. */
  function DecimalValue(s: string): nat
    requires forall i :: 0 <= i < |s| ==> '0' <= s[i] <= '9'
  {
    if s == [] then 0 else 10 * DecimalValue(s[..|s| - 1]) + (s[|s| - 1] as int - '0' as int)
  }

  /** Rendering in decimal loses nothing. */
  lemma {:induction false} NatToDecimalRoundTrip(n: nat)
    ensures DecimalValue(NatToDecimal(n)) == n
  {
    if n >= 10 {
      NatToDecimalRoundTrip(n / 10);
      var r := NatToDecimal(n);
      assert r[..|r| - 1] == NatToDecimal(n / 10);
    }
  }
}
