/** The string operations the forms use: `String.prototype.trim`, and
    `Array.prototype.join` together with the line split that undoes it. */
module Text {

  /** ECMAScript WhiteSpace and LineTerminator code points, the set `trim` strips:
      tab, line feed, vertical tab, form feed, carriage return, space, no-break
      space, the Unicode space separators, the line and paragraph separators and
      the byte order mark. */
  predicate IsWhitespace(c: char) {
    || '\t' <= c <= '\r'
    || c == ' '
    || c == '\U{00A0}'
    || c == '\U{1680}'
    || '\U{2000}' <= c <= '\U{200A}'
    || c == '\U{2028}' || c == '\U{2029}'
    || c == '\U{202F}' || c == '\U{205F}' || c == '\U{3000}'
    || c == '\U{FEFF}'
  }

  /** Every character of `s` at an index in [lo, hi) is whitespace. */
  predicate WhitespaceBetween(s: string, lo: int, hi: int) {
    forall i :: lo <= i < hi && 0 <= i < |s| ==> IsWhitespace(s[i])
  }

  /** Every character of `s` is whitespace (vacuously so for ""). */
  predicate AllWhitespace(s: string) {
    WhitespaceBetween(s, 0, |s|)
  }

  /** `s` with its leading whitespace removed: a suffix of `s`. */
  function TrimStart(s: string): (r: string)
    ensures |r| <= |s| && r == s[|s| - |r|..]
    ensures WhitespaceBetween(s, 0, |s| - |r|)
    ensures r != [] ==> !IsWhitespace(r[0])
  {
    if s != [] && IsWhitespace(s[0]) then TrimStart(s[1..]) else s
  }

  /** `s` with its trailing whitespace removed: a prefix of `s`. */
  function TrimEnd(s: string): (r: string)
    ensures |r| <= |s| && r == s[..|r|]
    ensures WhitespaceBetween(s, |r|, |s|)
    ensures r != [] ==> !IsWhitespace(r[|r| - 1])
  {
    if s != [] && IsWhitespace(s[|s| - 1]) then TrimEnd(s[..|s| - 1]) else s
  }

  /** `s.trim()`: the infix of `s` left once the whitespace at both ends is gone. */
  function Trim(s: string): (r: string)
    ensures r != [] ==> !IsWhitespace(r[0]) && !IsWhitespace(r[|r| - 1])
    ensures r == [] <==> AllWhitespace(s)
  {
    TrimEnd(TrimStart(s))
  }

  /** What `trim` removes is whitespace at the two ends and nothing else: the
      result is the infix of `s` that starts after the leading whitespace. */
  lemma TrimIsInfix(s: string)
    ensures var r, lo := Trim(s), |s| - |TrimStart(s)|;
      lo + |r| <= |s| && r == s[lo..lo + |r|] &&
      WhitespaceBetween(s, 0, lo) && WhitespaceBetween(s, lo + |r|, |s|)
  {
    var t := TrimStart(s);
    var r := TrimEnd(t);
    var lo := |s| - |t|;
    assert t == s[lo..];
    assert r == t[..|r|];
    WhitespaceShift(s, lo, |r|, |t|);
  }

  /** Whitespace found in the suffix `s[lo..]` lies at shifted indices of `s`. */
  lemma WhitespaceShift(s: string, lo: nat, a: int, b: int)
    requires lo <= |s| && 0 <= a && WhitespaceBetween(s[lo..], a, b)
    ensures WhitespaceBetween(s, a + lo, b + lo)
  {
    forall i | a + lo <= i < b + lo && 0 <= i < |s|
      ensures IsWhitespace(s[i])
    {
      assert s[lo..][i - lo] == s[i];
    }
  }

  /** `!s.trim()`: the JavaScript test for a blank input. */
  predicate IsBlank(s: string)
    ensures IsBlank(s) <==> AllWhitespace(s)
  {
    Trim(s) == []
  }

  lemma {:induction false} TrimStartOfTrimmed(s: string)
    requires s == [] || !IsWhitespace(s[0])
    ensures TrimStart(s) == s
  {
  }

  lemma {:induction false} TrimEndOfTrimmed(s: string)
    requires s == [] || !IsWhitespace(s[|s| - 1])
    ensures TrimEnd(s) == s
  {
  }

  /** Trimming twice is trimming once. */
  lemma {:induction false} TrimIdempotent(s: string)
    ensures Trim(Trim(s)) == Trim(s)
  {
    var r := Trim(s);
    TrimStartOfTrimmed(r);
    assert TrimStart(r) == r;
    TrimEndOfTrimmed(r);
    assert Trim(r) == TrimEnd(TrimStart(r)) == TrimEnd(r) == r;
  }

  /** `xs.join(sep)`. */
  function Join(xs: seq<string>, sep: string): (r: string)
    ensures |xs| == 1 ==> r == xs[0]
  {
    if xs == [] then ""
    else if |xs| == 1 then xs[0]
    else xs[0] + sep + Join(xs[1..], sep)
  }

  /** `s.split("\n")`: the pieces between line feeds, in order. */
  function SplitLines(s: string): (r: seq<string>)
    ensures |r| >= 1
    ensures forall i :: 0 <= i < |r| ==> '\n' !in r[i]
  {
    if s == [] then [""]
    else if s[0] == '\n' then [""] + SplitLines(s[1..])
    else
      var rest := SplitLines(s[1..]);
      [[s[0]] + rest[0]] + rest[1..]
  }

  lemma {:induction false} SplitLinesNoBreak(a: string)
    requires '\n' !in a
    ensures SplitLines(a) == [a]
  {
    if a != [] {
      assert a[0] in a;
      SplitLinesNoBreak(a[1..]);
      assert [a[0]] + a[1..] == a;
    }
  }

  lemma {:induction false} SplitLinesAfterBreak(a: string, b: string)
    requires '\n' !in a
    ensures SplitLines(a + "\n" + b) == [a] + SplitLines(b)
  {
    if a == [] {
      assert a + "\n" + b == "\n" + b;
      assert ("\n" + b)[1..] == b;
    } else {
      SplitLinesAfterBreak(a[1..], b);
      assert (a + "\n" + b)[1..] == a[1..] + "\n" + b;
      assert [a[0]] + a[1..] == a;
    }
  }

  /** Splitting a line-feed join gives back the lines, provided none holds a line
      feed itself; the empty list is excluded since it joins to "" like [""]. */
  lemma {:induction false} SplitJoinRoundTrip(xs: seq<string>)
    requires |xs| >= 1
    requires forall i :: 0 <= i < |xs| ==> '\n' !in xs[i]
    ensures SplitLines(Join(xs, "\n")) == xs
  {
    if |xs| == 1 {
      SplitLinesNoBreak(xs[0]);
    } else {
      SplitJoinRoundTrip(xs[1..]);
      SplitLinesAfterBreak(xs[0], Join(xs[1..], "\n"));
      assert [xs[0]] + xs[1..] == xs;
    }
  }
}
