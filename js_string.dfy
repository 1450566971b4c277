/**
  `String.prototype.trim` as the input components use it: strip the white
  space and line terminators of ECMAScript from both ends of a string.
*/
module JsString {

  /** ECMAScript WhiteSpace (tab, VT, FF, space, NBSP, ZWNBSP, category Zs) and LineTerminator. */
  predicate IsWhiteSpace(c: char)
  {
    || c == '\t' || c == '\n' || c == '\U{000B}' || c == '\U{000C}' || c == '\r'
    || c == ' ' || c == '\U{00A0}' || c == '\U{1680}'
    || ('\U{2000}' <= c <= '\U{200A}')
    || c == '\U{2028}' || c == '\U{2029}' || c == '\U{202F}' || c == '\U{205F}'
    || c == '\U{3000}' || c == '\U{FEFF}'
  }

  predicate AllWhiteSpace(s: string)
  {
    forall i :: 0 <= i < |s| ==> IsWhiteSpace(s[i])
  }

  /** Drops the leading white space: what is left is a suffix of `s` that does not start with it. */
  function TrimStart(s: string): (r: string)
    ensures |r| <= |s| && r == s[|s| - |r|..]
    ensures AllWhiteSpace(s[..|s| - |r|])
    ensures r == [] || !IsWhiteSpace(r[0])
    ensures r == [] <==> AllWhiteSpace(s)
  {
    if s != [] && IsWhiteSpace(s[0]) then
      var r := TrimStart(s[1..]);
      TrimStartStep(s, r);
      r
    else
      assert s[..0] == [];
      s
  }

  /** One more leading white-space character is dropped along with the rest. */
  lemma TrimStartStep(s: string, r: string)
    requires s != [] && IsWhiteSpace(s[0])
    requires |r| <= |s| - 1 && r == s[1..][|s| - 1 - |r|..]
    requires AllWhiteSpace(s[1..][..|s| - 1 - |r|])
    requires r == [] <==> AllWhiteSpace(s[1..])
    ensures r == s[|s| - |r|..] && AllWhiteSpace(s[..|s| - |r|])
    ensures r == [] <==> AllWhiteSpace(s)
  {
    assert s[..|s| - |r|] == [s[0]] + s[1..][..|s| - 1 - |r|];
    assert s == [s[0]] + s[1..];
  }

  /** Drops the trailing white space: what is left is a prefix of `s` that does not end with it. */
  function TrimEnd(s: string): (r: string)
    ensures |r| <= |s| && r == s[..|r|]
    ensures AllWhiteSpace(s[|r|..])
    ensures r == [] || !IsWhiteSpace(r[|r| - 1])
    ensures r == [] <==> AllWhiteSpace(s)
  {
    if s != [] && IsWhiteSpace(s[|s| - 1]) then
      var r := TrimEnd(s[..|s| - 1]);
      TrimEndStep(s, r);
      r
    else
      assert s[|s|..] == [];
      s
  }

  /** One more trailing white-space character is dropped along with the rest. */
  lemma TrimEndStep(s: string, r: string)
    requires s != [] && IsWhiteSpace(s[|s| - 1])
    requires |r| <= |s| - 1 && r == s[..|s| - 1][..|r|]
    requires AllWhiteSpace(s[..|s| - 1][|r|..])
    requires r == [] <==> AllWhiteSpace(s[..|s| - 1])
    ensures r == s[..|r|] && AllWhiteSpace(s[|r|..])
    ensures r == [] <==> AllWhiteSpace(s)
  {
    assert s[|r|..] == s[..|s| - 1][|r|..] + [s[|s| - 1]];
    assert s == s[..|s| - 1] + [s[|s| - 1]];
  }

  /** `r` is `s` with the white space `s[..k]` cut off before it and only white space cut off after it. */
  predicate IsCutFrom(r: string, s: string, k: int)
  {
    && 0 <= k <= |s| - |r| && r == s[k..k + |r|]
    && AllWhiteSpace(s[..k]) && AllWhiteSpace(s[k + |r|..])
  }

  /**
    `s.trim()`: `s` with a white-space prefix and a white-space suffix cut
    off, leaving a piece that neither starts nor ends with white space.
  */
  function Trim(s: string): (r: string)
    ensures |r| <= |s|
    ensures exists k :: IsCutFrom(r, s, k)
    ensures r == [] || (!IsWhiteSpace(r[0]) && !IsWhiteSpace(r[|r| - 1]))
  {
    var t := TrimStart(s);
    var r := TrimEnd(t);
    TrimCutsAt(s, t, r);
    r
  }

  /**
    Cutting a white-space prefix off `s` and then a white-space suffix off
    what is left cuts one piece out of the middle of `s`, with no white space
    left at either end.
  */
  lemma TrimCutsAt(s: string, t: string, r: string)
    requires |t| <= |s| && t == s[|s| - |t|..] && AllWhiteSpace(s[..|s| - |t|])
    requires t == [] || !IsWhiteSpace(t[0])
    requires |r| <= |t| && r == t[..|r|] && AllWhiteSpace(t[|r|..])
    requires r == [] || !IsWhiteSpace(r[|r| - 1])
    ensures IsCutFrom(r, s, |s| - |t|)
    ensures r == [] || (!IsWhiteSpace(r[0]) && !IsWhiteSpace(r[|r| - 1]))
  {
    var k := |s| - |t|;
    assert s[k + |r|..] == t[|r|..];
    assert 0 <= k <= |s| - |r| && r == s[k..k + |r|];
    assert r != [] ==> r[0] == t[0];
  }

  /** The guard `!text.trim()` holds exactly for strings made only of white space (including ""). */
  lemma {:induction false} TrimEmptyIffAllWhiteSpace(s: string)
    ensures Trim(s) == [] <==> AllWhiteSpace(s)
  {
    var t := TrimStart(s);
    if TrimEnd(t) == [] {
      assert AllWhiteSpace(t);
      assert s == s[..|s| - |t|] + t;
    }
  }

  /** Trimming twice trims nothing more. */
  lemma {:induction false} TrimIdempotent(s: string)
    ensures Trim(Trim(s)) == Trim(s)
  {
    var r := Trim(s);
    if r != [] {
      assert TrimStart(r) == r;
      assert TrimEnd(r) == r;
    }
  }
}
