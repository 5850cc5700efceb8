/**
 * `str::trim` and the whitespace test it uses (`char::is_whitespace`, the
 * Unicode `White_Space` property).
 */
module Strings {
  /** `char::is_whitespace`: the code points with the Unicode `White_Space` property. */
  predicate IsWhitespace(c: char)
  {
    var n := c as int;
    || 0x09 <= n <= 0x0D || n == 0x20 || n == 0x85 || n == 0xA0 || n == 0x1680
    || 0x2000 <= n <= 0x200A || n == 0x2028 || n == 0x2029 || n == 0x202F || n == 0x205F || n == 0x3000
  }

  /** Every character of `s` is whitespace. */
  predicate AllWhitespace(s: string)
  {
    forall i :: 0 <= i < |s| ==> IsWhitespace(s[i])
  }

  /** `str::trim_start`: `s` without its leading whitespace. */
  function TrimStart(s: string): (r: string)
    ensures |r| <= |s| && r == s[|s| - |r|..]
    ensures forall i :: 0 <= i < |s| - |r| ==> IsWhitespace(s[i])
    ensures r != [] ==> !IsWhitespace(r[0])
  {
    if s != [] && IsWhitespace(s[0]) then
      var r := TrimStart(s[1..]);
      assert forall i :: 1 <= i < |s| - |r| ==> s[i] == s[1..][i - 1];
      r
    else s
  }

  /** `str::trim_end`: `s` without its trailing whitespace. */
  function TrimEnd(s: string): (r: string)
    ensures |r| <= |s| && r == s[..|r|]
    ensures forall i :: |r| <= i < |s| ==> IsWhitespace(s[i])
    ensures r != [] ==> !IsWhitespace(r[|r| - 1])
  {
    if s != [] && IsWhitespace(s[|s| - 1]) then
      var r := TrimEnd(s[..|s| - 1]);
      assert forall i :: |r| <= i < |s| - 1 ==> s[i] == s[..|s| - 1][i];
      r
    else s
  }

  /** `str::trim`: `s` without its leading and trailing whitespace. */
  function Trim(s: string): (r: string)
  {
    TrimEnd(TrimStart(s))
  }

  /**
   * `Trim(s)` is the middle `s[a..b]` of `s`: only whitespace lies before `a`
   * and from `b` on, and the middle neither starts nor ends with whitespace.
   */
  lemma TrimSlice(s: string) returns (a: nat, b: nat)
    ensures a <= b <= |s| && Trim(s) == s[a..b]
    ensures forall i :: 0 <= i < a ==> IsWhitespace(s[i])
    ensures forall i :: b <= i < |s| ==> IsWhitespace(s[i])
    ensures a < b ==> !IsWhitespace(s[a]) && !IsWhitespace(s[b - 1])
  {
    var t := TrimStart(s);
    a := |s| - |t|;
    var r := TrimEnd(t);
    b := a + |r|;
    assert r == t[..|r|];
    assert r == s[a..b];
    forall i | b <= i < |s|
      ensures IsWhitespace(s[i])
    {
      assert s[i] == t[i - a];
    }
    if a < b {
      assert s[a] == r[0] && s[b - 1] == r[|r| - 1];
    }
  }

  /** Trimming leading whitespace off a string that has none changes nothing. */
  lemma TrimStartNoop(s: string)
    requires s != [] ==> !IsWhitespace(s[0])
    ensures TrimStart(s) == s
  {
  }

  /** Trimming trailing whitespace off a string that has none changes nothing. */
  lemma TrimEndNoop(s: string)
    requires s != [] ==> !IsWhitespace(s[|s| - 1])
    ensures TrimEnd(s) == s
  {
  }

  /** Whitespace in front of a string is all `TrimStart` removes. */
  lemma {:induction false} TrimStartPrefix(w: string, t: string)
    requires AllWhitespace(w)
    ensures TrimStart(w + t) == TrimStart(t)
    decreases |w|
  {
    if w != [] {
      assert (w + t)[1..] == w[1..] + t;
      TrimStartPrefix(w[1..], t);
    } else {
      assert w + t == t;
    }
  }

  /** Whitespace after a string is all `TrimEnd` removes. */
  lemma {:induction false} TrimEndSuffix(t: string, w: string)
    requires AllWhitespace(w)
    ensures TrimEnd(t + w) == TrimEnd(t)
    decreases |w|
  {
    if w != [] {
      assert (t + w)[..|t + w| - 1] == t + w[..|w| - 1];
      TrimEndSuffix(t, w[..|w| - 1]);
    } else {
      assert t + w == t;
    }
  }

  /**
   * The decomposition is unique: surrounded by whitespace, a text that neither
   * starts nor ends with whitespace is exactly what `Trim` gives back.
   */
  lemma TrimAround(w1: string, t: string, w2: string)
    requires AllWhitespace(w1) && AllWhitespace(w2)
    requires t != [] ==> !IsWhitespace(t[0]) && !IsWhitespace(t[|t| - 1])
    ensures Trim(w1 + t + w2) == t
  {
    if t == [] {
      assert w1 + t + w2 == w1 + w2;
      assert AllWhitespace(w1 + w2);
      TrimStartPrefix(w1 + w2, []);
      assert (w1 + w2) + [] == w1 + w2;
    } else {
      assert w1 + t + w2 == w1 + (t + w2);
      TrimStartPrefix(w1, t + w2);
      TrimStartNoop(t + w2);
      TrimEndSuffix(t, w2);
      TrimEndNoop(t);
    }
  }

  /** Trimming twice trims no more than once. */
  lemma TrimIdempotent(s: string)
    ensures Trim(Trim(s)) == Trim(s)
  {
    var r := Trim(s);
    var a, b := TrimSlice(s);
    if r != [] {
      assert r[0] == s[a] && r[|r| - 1] == s[b - 1];
    }
    TrimAround([], r, []);
    assert [] + r + [] == r;
  }

  /** A string trims to nothing exactly when it is all whitespace. */
  lemma TrimEmpty(s: string)
    ensures Trim(s) == [] <==> AllWhitespace(s)
  {
    var a, b := TrimSlice(s);
    if AllWhitespace(s) {
      TrimAround(s, [], []);
      assert s + [] + [] == s;
    }
  }
}
