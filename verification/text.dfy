/**
 * The two string operations the calculator applies to a grade token:
 * Python's `str.strip()` (no argument) and `str.upper()`.
 */
module Text {

  /** The characters Python's `str.isspace()` accepts; `str.strip()` removes these from both ends. */
  predicate IsSpace(c: char) {
    || ('\t' <= c <= '\r')
    || ('\U{1C}' <= c <= '\U{1F}')
    || c == ' '
    || c == '\U{85}'
    || c == '\U{A0}'
    || c == '\U{1680}'
    || ('\U{2000}' <= c <= '\U{200A}')
    || c == '\U{2028}'
    || c == '\U{2029}'
    || c == '\U{202F}'
    || c == '\U{205F}'
    || c == '\U{3000}'
  }

  predicate AllSpace(s: string) {
    forall i :: 0 <= i < |s| ==> IsSpace(s[i])
  }

  /** Neither end of `s` is whitespace (the empty string qualifies). */
  predicate IsStripped(s: string) {
    s == [] || (!IsSpace(s[0]) && !IsSpace(s[|s| - 1]))
  }

  /** `s` without its leading whitespace. */
  function TrimLeft(s: string): (r: string)
    ensures |r| <= |s| && r == s[|s| - |r|..]
    ensures AllSpace(s[..|s| - |r|])
    ensures r == [] || !IsSpace(r[0])
    decreases |s|
  {
    if |s| > 0 && IsSpace(s[0]) then
      var r := TrimLeft(s[1..]);
      SpaceThenSpace(s, |s| - 1 - |r|);
      r
    else s
  }

  /** A leading whitespace character followed by `n` more keeps the first `n + 1` characters whitespace. */
  lemma SpaceThenSpace(s: string, n: nat)
    requires 0 < |s| && IsSpace(s[0]) && n <= |s| - 1 && AllSpace(s[1..][..n])
    ensures AllSpace(s[..n + 1]) && s[1..][n..] == s[n + 1..]
  {
    assert s[..n + 1] == [s[0]] + s[1..][..n];
  }

  /** `s` without its trailing whitespace. */
  function TrimRight(s: string): (r: string)
    ensures |r| <= |s| && r == s[..|r|]
    ensures AllSpace(s[|r|..])
    ensures r == [] || !IsSpace(r[|r| - 1])
    decreases |s|
  {
    if |s| > 0 && IsSpace(s[|s| - 1]) then
      var r := TrimRight(s[..|s| - 1]);
      assert s[|r|..] == s[..|s| - 1][|r|..] + [s[|s| - 1]];
      r
    else s
  }

  /** `r` is what is left of `s` after removing the whitespace-only `s[..i]` and a whitespace-only tail. */
  predicate IsMiddle(s: string, r: string, i: int) {
    0 <= i <= |s| - |r| && s[i..i + |r|] == r && AllSpace(s[..i]) && AllSpace(s[i + |r|..])
  }

  /** Python's `s.strip()`: the middle of `s` left after removing whitespace from both ends. */
  function Strip(s: string): (r: string)
    ensures IsStripped(r)
    ensures exists i :: IsMiddle(s, r, i)
  {
    TrimmedEnds(s);
    TrimmedMiddle(s);
    TrimRight(TrimLeft(s))
  }

  lemma TrimmedEnds(s: string)
    ensures IsStripped(TrimRight(TrimLeft(s)))
  {
    var left := TrimLeft(s);
    var r := TrimRight(left);
    if r != [] {
      assert r[0] == left[0];
    }
  }

  lemma TrimmedMiddle(s: string)
    ensures IsMiddle(s, TrimRight(TrimLeft(s)), |s| - |TrimLeft(s)|)
  {
    MiddleOfSlices(s, TrimLeft(s), TrimRight(TrimLeft(s)));
  }

  /** Removing a whitespace prefix and then a whitespace suffix leaves a middle. */
  lemma MiddleOfSlices(s: string, left: string, r: string)
    requires |left| <= |s| && left == s[|s| - |left|..] && AllSpace(s[..|s| - |left|])
    requires |r| <= |left| && r == left[..|r|] && AllSpace(left[|r|..])
    ensures IsMiddle(s, r, |s| - |left|)
  {
    var i := |s| - |left|;
    SlicesOfSuffix(s, i, |r|);
    assert s[i..i + |r|] == r;
    assert s[i + |r|..] == left[|r|..];
  }

  /** Slicing the suffix `s[i..]` is slicing `s` shifted by `i`. */
  lemma SlicesOfSuffix(s: string, i: nat, n: nat)
    requires i + n <= |s|
    ensures s[i..][..n] == s[i..i + n]
    ensures s[i..][n..] == s[i + n..]
  {
  }

  /** Leading whitespace never survives `TrimLeft`. */
  lemma {:induction false} TrimLeftSkipsSpace(w: string, x: string)
    requires AllSpace(w)
    ensures TrimLeft(w + x) == TrimLeft(x)
    decreases |w|
  {
    if w != [] {
      assert (w + x)[1..] == w[1..] + x;
      TrimLeftSkipsSpace(w[1..], x);
    } else {
      assert w + x == x;
    }
  }

  /** Trailing whitespace never survives `TrimRight`. */
  lemma {:induction false} TrimRightSkipsSpace(x: string, w: string)
    requires AllSpace(w)
    ensures TrimRight(x + w) == TrimRight(x)
    decreases |w|
  {
    if w != [] {
      var n := |x + w|;
      assert (x + w)[..n - 1] == x + w[..|w| - 1];
      TrimRightSkipsSpace(x, w[..|w| - 1]);
    } else {
      assert x + w == x;
    }
  }

  /** Once a non-space character has been reached, `TrimLeft` leaves the rest alone. */
  lemma {:induction false} TrimLeftKeepsTail(x: string, w: string)
    requires !AllSpace(x)
    ensures TrimLeft(x + w) == TrimLeft(x) + w
    decreases |x|
  {
    assert x != [];
    assert (x + w)[0] == x[0];
    if IsSpace(x[0]) {
      assert (x + w)[1..] == x[1..] + w;
      assert !AllSpace(x[1..]) by {
        var k :| 0 <= k < |x| && !IsSpace(x[k]);
        assert k > 0 && x[1..][k - 1] == x[k];
      }
      TrimLeftKeepsTail(x[1..], w);
    }
  }

  /**
   * Whitespace around a token does not change what `strip` returns:
   * `(w1 + g + w2).strip() == g.strip()` for whitespace-only `w1`, `w2`.
   */
  lemma StripIgnoresSurroundingSpace(w1: string, g: string, w2: string)
    requires AllSpace(w1) && AllSpace(w2)
    ensures Strip(w1 + g + w2) == Strip(g)
  {
    TrimsIgnoreSurroundingSpace(w1, g, w2);
  }

  lemma TrimsIgnoreSurroundingSpace(w1: string, g: string, w2: string)
    requires AllSpace(w1) && AllSpace(w2)
    ensures TrimRight(TrimLeft(w1 + g + w2)) == TrimRight(TrimLeft(g))
  {
    assert w1 + g + w2 == w1 + (g + w2);
    TrimLeftSkipsSpace(w1, g + w2);
    if AllSpace(g) {
      TrimsOfSpaceThenSpace(g, w2);
    } else {
      TrimsOfTokenThenSpace(g, w2);
    }
  }

  lemma TrimsOfSpaceThenSpace(g: string, w2: string)
    requires AllSpace(g) && AllSpace(w2)
    ensures TrimLeft(g + w2) == TrimLeft(g) == []
  {
    assert AllSpace(g + w2) by {
      forall k | 0 <= k < |g + w2|
        ensures IsSpace((g + w2)[k])
      {
        if k < |g| {
          assert (g + w2)[k] == g[k];
        } else {
          assert (g + w2)[k] == w2[k - |g|];
        }
      }
    }
    TrimLeftOfSpace(g);
    TrimLeftOfSpace(g + w2);
  }

  lemma TrimsOfTokenThenSpace(g: string, w2: string)
    requires !AllSpace(g) && AllSpace(w2)
    ensures TrimRight(TrimLeft(g + w2)) == TrimRight(TrimLeft(g))
  {
    TrimLeftKeepsTail(g, w2);
    TrimRightSkipsSpace(TrimLeft(g), w2);
  }

  lemma TrimLeftOfSpace(s: string)
    requires AllSpace(s)
    ensures TrimLeft(s) == []
  {
  }

  /** A string with no whitespace at either end is its own `strip`. */
  lemma StrippedIsFixed(s: string)
    requires IsStripped(s)
    ensures Strip(s) == s
  {
  }

  /** `strip` is idempotent. */
  lemma StripIdempotent(s: string)
    ensures Strip(Strip(s)) == Strip(s)
  {
    StrippedIsFixed(Strip(s));
  }

  /** Python's `str.upper()` on one character, for the ASCII letters; every other character is kept. */
  function UpperChar(c: char): (u: char)
    ensures !('a' <= u <= 'z')
    ensures 'a' <= c <= 'z' ==> u as int == c as int - 32
    ensures !('a' <= c <= 'z') ==> u == c
  {
    if 'a' <= c <= 'z' then (c as int - 32) as char else c
  }

  /** Python's `s.upper()`, character by character. */
  function Upper(s: string): (r: string)
    ensures |r| == |s|
    ensures forall i :: 0 <= i < |s| ==> r[i] == UpperChar(s[i])
  {
    if s == [] then [] else [UpperChar(s[0])] + Upper(s[1..])
  }

  /** `a` and `b` are the same text once case is ignored. */
  predicate SameIgnoringCase(a: string, b: string) {
    |a| == |b| && forall i :: 0 <= i < |a| ==> UpperChar(a[i]) == UpperChar(b[i])
  }

  /** Two strings have the same upper-case form exactly when they agree ignoring case. */
  lemma UpperEqualIffSameIgnoringCase(a: string, b: string)
    ensures Upper(a) == Upper(b) <==> SameIgnoringCase(a, b)
  {
    if SameIgnoringCase(a, b) {
      assert forall i :: 0 <= i < |a| ==> Upper(a)[i] == Upper(b)[i];
    }
  }
}
