/**
 * The few Python built-ins the modelled code leans on: list subscription
 * (with its negative indices and its IndexError) and `str.strip()`.
 */
module Builtins {
  import opened Wrappers

  /** The exceptions the modelled code can raise. */
  datatype Exception = IndexError

  /**
   * `xs[i]` for a Python list: a non-negative index counts from the front,
   * a negative one from the back; anything else raises IndexError.
   */
  function Subscript<T>(xs: seq<T>, i: int): (r: Result<T, Exception>)
    ensures r.Success? <==> -|xs| <= i < |xs|
    ensures 0 <= i < |xs| ==> r == Success(xs[i])
    ensures -|xs| <= i < 0 ==> r == Success(xs[|xs| + i])
  {
    if 0 <= i < |xs| then Success(xs[i])
    else if -|xs| <= i < 0 then Success(xs[|xs| + i])
    else Failure(IndexError)
  }

  /**
   * The characters `str.isspace()` accepts, i.e. those `str.strip()` removes
   * when called without arguments.
   */
  predicate IsSpace(c: char) {
    || '\t' <= c <= '\r'
    || '\U{1c}' <= c <= ' '
    || c == '\U{85}' || c == '\U{a0}' || c == '\U{1680}'
    || '\U{2000}' <= c <= '\U{200a}'
    || c == '\U{2028}' || c == '\U{2029}' || c == '\U{202f}' || c == '\U{205f}'
    || c == '\U{3000}'
  }

  /** Every character of `s` is whitespace. */
  predicate AllSpace(s: string) {
    forall k :: 0 <= k < |s| ==> IsSpace(s[k])
  }

  /** Index of the first non-whitespace character of `s` at or after `i` (or `|s|`). */
  function SkipSpace(s: string, i: nat): (k: nat)
    requires i <= |s|
    ensures i <= k <= |s|
    ensures AllSpace(s[i..k])
    ensures k < |s| ==> !IsSpace(s[k])
    decreases |s| - i
  {
    if i == |s| || !IsSpace(s[i]) then i else SkipSpace(s, i + 1)
  }

  /** One past the last non-whitespace character of `s[lo..hi]` (or `lo`). */
  function SkipSpaceBack(s: string, lo: nat, hi: nat): (k: nat)
    requires lo <= hi <= |s|
    ensures lo <= k <= hi
    ensures AllSpace(s[k..hi])
    ensures k > lo ==> !IsSpace(s[k - 1])
    decreases hi
  {
    if hi == lo || !IsSpace(s[hi - 1]) then hi
    else
      var k := SkipSpaceBack(s, lo, hi - 1);
      assert s[k..hi] == s[k..hi - 1] + [s[hi - 1]];
      k
  }

  /**
   * `s.strip()`: `s` with its leading and trailing whitespace removed. The
   * result is a slice of `s` whose ends are not whitespace, and what was cut
   * off on either side is whitespace only.
   */
  function Strip(s: string): (r: string)
    ensures |r| <= |s|
    ensures r != [] ==> !IsSpace(r[0]) && !IsSpace(r[|r| - 1])
    ensures r == [] <==> AllSpace(s)
    ensures exists i :: 0 <= i <= |s| - |r| && IsStripOf(s, i, r)
  {
    var lo := SkipSpace(s, 0);
    var hi := SkipSpaceBack(s, lo, |s|);
    assert s[..lo] == s[0..lo];
    assert IsStripOf(s, lo, s[lo..hi]);
    assert lo == hi ==> AllSpace(s) by {
      if lo == hi { AllSpaceJoin(s, lo); }
    }
    s[lo..hi]
  }

  /** A string that is whitespace before and from index `i` on is all whitespace. */
  lemma AllSpaceJoin(s: string, i: nat)
    requires i <= |s| && AllSpace(s[..i]) && AllSpace(s[i..])
    ensures AllSpace(s)
  {
  }

  /** `r` starts at index `i` of `s`, and `s` is whitespace before and after it. */
  predicate IsStripOf(s: string, i: nat, r: string)
    requires i + |r| <= |s|
  {
    s[i..i + |r|] == r && AllSpace(s[..i]) && AllSpace(s[i + |r|..])
  }

  /** Stripping surrounding whitespace from an unpadded string gives that string back. */
  lemma StripPadded(w1: string, s: string, w2: string)
    requires AllSpace(w1) && AllSpace(w2)
    requires s != [] ==> !IsSpace(s[0]) && !IsSpace(s[|s| - 1])
    ensures Strip(w1 + s + w2) == s
  {
    var t := w1 + s + w2;
    var lo := SkipSpace(t, 0);
    if s == [] {
      assert AllSpace(t) by {
        forall k | 0 <= k < |t| ensures IsSpace(t[k]) {
          if k < |w1| { assert t[k] == w1[k]; } else { assert t[k] == w2[k - |w1|]; }
        }
      }
    } else {
      // The first non-space character of t is s[0], and the last one is s[|s| - 1].
      assert t[|w1|] == s[0];
      assert forall k :: 0 <= k < |w1| ==> t[k] == w1[k];
      assert lo == |w1|;
      var hi := SkipSpaceBack(t, lo, |t|);
      assert t[|w1| + |s| - 1] == s[|s| - 1];
      assert forall k :: |w1| + |s| <= k < |t| ==> t[k] == w2[k - |w1| - |s|];
      assert hi == |w1| + |s|;
      assert t[lo..hi] == s;
    }
  }
}
