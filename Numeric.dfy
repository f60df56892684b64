/** Real-valued helpers shared by the power ledger: Unity's Mathf.Min and
    Mathf.Clamp01, and the left-to-right sums that the C# `foreach` loops
    accumulate. Power and money are `real`; IEEE rounding is not modelled. */
module Numeric {

  /** Mathf.Min(a, b). */
  function Min(a: real, b: real): (m: real)
    ensures m <= a && m <= b
    ensures m == a || m == b
  {
    if a < b then a else b
  }

  function Max(a: real, b: real): (m: real)
    ensures a <= m && b <= m
    ensures m == a || m == b
  {
    if a < b then b else a
  }

  /** Mathf.Clamp01(x). */
  function Clamp01(x: real): (c: real)
    ensures 0.0 <= c <= 1.0
    ensures 0.0 <= x <= 1.0 ==> c == x
    ensures x < 0.0 ==> c == 0.0
    ensures 1.0 < x ==> c == 1.0
  {
    if x < 0.0 then 0.0 else if 1.0 < x then 1.0 else x
  }

  /** Whether `x` lies between the two bounds, in either order (the range of
      UnityEngine.Random.Range(lo, hi) for floats). */
  predicate Between(x: real, lo: real, hi: real)
  {
    Min(lo, hi) <= x <= Max(lo, hi)
  }

  /** The sum a `foreach` loop accumulates, first element first. */
  function Sum(s: seq<real>): real
  {
    if s == [] then 0.0 else Sum(s[..|s| - 1]) + s[|s| - 1]
  }

  lemma SumPrefixStep(s: seq<real>, i: nat)
    requires i < |s|
    ensures Sum(s[..i + 1]) == Sum(s[..i]) + s[i]
  {
    assert s[..i + 1][..i] == s[..i];
  }

  lemma {:induction false} SumNonNegative(s: seq<real>)
    requires forall i :: 0 <= i < |s| ==> 0.0 <= s[i]
    ensures 0.0 <= Sum(s)
  {
    if s != [] {
      SumNonNegative(s[..|s| - 1]);
    }
  }

  /** Pointwise smaller sequences have smaller sums. */
  lemma {:induction false} SumMonotone(a: seq<real>, b: seq<real>)
    requires |a| == |b|
    requires forall i :: 0 <= i < |a| ==> a[i] <= b[i]
    ensures Sum(a) <= Sum(b)
  {
    if a != [] {
      SumMonotone(a[..|a| - 1], b[..|b| - 1]);
    }
  }

  /** Scaling every element scales the sum. */
  lemma {:induction false} SumScaled(a: seq<real>, b: seq<real>, r: real)
    requires |a| == |b|
    requires forall i :: 0 <= i < |a| ==> b[i] == a[i] * r
    ensures Sum(b) == Sum(a) * r
  {
    if a != [] {
      SumScaled(a[..|a| - 1], b[..|b| - 1], r);
      calc {
        Sum(b);
        Sum(b[..|b| - 1]) + b[|b| - 1];
        Sum(a[..|a| - 1]) * r + a[|a| - 1] * r;
        (Sum(a[..|a| - 1]) + a[|a| - 1]) * r;
        Sum(a) * r;
      }
    }
  }

  lemma SumAppend(s: seq<real>, x: real)
    ensures Sum(s + [x]) == Sum(s) + x
  {
    assert (s + [x])[..|s|] == s;
  }

  /** Replacing one element changes the sum by the difference. */
  lemma {:induction false} SumUpdate(s: seq<real>, i: nat, v: real)
    requires i < |s|
    ensures Sum(s[i := v]) == Sum(s) - s[i] + v
  {
    var n := |s| - 1;
    if i == n {
      assert s[i := v][..n] == s[..n];
    } else {
      SumUpdate(s[..n], i, v);
      assert s[i := v][..n] == s[..n][i := v];
    }
  }

  lemma PositiveFactor(x: real, y: real)
    requires 0.0 < y && 0.0 < x * y
    ensures 0.0 < x
  {
  }

  /** A smaller non-negative amount over a larger one is a proper fraction. */
  lemma DivBelowOne(a: real, b: real)
    requires 0.0 <= a < b
    ensures 0.0 <= a / b < 1.0
  {
    var q := a / b;
    assert (1.0 - q) * b == b - a;
    PositiveFactor(1.0 - q, b);
  }
}
