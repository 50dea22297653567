/**
  The statistics helpers of the climate reduction: Python's `sum`, `min`, `max`,
  the arithmetic mean, `_std` (kept as the sample variance it takes the root of)
  and the day-weighted sum `sum(v * d for v, d in zip(vals, days))`.
  Everything is over `real`; rounding and the square root are not modelled.
*/
module Stats {

  /** `sum(s)`. */
  function Sum(s: seq<real>): real
  {
    if s == [] then 0.0 else s[0] + Sum(s[1..])
  }

  /** `sum(s) / len(s)`. */
  function Mean(s: seq<real>): real
    requires s != []
  {
    Sum(s) / (|s| as real)
  }

  /** `min(s)`: an element of `s` that no element is below. */
  function Min(s: seq<real>): (m: real)
    requires s != []
    ensures m in s
    ensures forall x :: x in s ==> m <= x
  {
    if |s| == 1 then s[0]
    else
      var rest := Min(s[1..]);
      assert forall x :: x in s ==> x == s[0] || x in s[1..];
      if s[0] <= rest then s[0] else rest
  }

  /** `max(s)`: an element of `s` that no element is above. */
  function Max(s: seq<real>): (m: real)
    requires s != []
    ensures m in s
    ensures forall x :: x in s ==> x <= m
  {
    if |s| == 1 then s[0]
    else
      var rest := Max(s[1..]);
      assert forall x :: x in s ==> x == s[0] || x in s[1..];
      if s[0] >= rest then s[0] else rest
  }

  function Sq(x: real): (r: real)
    ensures r >= 0.0
  {
    x * x
  }

  /** `sum((x - m) ** 2 for x in s)`; never negative. */
  function SumSqDev(s: seq<real>, m: real): (r: real)
    ensures r >= 0.0
  {
    if s == [] then 0.0 else Sq(s[0] - m) + SumSqDev(s[1..], m)
  }

  /**
    The variance `_std` takes the square root of: 0 for fewer than two values,
    otherwise the sum of squared deviations over `n - 1` (Bessel's correction).
  */
  function Variance(s: seq<real>): (v: real)
    ensures v >= 0.0
    ensures |s| < 2 ==> v == 0.0
  {
    if |s| < 2 then 0.0 else SumSqDev(s, Mean(s)) / ((|s| - 1) as real)
  }

  /**
    `sum(v * d for v, d in zip(vals, weights))`: the i-th value is paired with the
    i-th weight, and the shorter sequence decides how many pairs there are.
  */
  function WeightedSum(vals: seq<real>, weights: seq<real>): real
  {
    if vals == [] || weights == [] then 0.0
    else vals[0] * weights[0] + WeightedSum(vals[1..], weights[1..])
  }

  /** All elements of `s` are equal. */
  predicate Constant(s: seq<real>)
  {
    forall i, j :: 0 <= i < |s| && 0 <= j < |s| ==> s[i] == s[j]
  }

  lemma {:induction false} SumBounds(s: seq<real>, lo: real, hi: real)
    requires forall x :: x in s ==> lo <= x <= hi
    ensures (|s| as real) * lo <= Sum(s) <= (|s| as real) * hi
  {
    if s != [] {
      assert forall x :: x in s[1..] ==> x in s;
      SumBounds(s[1..], lo, hi);
      assert s[0] in s;
      var n := (|s[1..]|) as real;
      assert (|s| as real) * lo == n * lo + lo;
      assert (|s| as real) * hi == n * hi + hi;
    }
  }

  /** The mean lies between the minimum and the maximum. */
  lemma MeanWithinMinMax(s: seq<real>)
    requires s != []
    ensures Min(s) <= Mean(s) <= Max(s)
  {
    SumBounds(s, Min(s), Max(s));
    DivideBounds(Sum(s), |s| as real, Min(s), Max(s));
  }

  lemma DivideBounds(total: real, n: real, lo: real, hi: real)
    requires n > 0.0
    requires n * lo <= total <= n * hi
    ensures lo <= total / n <= hi
  {
    var q := total / n;
    assert total == q * n;
    assert n * (q - lo) >= 0.0;
    assert n * (hi - q) >= 0.0;
  }

  lemma {:induction false} SumOfConstant(s: seq<real>, c: real)
    requires forall x :: x in s ==> x == c
    ensures Sum(s) == (|s| as real) * c
  {
    if s != [] {
      assert forall x :: x in s[1..] ==> x in s;
      SumOfConstant(s[1..], c);
      assert s[0] in s;
      assert (|s| as real) * c == (|s[1..]| as real) * c + c;
    }
  }

  lemma {:induction false} SumSqDevOfConstant(s: seq<real>, m: real)
    requires forall x :: x in s ==> x == m
    ensures SumSqDev(s, m) == 0.0
  {
    if s != [] {
      assert forall x :: x in s[1..] ==> x in s;
      SumSqDevOfConstant(s[1..], m);
      assert s[0] in s;
      assert Sq(s[0] - m) == 0.0;
    }
  }

  /** `_std` is 0 when all values are equal (in particular for fewer than two). */
  lemma VarianceOfConstant(s: seq<real>)
    requires Constant(s)
    ensures Variance(s) == 0.0
  {
    if |s| >= 2 {
      assert forall x :: x in s ==> x == s[0];
      SumOfConstant(s, s[0]);
      assert Mean(s) == s[0];
      SumSqDevOfConstant(s, s[0]);
    }
  }

  /** `sum` taken from the back: the last element added to the sum of the others. */
  lemma {:induction false} SumLast(s: seq<real>)
    requires s != []
    ensures Sum(s) == Sum(s[..|s| - 1]) + s[|s| - 1]
  {
    if |s| > 1 {
      SumLast(s[1..]);
      assert s[1..][..|s[1..]| - 1] == s[..|s| - 1][1..];
    }
  }

  /**
    Weighting values that are all `c` gives `c` times the sum of the weights that
    were paired with them, namely the first `|vals|` ones.
  */
  lemma {:induction false} WeightedSumOfConstant(vals: seq<real>, weights: seq<real>, c: real)
    requires |vals| <= |weights|
    requires forall x :: x in vals ==> x == c
    ensures WeightedSum(vals, weights) == c * Sum(weights[..|vals|])
  {
    if vals != [] {
      assert forall x :: x in vals[1..] ==> x in vals;
      WeightedSumOfConstant(vals[1..], weights[1..], c);
      assert vals[0] in vals;
      var w := weights[..|vals|];
      assert w[0] == weights[0];
      assert weights[1..][..|vals| - 1] == w[1..];
      assert Sum(w) == w[0] + Sum(w[1..]);
      assert c * Sum(w) == c * w[0] + c * Sum(w[1..]);
    }
  }
}
