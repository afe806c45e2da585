/**
 * The two averages the accuracy scores combine: a weighted mean and a
 * harmonic mean, each over the sum Python or numpy forms, with the bounds
 * that keep an average between the smallest and largest value. The sums
 * the bounds speak of are passed in as plain reals (`total == Sum(..)`),
 * which keeps the nonlinear arithmetic apart from the recursive sums.
 */
module Means {
  import opened Base

  /** `[1 / a for a in s]`. */
  function Recips(s: seq<real>): (r: seq<real>)
    requires forall k :: 0 <= k < |s| ==> s[k] != 0.0
    ensures |r| == |s| && forall k :: 0 <= k < |s| ==> r[k] == 1.0 / s[k]
  {
    seq(|s|, k requires 0 <= k < |s| => 1.0 / s[k])
  }

  /** `[a * w for a, w in zip(values, weights)]`. */
  function Products(values: seq<real>, weights: seq<real>): (r: seq<real>)
    requires |values| == |weights|
    ensures |r| == |values| && forall k :: 0 <= k < |r| ==> r[k] == values[k] * weights[k]
  {
    seq(|values|, k requires 0 <= k < |values| => values[k] * weights[k])
  }

  lemma RecipsLast(s: seq<real>, total: real, total0: real)
    requires |s| > 0 && forall k :: 0 <= k < |s| ==> s[k] != 0.0
    requires total == Sum(Recips(s)) && total0 == Sum(Recips(s[..|s| - 1]))
    ensures total == total0 + 1.0 / s[|s| - 1]
  {
    var n := |s| - 1;
    var r := Recips(s);
    assert r[..n] == Recips(s[..n]);
    assert Sum(r) == Sum(r[..n]) + r[n];
  }

  lemma RecipStep(m: real, total: real, x: real, lo: real, hi: real, m2: real, total2: real)
    requires 0.0 < lo <= x <= hi && m <= hi * total && lo * total <= m
    requires m2 == m + 1.0 && total2 == total + 1.0 / x
    ensures m2 <= hi * total2 && lo * total2 <= m2
  {
    assert hi * (total + 1.0 / x) == hi * total + hi / x;
    assert lo * (total + 1.0 / x) == lo * total + lo / x;
    ScaledQuotient(lo, x, 0.0, 1.0);
    ScaledQuotient(hi, x, 1.0, hi / x);
  }

  /** For values in [lo, hi], the sum of reciprocals lies between n/hi and n/lo (stated without division). */
  lemma {:induction false} RecipSumBounds(s: seq<real>, lo: real, hi: real, n: real, total: real)
    requires 0.0 < lo && forall k :: 0 <= k < |s| ==> lo <= s[k] <= hi
    requires n == |s| as real && total == Sum(Recips(s))
    ensures n <= hi * total && lo * total <= n
  {
    if s != [] {
      var m := |s| - 1;
      var total0 := Sum(Recips(s[..m]));
      RecipSumBounds(s[..m], lo, hi, m as real, total0);
      RecipsLast(s, total, total0);
      RecipStep(m as real, total0, s[m], lo, hi, n, total);
    }
  }

  lemma ScaledQuotient(x: real, total: real, lo: real, hi: real)
    requires total > 0.0 && lo * total <= x <= hi * total
    ensures lo <= x / total <= hi
  {
  }

  lemma PositiveTotal(n: real, total: real, hi: real)
    requires n > 0.0 && hi > 0.0 && n <= hi * total
    ensures total > 0.0
  {
  }

  /** The harmonic mean of positive values in [lo, hi] is defined and lies in [lo, hi]. */
  lemma HarmonicBounds(s: seq<real>, lo: real, hi: real, total: real)
    requires |s| > 0 && 0.0 < lo
    requires forall k :: 0 <= k < |s| ==> lo <= s[k] <= hi
    requires total == Sum(Recips(s))
    ensures total > 0.0
    ensures lo <= |s| as real / total <= hi
  {
    var n := |s| as real;
    RecipSumBounds(s, lo, hi, n, total);
    assert lo <= s[0] <= hi;
    PositiveTotal(n, total, hi);
    ScaledQuotient(n, total, lo, hi);
  }

  lemma ProductsLast(values: seq<real>, weights: seq<real>)
    requires |values| == |weights| > 0
    ensures Sum(Products(values, weights)) == Sum(Products(values[..|values| - 1], weights[..|values| - 1])) + values[|values| - 1] * weights[|values| - 1]
  {
    var n := |values| - 1;
    var p := Products(values, weights);
    forall k | 0 <= k < n ensures p[..n][k] == Products(values[..n], weights[..n])[k] {
      assert values[..n][k] == values[k] && weights[..n][k] == weights[k];
    }
    assert p[..n] == Products(values[..n], weights[..n]);
    assert Sum(p) == Sum(p[..n]) + p[n];
  }

  lemma WeightStep(sp: real, sw: real, v: real, w: real, lo: real, hi: real, sp2: real, sw2: real)
    requires lo * sw <= sp <= hi * sw && lo <= v <= hi && w >= 0.0
    requires sp2 == sp + v * w && sw2 == sw + w
    ensures lo * sw2 <= sp2 <= hi * sw2
  {
    assert lo * w <= v * w <= hi * w;
  }

  /** With non-negative weights, the weighted sum of values in [lo, hi] lies between lo and hi times the total weight. */
  lemma {:induction false} WeightedSumBounds(values: seq<real>, weights: seq<real>, lo: real, hi: real, p: real, w: real)
    requires |values| == |weights|
    requires forall k :: 0 <= k < |values| ==> lo <= values[k] <= hi && weights[k] >= 0.0
    requires p == Sum(Products(values, weights)) && w == Sum(weights)
    ensures lo * w <= p <= hi * w
  {
    if values != [] {
      var n := |values| - 1;
      var p0, w0 := Sum(Products(values[..n], weights[..n])), Sum(weights[..n]);
      WeightedSumBounds(values[..n], weights[..n], lo, hi, p0, w0);
      ProductsLast(values, weights);
      assert w == w0 + weights[n];
      WeightStep(p0, w0, values[n], weights[n], lo, hi, p, w);
    }
  }

  /** A weighted mean with positive total weight lies between the smallest and largest value. */
  lemma WeightedMeanBounds(values: seq<real>, weights: seq<real>, lo: real, hi: real, p: real, w: real)
    requires |values| == |weights|
    requires forall k :: 0 <= k < |values| ==> lo <= values[k] <= hi && weights[k] >= 0.0
    requires p == Sum(Products(values, weights)) && w == Sum(weights) && w > 0.0
    ensures lo <= p / w <= hi
  {
    WeightedSumBounds(values, weights, lo, hi, p, w);
    ScaledQuotient(p, w, lo, hi);
  }

  /** Weights that are all at least `w` add up to at least `n * w`. */
  lemma {:induction false} SumAtLeast(weights: seq<real>, w: real)
    requires forall k :: 0 <= k < |weights| ==> weights[k] >= w
    ensures Sum(weights) >= |weights| as real * w
  {
    if weights != [] {
      SumAtLeast(weights[..|weights| - 1], w);
    }
  }

  lemma RecipStepAtMost(m: real, total: real, x: real, hi: real, m2: real, total2: real)
    requires 0.0 < x <= hi && m <= hi * total
    requires m2 == m + 1.0 && total2 == total + 1.0 / x
    ensures m2 <= hi * total2
  {
    assert hi * (total + 1.0 / x) == hi * total + hi / x;
    ScaledQuotient(hi, x, 1.0, hi / x);
  }

  /** For positive values at most hi, the sum of reciprocals is at least n/hi (stated without division). */
  lemma {:induction false} RecipSumAtLeast(s: seq<real>, hi: real, n: real, total: real)
    requires forall k :: 0 <= k < |s| ==> 0.0 < s[k] <= hi
    requires n == |s| as real && total == Sum(Recips(s))
    ensures n <= hi * total
  {
    if s != [] {
      var m := |s| - 1;
      var total0 := Sum(Recips(s[..m]));
      RecipSumAtLeast(s[..m], hi, m as real, total0);
      RecipsLast(s, total, total0);
      RecipStepAtMost(m as real, total0, s[m], hi, n, total);
    }
  }

  /** The harmonic mean of positive values at most hi is defined, positive and at most hi. */
  lemma HarmonicAtMost(s: seq<real>, hi: real, total: real)
    requires |s| > 0 && forall k :: 0 <= k < |s| ==> 0.0 < s[k] <= hi
    requires total == Sum(Recips(s))
    ensures total > 0.0 && 0.0 < |s| as real / total <= hi
  {
    var n := |s| as real;
    RecipSumAtLeast(s, hi, n, total);
    assert 0.0 < s[0] <= hi;
    PositiveTotal(n, total, hi);
    ScaledQuotient(n, total, 0.0, hi);
    assert n / total != 0.0;
  }
}
