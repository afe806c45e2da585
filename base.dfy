/**
 * Shared value types and numeric helpers used by every part of the model:
 * optional values (pandas NaN is `None`), error results (a raised Python
 * exception is `Err`), Python's `s[::2]` / `s[1::2]` slices, sums and means,
 * a clamp, and the two searches that `numpy.digitize` and `numpy.interp`
 * perform on sorted bin edges.
 */
module Base {

  datatype Option<T> = None | Some(value: T)

  /** A Python call that either returns a value or raises the named exception. */
  datatype Result<T> = Ok(value: T) | Err(error: string)

  /** A non-empty text cell: a CSV reader turns an empty field into NaN, never into "". */
  type Token = s: string | |s| > 0 witness "?"

  /** What an exponential returns: never negative (a floating-point `exp` may underflow to 0). */
  type NonNegReal = x: real | x >= 0.0

  function Abs(x: int): nat
  {
    if x < 0 then -x else x
  }

  /** Sequence concatenation is associative. */
  lemma ConcatAssoc<T>(a: seq<T>, b: seq<T>, c: seq<T>)
    ensures a + b + c == a + (b + c)
  {
  }

  function Min(a: int, b: int): int { if a <= b then a else b }
  function Max(a: int, b: int): int { if a >= b then a else b }

  /** `max(2, min(8, n // 10))`: the volatility window size both accuracy codes use. */
  function WindowSize(n: nat): (ws: nat)
    ensures 2 <= ws <= 8
    ensures 20 <= n < 90 ==> ws == n / 10
  {
    Max(2, Min(8, n / 10))
  }

  /** Python's `max(lo, min(hi, x))`. */
  function Clamp(x: real, lo: real, hi: real): (r: real)
    requires lo <= hi
    ensures lo <= r <= hi
    ensures lo <= x <= hi ==> r == x
  {
    if x < lo then lo else if x > hi then hi else x
  }

  /** Clamping keeps the order of its arguments. */
  lemma ClampMono(x: real, y: real, lo: real, hi: real)
    requires x <= y && lo <= hi
    ensures Clamp(x, lo, hi) <= Clamp(y, lo, hi)
  {
  }

  // ---------------------------------------------------------------- slices

  /** Python's `s[::2]`: the elements at even positions. */
  function Evens<T>(s: seq<T>): (r: seq<T>)
    ensures |r| == (|s| + 1) / 2
    ensures forall k :: 0 <= k < |r| ==> r[k] == s[2 * k]
  {
    seq((|s| + 1) / 2, k requires 0 <= k < (|s| + 1) / 2 => s[2 * k])
  }

  /** Python's `s[1::2]`: the elements at odd positions. */
  function Odds<T>(s: seq<T>): (r: seq<T>)
    ensures |r| == |s| / 2
    ensures forall k :: 0 <= k < |r| ==> r[k] == s[2 * k + 1]
  {
    seq(|s| / 2, k requires 0 <= k < |s| / 2 => s[2 * k + 1])
  }

  /** Appending one element extends exactly one of the two parity slices. */
  lemma EvensOddsAppend<T>(s: seq<T>, x: T)
    ensures |s| % 2 == 0 ==> Evens(s + [x]) == Evens(s) + [x] && Odds(s + [x]) == Odds(s)
    ensures |s| % 2 == 1 ==> Evens(s + [x]) == Evens(s) && Odds(s + [x]) == Odds(s) + [x]
  {
    var e, o := Evens(s + [x]), Odds(s + [x]);
    if |s| % 2 == 0 {
      assert e == Evens(s) + [x] by {
        forall k | 0 <= k < |e| ensures e[k] == (Evens(s) + [x])[k] {
          if k < |Evens(s)| { } else { assert 2 * k == |s|; }
        }
      }
      assert o == Odds(s);
    } else {
      assert e == Evens(s);
      assert o == Odds(s) + [x] by {
        forall k | 0 <= k < |o| ensures o[k] == (Odds(s) + [x])[k] {
          if k < |Odds(s)| { } else { assert 2 * k + 1 == |s|; }
        }
      }
    }
  }

  // ------------------------------------------------------------ sums, means

  function Sum(s: seq<real>): real
  {
    if s == [] then 0.0 else Sum(s[..|s| - 1]) + s[|s| - 1]
  }

  function SumInt(s: seq<int>): int
  {
    if s == [] then 0 else SumInt(s[..|s| - 1]) + s[|s| - 1]
  }

  lemma SumAppend(s: seq<real>, x: real)
    ensures Sum(s + [x]) == Sum(s) + x
  {
    assert (s + [x])[..|s|] == s;
  }

  lemma SumIntAppend(s: seq<int>, x: int)
    ensures SumInt(s + [x]) == SumInt(s) + x
  {
    assert (s + [x])[..|s|] == s;
  }

  /** `statistics.mean` style average of integer values, as a real. */
  function MeanInt(s: seq<int>): real
    requires |s| > 0
  {
    SumInt(s) as real / |s| as real
  }

  /** A sum of values that all lie in [lo, hi] lies in [n*lo, n*hi]. */
  lemma {:induction false} SumBounds(s: seq<real>, lo: real, hi: real)
    requires forall k :: 0 <= k < |s| ==> lo <= s[k] <= hi
    ensures |s| as real * lo <= Sum(s) <= |s| as real * hi
  {
    if s != [] {
      SumBounds(s[..|s| - 1], lo, hi);
    }
  }

  /** A sum of integers that all lie in [lo, hi] lies in [n*lo, n*hi]. */
  lemma {:induction false} SumIntBounds(s: seq<int>, lo: int, hi: int)
    requires forall k :: 0 <= k < |s| ==> lo <= s[k] <= hi
    ensures |s| * lo <= SumInt(s) <= |s| * hi
  {
    if s != [] {
      SumIntBounds(s[..|s| - 1], lo, hi);
    }
  }

  // ------------------------------------------------------- numpy searches

  predicate Sorted(xs: seq<real>)
  {
    forall i, j :: 0 <= i < j < |xs| ==> xs[i] <= xs[j]
  }

  /** `numpy.digitize(x, bins)` (right=False) on increasing bins: how many edges are <= x. */
  function CountLE(x: real, bins: seq<real>): (c: nat)
    ensures c <= |bins|
  {
    if bins == [] then 0
    else CountLE(x, bins[..|bins| - 1]) + (if bins[|bins| - 1] <= x then 1 else 0)
  }

  /** `numpy.digitize(x, bins, right=True)` on increasing bins: how many edges are < x. */
  function CountLT(x: real, bins: seq<real>): (c: nat)
    ensures c <= |bins|
  {
    if bins == [] then 0
    else CountLT(x, bins[..|bins| - 1]) + (if bins[|bins| - 1] < x then 1 else 0)
  }

  /** Integer edges as the floats numpy compares them as. */
  function AsReals(xs: seq<nat>): (r: seq<real>)
    ensures |r| == |xs| && forall k :: 0 <= k < |xs| ==> r[k] == xs[k] as real
  {
    seq(|xs|, k requires 0 <= k < |xs| => xs[k] as real)
  }

  /** A value at or past the first edge is counted past at least that edge, whatever the order of the rest. */
  lemma {:induction false} CountLEFirst(x: real, bins: seq<real>)
    requires |bins| > 0 && bins[0] <= x
    ensures CountLE(x, bins) >= 1
  {
    if |bins| > 1 {
      CountLEFirst(x, bins[..|bins| - 1]);
    }
  }

  /** numpy sorts NaN after every number, so `digitize(NaN, bins, right=True)` is `len(bins)`. */
  function DigitizeRight(x: Option<real>, bins: seq<real>): (c: nat)
    ensures c <= |bins|
  {
    if x.None? then |bins| else CountLT(x.value, bins)
  }

  function DigitizeLeft(x: Option<real>, bins: seq<real>): (c: nat)
    ensures c <= |bins|
  {
    if x.None? then |bins| else CountLE(x.value, bins)
  }

  /** On sorted edges, `c = CountLE(x, bins)` is the bin with `bins[c-1] <= x < bins[c]`. */
  lemma {:induction false} CountLEBracket(x: real, bins: seq<real>)
    requires Sorted(bins)
    ensures var c := CountLE(x, bins);
      (forall k :: 0 <= k < c ==> bins[k] <= x) && (forall k :: c <= k < |bins| ==> x < bins[k])
  {
    if bins != [] {
      var init := bins[..|bins| - 1];
      assert Sorted(init);
      CountLEBracket(x, init);
      var c0 := CountLE(x, init);
      if bins[|bins| - 1] <= x {
        assert forall k :: 0 <= k < |init| ==> bins[k] <= bins[|bins| - 1];
      } else {
        assert c0 == CountLE(x, bins);
        forall k | 0 <= k < |init| && c0 <= k ensures x < bins[k] {
          assert init[k] == bins[k];
        }
      }
    }
  }

  /** On sorted edges, `c = CountLT(x, bins)` is the bin with `bins[c-1] < x <= bins[c]`. */
  lemma {:induction false} CountLTBracket(x: real, bins: seq<real>)
    requires Sorted(bins)
    ensures var c := CountLT(x, bins);
      (forall k :: 0 <= k < c ==> bins[k] < x) && (forall k :: c <= k < |bins| ==> x <= bins[k])
  {
    if bins != [] {
      var init := bins[..|bins| - 1];
      assert Sorted(init);
      CountLTBracket(x, init);
      var c0 := CountLT(x, init);
      if bins[|bins| - 1] < x {
        assert forall k :: 0 <= k < |init| ==> bins[k] <= bins[|bins| - 1];
      } else {
        assert c0 == CountLT(x, bins);
        forall k | 0 <= k < |init| && c0 <= k ensures x <= bins[k] {
          assert init[k] == bins[k];
        }
      }
    }
  }

  /**
   * `numpy.interp(x, xp, fp)` on non-decreasing `xp`: left of `xp[0]` it is `fp[0]`,
   * from `xp[-1]` on it is `fp[-1]`, otherwise it interpolates linearly on the
   * segment `xp[j] <= x < xp[j+1]` with the largest such `j` (numpy's search rule,
   * which matters when `xp` repeats a value).
   */
  function Interp(x: real, xp: seq<real>, fp: seq<real>): real
    requires |xp| == |fp| > 0 && Sorted(xp)
  {
    var c := CountLE(x, xp);
    if c == 0 then fp[0]
    else if c == |xp| then fp[|xp| - 1]
    else
      CountLEBracket(x, xp);
      var t := (x - xp[c - 1]) / (xp[c] - xp[c - 1]);
      fp[c - 1] + (fp[c] - fp[c - 1]) * t
  }

  /**
   * Interpolation is linear in the values: three value rows that add up to
   * `total` at every point interpolate to three values that add up to `total`.
   */
  lemma InterpSum(x: real, xp: seq<real>, f0: seq<real>, f1: seq<real>, f2: seq<real>, total: real)
    requires |xp| == |f0| == |f1| == |f2| > 0 && Sorted(xp)
    requires forall k :: 0 <= k < |xp| ==> f0[k] + f1[k] + f2[k] == total
    ensures Interp(x, xp, f0) + Interp(x, xp, f1) + Interp(x, xp, f2) == total
  {
    var c := CountLE(x, xp);
    if 0 < c < |xp| {
      CountLEBracket(x, xp);
      var t := (x - xp[c - 1]) / (xp[c] - xp[c - 1]);
      var a0, a1, a2 := f0[c - 1], f1[c - 1], f2[c - 1];
      var b0, b1, b2 := f0[c], f1[c], f2[c];
      assert a0 + a1 + a2 == total && b0 + b1 + b2 == total;
      calc {
        (a0 + (b0 - a0) * t) + (a1 + (b1 - a1) * t) + (a2 + (b2 - a2) * t);
        (a0 + a1 + a2) + ((b0 + b1 + b2) - (a0 + a1 + a2)) * t;
        total;
      }
    }
  }

  /** At a point equal to a knot that is not followed by a repeat, interpolation returns that knot's value. */
  lemma InterpAtKnot(xp: seq<real>, fp: seq<real>, k: nat)
    requires |xp| == |fp| > 0 && Sorted(xp) && k < |xp|
    requires k + 1 < |xp| ==> xp[k] < xp[k + 1]
    ensures Interp(xp[k], xp, fp) == fp[k]
  {
    CountLEBracket(xp[k], xp);
    var c := CountLE(xp[k], xp);
    assert c == k + 1;
  }
}
