/**
 * The scoring helpers of failed_attempt/utils.py: a saturating conversion
 * of engine scores to centipawns, the logistic win-chance curve and its
 * percentage, the per-move accuracy curve and a guarded harmonic mean. The
 * exponential is a parameter that returns a non-negative real.
 */
module FailedUtils {
  import opened Base
  import opened Chess
  import opened Means

  /** The centipawn value given to any mate score. */
  const MateScore: int := 100000

  /** Mates saturate to ±100000 by the sign of the mate count (mated-in-0 counts as losing); centipawns pass through. */
  function EvalToScore(s: Score): (r: int)
    ensures s.Mate? ==> Abs(r) == MateScore && (r > 0 <==> s.moves > 0)
    ensures s.Cp? ==> r == s.centipawns
  {
    match s
    case Mate(m) => if m > 0 then MateScore else -MateScore
    case Cp(c) => c
  }

  /** A mate for the side is worth more, and a mate against it less, than any centipawn score of smaller size. */
  lemma MateDominates(m: int, c: int)
    requires Abs(c) < MateScore
    ensures m > 0 ==> EvalToScore(Mate(m)) > EvalToScore(Cp(c))
    ensures m <= 0 ==> EvalToScore(Mate(m)) < EvalToScore(Cp(c))
  {
  }

  const Multiplier: real := -0.00368208

  /** `2 / (1 + e) - 1` for a non-negative `e`: always in (-1, 1]. */
  function Logistic(e: NonNegReal): (r: real)
    ensures -1.0 < r <= 1.0
  {
    LogisticRange(e);
    2.0 / (1.0 + e) - 1.0
  }

  lemma LogisticRange(e: NonNegReal)
    ensures 0.0 < 2.0 / (1.0 + e) <= 2.0
  {
    ScaledQuotient(2.0, 1.0 + e, 0.0, 2.0);
    assert 2.0 / (1.0 + e) != 0.0;
  }

  /** The win chance of a centipawn score: the clamp to [-1, 1] never changes the curve's value. */
  function WinningChances(cp: int, exp: real -> NonNegReal): (r: real)
    ensures -1.0 <= r <= 1.0
    ensures r == Logistic(exp(Multiplier * cp as real))
  {
    var value := 2.0 / (1.0 + exp(Multiplier * cp as real)) - 1.0;
    Clamp(value, -1.0, 1.0)
  }

  /** The win percentage of a centipawn score: in [0, 100], and again the clamp never applies. */
  function WinPercent(cp: int, exp: real -> NonNegReal): (r: real)
    ensures 0.0 <= r <= 100.0
    ensures r == 50.0 + 50.0 * WinningChances(cp, exp)
  {
    var chances := WinningChances(cp, exp);
    Clamp(50.0 + 50.0 * chances, 0.0, 100.0)
  }

  /** With an exponential that turns negation into a reciprocal, both sides' percentages add up to 100. */
  lemma WinPercentSymmetric(cp: int, exp: real -> NonNegReal)
    requires exp(Multiplier * (-cp) as real) * exp(Multiplier * cp as real) == 1.0
    ensures WinPercent(-cp, exp) == 100.0 - WinPercent(cp, exp)
  {
    LogisticOdd(exp(Multiplier * cp as real), exp(Multiplier * (-cp) as real));
  }

  lemma LogisticOdd(e: NonNegReal, inverse: NonNegReal)
    requires e * inverse == 1.0
    ensures Logistic(inverse) == -Logistic(e)
  {
    assert inverse == 1.0 / e;
    assert 2.0 / (1.0 + inverse) == 2.0 * e / (e + 1.0) by {
      assert (1.0 + inverse) * e == e + 1.0;
    }
    assert 2.0 * e / (e + 1.0) - 1.0 == (e - 1.0) / (e + 1.0);
    assert 1.0 - 2.0 / (1.0 + e) == (e - 1.0) / (e + 1.0);
  }

  const AccuracyA: real := 103.1668100711649
  const AccuracyK: real := 0.04354415386753951
  const AccuracyB: real := -3.166924740191411

  /** A move's accuracy from the mover's win percentage before and after it. */
  function AccuracyFromWinPercents(before: real, after: real, exp: real -> NonNegReal): (r: real)
    ensures 0.0 <= r <= 100.0
    ensures after >= before ==> r == 100.0
  {
    if after >= before then 100.0
    else
      var winDiff := before - after;
      var raw := AccuracyA * exp(-AccuracyK * winDiff) + AccuracyB + 1.0;
      Clamp(raw, 0.0, 100.0)
  }

  /** With an increasing exponential, a larger drop in win percentage never earns a higher accuracy. */
  lemma AccuracyFalls(before: real, after: real, before2: real, after2: real, exp: real -> NonNegReal)
    requires after < before && before - after <= before2 - after2
    requires exp(-AccuracyK * (before2 - after2)) <= exp(-AccuracyK * (before - after))
    ensures AccuracyFromWinPercents(before2, after2, exp) <= AccuracyFromWinPercents(before, after, exp)
  {
    var e1, e2 := exp(-AccuracyK * (before - after)), exp(-AccuracyK * (before2 - after2));
    assert AccuracyA * e2 <= AccuracyA * e1;
    ClampMono(AccuracyA * e2 + AccuracyB + 1.0, AccuracyA * e1 + AccuracyB + 1.0, 0.0, 100.0);
  }

  predicate HasZero(data: seq<real>)
  {
    exists k :: 0 <= k < |data| && data[k] == 0.0
  }

  /**
   * `n / sum(1/a)`, but 0 for an empty list or one holding a zero. The sum
   * of reciprocals can still be 0 (mixed signs): Python's division raises.
   */
  function HarmonicMean(data: seq<real>): (r: Result<real>)
    ensures r.Err? ==> r.error == "ZeroDivisionError"
    ensures data == [] || HasZero(data) ==> r == Ok(0.0)
  {
    if data == [] || HasZero(data) then Ok(0.0)
    else
      var total := Sum(Recips(data));
      if total == 0.0 then Err("ZeroDivisionError") else Ok(|data| as real / total)
  }

  /** For positive data the harmonic mean exists and lies between the smallest and the largest element. */
  lemma HarmonicMeanBetween(data: seq<real>, lo: real, hi: real)
    requires |data| > 0 && 0.0 < lo
    requires forall k :: 0 <= k < |data| ==> lo <= data[k] <= hi
    ensures HarmonicMean(data).Ok?
    ensures lo <= HarmonicMean(data).value <= hi
  {
    assert !HasZero(data);
    var total := Sum(Recips(data));
    HarmonicBounds(data, lo, hi, total);
    assert HarmonicMean(data) == Ok(|data| as real / total);
  }

  /** Data in [0, hi] (zeros included) always has a harmonic mean, and it lies in [0, hi]. */
  lemma HarmonicMeanAtMost(data: seq<real>, hi: real)
    requires hi >= 0.0
    requires forall k :: 0 <= k < |data| ==> 0.0 <= data[k] <= hi
    ensures HarmonicMean(data).Ok?
    ensures 0.0 <= HarmonicMean(data).value <= hi
  {
    if data != [] && !HasZero(data) {
      assert 0.0 <= data[0] <= hi;
      forall k | 0 <= k < |data| ensures 0.0 < data[k] <= hi {
        assert data[k] != 0.0;
      }
      var total := Sum(Recips(data));
      HarmonicAtMost(data, hi, total);
      assert HarmonicMean(data) == Ok(|data| as real / total);
    }
  }

  /** The zero guard does not cover reciprocals that cancel: [1, -1] raises. */
  lemma HarmonicMeanRaises()
    ensures HarmonicMean([1.0, -1.0]) == Err("ZeroDivisionError")
  {
    var s := [1.0, -1.0];
    assert Recips(s) == [1.0, -1.0];
    assert Sum([1.0, -1.0]) == Sum([1.0]) + -1.0;
    assert Sum([1.0]) == Sum([]) + 1.0;
  }
}
