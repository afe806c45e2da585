/**
 * The per-game features of data_analysis/functions_anal.py: how many moves
 * each side made and the mean evaluation over each side's moves. Move `i`
 * (0-based) is White's when `i` is even. Evaluations are pandas values, so a
 * NaN is `None` and spreads through every sum it enters.
 */
module FunctionsAnal {
  import opened Base

  /** How many indices `i < n` have `i % 2 == parity`: White (0) moves first. */
  function ParityCount(n: nat, parity: nat): nat
    requires parity < 2
  {
    if parity == 0 then (n + 1) / 2 else n / 2
  }

  /** Every move belongs to exactly one side. */
  lemma ParityCountsPartition(n: nat)
    ensures ParityCount(n, 0) + ParityCount(n, 1) == n
    ensures ParityCount(n, 1) <= ParityCount(n, 0) <= ParityCount(n, 1) + 1
  {
  }

  predicate HasParity(j: int, parity: nat) { j % 2 == parity }

  /** A sum of pandas values: NaN as soon as one NaN enters it. */
  function NanSum(s: seq<Option<real>>): Option<real>
  {
    if s == [] then Some(0.0)
    else
      var init := NanSum(s[..|s| - 1]);
      if init.Some? && s[|s| - 1].Some? then Some(init.value + s[|s| - 1].value) else None
  }

  lemma NanSumAppend(s: seq<Option<real>>, x: Option<real>)
    ensures NanSum(s + [x]) == if NanSum(s).Some? && x.Some? then Some(NanSum(s).value + x.value) else None
  {
    assert (s + [x])[..|s|] == s;
  }

  /** The values a side's loop adds up: entry `i` of `evals` for its own indices `i < n`. */
  function SideValues(evals: seq<Option<real>>, n: nat, parity: nat): seq<Option<real>>
    requires parity < 2 && n <= |evals|
  {
    if parity == 0 then Evens(evals[..n]) else Odds(evals[..n])
  }

  /** The first index of the side's past the end of `evals`: where its loop would raise. */
  function FirstMissing(evals: seq<Option<real>>, parity: nat): nat
    requires parity < 2
  {
    if |evals| % 2 == parity then |evals| else |evals| + 1
  }

  /**
   * The mean evaluation over one side's moves in a game of `n` moves: the
   * loop reads `evals[i]` for each of that side's indices, so it raises
   * IndexError at the first such index past the end of `evals`; a side with
   * no moves gets -100.
   */
  function SideMean(n: nat, evals: seq<Option<real>>, parity: nat): (r: Result<Option<real>>)
    requires parity < 2
    ensures r.Err? ==> r.error == "IndexError"
  {
    if FirstMissing(evals, parity) < n then Err("IndexError")
    else if ParityCount(n, parity) == 0 then Ok(Some(-100.0))
    else
      match NanSum(SideValues(evals, Min(n, |evals|), parity))
      case None => Ok(None)
      case Some(s) => Ok(Some(s / ParityCount(n, parity) as real))
  }

  /** The mean raises exactly when one of the side's own indices below `n` has no evaluation. */
  lemma SideMeanRaises(n: nat, evals: seq<Option<real>>, parity: nat)
    requires parity < 2
    ensures SideMean(n, evals, parity).Err? <==> exists j :: |evals| <= j < n && HasParity(j, parity)
  {
    var first := FirstMissing(evals, parity);
    if first < n {
      assert HasParity(first, parity);
    } else {
      forall j | |evals| <= j < n ensures !HasParity(j, parity) {
        assert j < first;
      }
    }
  }

  /** A side without moves gets the -100 marker, and only one: White has none only in an empty game, Black in a game of at most one move. */
  lemma SideMeanNoMoves(n: nat, evals: seq<Option<real>>, parity: nat)
    requires parity < 2
    ensures ParityCount(n, parity) == 0 <==> n < parity + 1
    ensures n < parity + 1 ==> SideMean(n, evals, parity) == Ok(Some(-100.0))
  {
  }

  /** The side's mean is the mean of that side's own values: with all of them in [lo, hi], so is the mean. */
  lemma SideMeanBounds(n: nat, evals: seq<Option<real>>, parity: nat, lo: real, hi: real)
    requires parity < 2 && n <= |evals|
    requires forall k :: 0 <= k < |SideValues(evals, n, parity)| ==>
      SideValues(evals, n, parity)[k].Some? && lo <= SideValues(evals, n, parity)[k].value <= hi
    requires ParityCount(n, parity) > 0
    ensures SideMean(n, evals, parity).Ok? && SideMean(n, evals, parity).value.Some?
    ensures lo <= SideMean(n, evals, parity).value.value <= hi
  {
    var vs := SideValues(evals, n, parity);
    NanSumBounds(vs, lo, hi);
    var c := ParityCount(n, parity);
    assert |vs| == c;
    assert Min(n, |evals|) == n;
    DivBounds(NanSum(vs).value, c as real, lo, hi);
  }

  lemma DivBounds(s: real, c: real, lo: real, hi: real)
    requires c > 0.0 && c * lo <= s <= c * hi
    ensures lo <= s / c <= hi
  {
  }

  /** Without NaN, the pandas sum of values in [lo, hi] is a number between n*lo and n*hi. */
  lemma {:induction false} NanSumBounds(vs: seq<Option<real>>, lo: real, hi: real)
    requires forall k :: 0 <= k < |vs| ==> vs[k].Some? && lo <= vs[k].value <= hi
    ensures NanSum(vs).Some?
    ensures |vs| as real * lo <= NanSum(vs).value <= |vs| as real * hi
  {
    if vs != [] {
      NanSumBounds(vs[..|vs| - 1], lo, hi);
    }
  }

  /** When there are at least as many evaluations as moves, neither mean raises. */
  lemma SideMeanDefined(n: nat, evals: seq<Option<real>>, parity: nat)
    requires parity < 2 && n <= |evals|
    ensures SideMean(n, evals, parity).Ok?
  {
  }

  /** The moves of White: one per even index. */
  method MovesWhite(moves: seq<string>) returns (mv: real)
    ensures mv == ParityCount(|moves|, 0) as real
  {
    mv := 0.0;
    for i := 0 to |moves|
      invariant mv == ParityCount(i, 0) as real
    {
      if i % 2 == 0 {
        mv := mv + 1.0;
      }
    }
  }

  /** The moves of Black: one per odd index. */
  method MovesBlack(moves: seq<string>) returns (mv: real)
    ensures mv == ParityCount(|moves|, 1) as real
  {
    mv := 0.0;
    for i := 0 to |moves|
      invariant mv == ParityCount(i, 1) as real
    {
      if i % 2 == 1 {
        mv := mv + 1.0;
      }
    }
  }

  /** The loop shared by both averages: `parity` picks the side. */
  method SideAverage(moves: seq<string>, evals: seq<Option<real>>, parity: nat) returns (r: Result<Option<real>>)
    requires parity < 2
    ensures r == SideMean(|moves|, evals, parity)
  {
    var evSum: Option<real> := Some(0.0);
    var mv := 0;
    for i := 0 to |moves|
      invariant i <= FirstMissing(evals, parity)
      invariant mv == ParityCount(i, parity)
      invariant evSum == NanSum(SideValues(evals, Min(i, |evals|), parity))
    {
      if i % 2 == parity {
        if i >= |evals| {
          return Err("IndexError");
        }
        mv := mv + 1;
        Step(evals, i, parity);
        NanSumAppend(SideValues(evals, i, parity), evals[i]);
        evSum := if evSum.Some? && evals[i].Some? then Some(evSum.value + evals[i].value) else None;
      } else if i < |evals| {
        Step(evals, i, parity);
      }
    }
    if mv == 0 {
      return Ok(Some(-100.0));
    }
    r := match evSum case None => Ok(None) case Some(s) => Ok(Some(s / mv as real));
  }

  /** Reading one more index extends the side's values by that entry when it is the side's, and not otherwise. */
  lemma Step(evals: seq<Option<real>>, i: nat, parity: nat)
    requires parity < 2 && i < |evals|
    ensures i % 2 == parity ==> SideValues(evals, i + 1, parity) == SideValues(evals, i, parity) + [evals[i]]
    ensures i % 2 != parity ==> SideValues(evals, i + 1, parity) == SideValues(evals, i, parity)
  {
    assert evals[..i + 1] == evals[..i] + [evals[i]];
    EvensOddsAppend(evals[..i], evals[i]);
  }

  method WhiteAvgEvaluation(moves: seq<string>, evals: seq<Option<real>>) returns (r: Result<Option<real>>)
    ensures r == SideMean(|moves|, evals, 0)
  {
    r := SideAverage(moves, evals, 0);
  }

  method BlackAvgEvaluation(moves: seq<string>, evals: seq<Option<real>>) returns (r: Result<Option<real>>)
    ensures r == SideMean(|moves|, evals, 1)
  {
    r := SideAverage(moves, evals, 1);
  }
}
