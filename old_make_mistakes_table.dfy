/**
 * The earlier mistake histogram of old_files/make_mistakes_table.py. It
 * writes its severity labels as "(a,b]" text for consecutive integer edges.
 * For the move-count block starting at `i` it then counts moves
 * `move_start .. (i+5)//2 - 1` with the same left-closed `np.digitize` bins as
 * the later version. Nothing here catches an exception: a missing move column
 * (KeyError) or a size at or past the last edge (IndexError) ends the run.
 */
module OldMakeMistakesTable {
  import opened Base
  import opened Text
  import M = MakeMistakesTable

  const MistakeBins: seq<nat> := [5, 10, 15, 20, 25, 30, 35, 40, 50, 60, 70, 100]
  const MoveStart: nat := 3

  // ----------------------------------------------------------------- labels

  function LabelText(lo: nat, hi: nat): string
  {
    "(" + NatToString(lo) + "," + NatToString(hi) + "]"
  }

  /** The label loop: one "(a,b]" label per consecutive pair of edges. */
  method MistakeLabels(bins: seq<nat>) returns (labels: seq<string>)
    ensures |labels| == if |bins| > 0 then |bins| - 1 else 0
    ensures forall i :: 0 <= i < |labels| ==> labels[i] == LabelText(bins[i], bins[i + 1])
  {
    labels := [];
    var n := if |bins| > 0 then |bins| - 1 else 0;
    for i := 0 to n
      invariant |labels| == i
      invariant forall k :: 0 <= k < i ==> labels[k] == LabelText(bins[k], bins[k + 1])
    {
      labels := labels + [LabelText(bins[i], bins[i + 1])];
    }
  }

  /** Reads a label back: strip the brackets and split at the comma. */
  function ParseLabel(text: string): Option<(nat, nat)>
  {
    if |text| < 2 || text[0] != '(' || text[|text| - 1] != ']' then None
    else
      var parts := Split(text[1..|text| - 1], ',');
      if |parts| != 2 then None
      else
        match (ParseNat(parts[0]), ParseNat(parts[1]))
        case (Some(a), Some(b)) => Some((a, b))
        case _ => None
  }

  /** The labels lose nothing: both edges read back from every label. */
  lemma LabelRoundTrip(lo: nat, hi: nat)
    ensures ParseLabel(LabelText(lo, hi)) == Some((lo, hi))
  {
    var text := LabelText(lo, hi);
    var a, b := NatToString(lo), NatToString(hi);
    assert text == "(" + (a + [','] + b) + "]";
    assert text[1..|text| - 1] == a + [','] + b;
    DigitsNoComma(a);
    DigitsNoComma(b);
    SplitAt(a, ',', b);
    SplitNoSep(b, ',');
    ParseNatToString(lo);
    ParseNatToString(hi);
  }

  lemma DigitsNoComma(s: string)
    requires AllDigits(s)
    ensures ',' !in s
  {
    forall k | 0 <= k < |s| ensures s[k] != ',' {
      assert IsDigit(s[k]);
    }
  }

  // --------------------------------------------------------------- counting

  const BlockFirst := M.TablesDir + "wcl_train_all_"

  /** The table read for the block of games with `i .. i+5` moves. */
  function BlockInput(i: nat): string
  {
    BlockFirst + NatToString(i) + "-" + NatToString(i + 5) + "_by_player.csv"
  }

  function BlockOutput(i: nat): string
  {
    BlockOutFirst + NatToString(i) + "-" + NatToString(i + 5) + "_by_player.csv"
  }

  /** The block's input file is the training table of all moves the later version reads for `i-(i+5)`. */
  lemma SameInputAsLater(i: nat)
    ensures BlockInput(i) == M.InputName(i, Some(i + 5), true, true)
  {
    var block := NatToString(i) + "-" + NatToString(i + 5);
    var suffix := "_by_player.csv";
    assert "wcl_" + M.Flags(true, true) == "wcl_train_all_";
    assert M.InputName(i, Some(i + 5), true, true) == BlockFirst + (block + suffix);
    assert BlockInput(i) == BlockFirst + (block + suffix);
  }

  const BlockOutFirst := M.TablesDir + "wcl_and_mistakes_train_all_"

  /** The block's output file is the one the later version writes for `i-(i+5)` with the same flags. */
  lemma SameOutputAsLater(i: nat)
    ensures BlockOutput(i) == M.OutputName(i, Some(i + 5), true, true)
  {
    var block := NatToString(i) + "-" + NatToString(i + 5);
    var suffix := "_by_player.csv";
    assert "wcl_and_mistakes_" + M.Flags(true, true) == "wcl_and_mistakes_train_all_";
    assert M.OutputName(i, Some(i + 5), true, true) == BlockOutFirst + (block + suffix);
    assert BlockOutput(i) == BlockOutFirst + (block + suffix);
  }

  /** The last move counted for block `i`, plus one. */
  function BlockEnd(i: nat): nat { (i + 5) / 2 }

  /**
   * The counters after moves `j .. end-1`, or the exception that stops the
   * script: KeyError when a move column is missing, IndexError when a size
   * runs past the labels. Without an exception every row of every move is
   * counted.
   */
  function OldScan(counts: seq<seq<nat>>, t: M.WclTable, j: nat, end: nat, bins: seq<real>): (r: Result<seq<seq<nat>>>)
    requires M.WellFormed(t) && |counts| == |t.rows|
    decreases end - j
    ensures r.Ok? ==> |r.value| == |counts|
  {
    if j >= end then Ok(counts)
    else if !M.HasMove(t, j) then Err("KeyError")
    else if M.FirstPast(t, j, bins, 0) < |t.rows| then Err("IndexError")
    else OldScan(M.CountRows(counts, t, j, bins, |t.rows|), t, j + 1, end, bins)
  }

  /** Move `k` can be counted: its columns exist and no row's size reaches the last edge. */
  predicate Countable(t: M.WclTable, k: nat, bins: seq<real>)
    requires M.WellFormed(t)
  {
    M.HasMove(t, k) && forall r :: 0 <= r < |t.rows| ==> M.CategoryAt(t, r, k, bins) != M.PastLabels
  }

  /** The block succeeds exactly when all its moves can be counted. */
  lemma {:induction false} OldScanSucceeds(counts: seq<seq<nat>>, t: M.WclTable, j: nat, end: nat, bins: seq<real>)
    requires M.WellFormed(t) && |counts| == |t.rows|
    decreases end - j
    ensures OldScan(counts, t, j, end, bins).Ok? <==> forall k :: j <= k < end ==> Countable(t, k, bins)
  {
    if j < end && M.HasMove(t, j) {
      var f := M.FirstPast(t, j, bins, 0);
      if f == |t.rows| {
        OldScanSucceeds(M.CountRows(counts, t, j, bins, |t.rows|), t, j + 1, end, bins);
        assert Countable(t, j, bins);
      } else {
        assert M.CategoryAt(t, f, j, bins) == M.PastLabels;
        assert !Countable(t, j, bins);
      }
    } else if j < end {
      assert !Countable(t, j, bins);
    }
  }

  /** Without an exception, each row gains at most one count per move of the block. */
  lemma {:induction false} OldScanTotals(counts: seq<seq<nat>>, t: M.WclTable, j: nat, end: nat, bins: seq<real>, r: nat)
    requires M.WellFormed(t) && |counts| == |t.rows| && r < |t.rows|
    requires OldScan(counts, t, j, end, bins).Ok?
    decreases end - j
    ensures |OldScan(counts, t, j, end, bins).value[r]| == |counts[r]|
    ensures SumInt(counts[r]) <= SumInt(OldScan(counts, t, j, end, bins).value[r]) <= SumInt(counts[r]) + Max(0, end - j)
  {
    if j < end {
      M.BumpTotal(counts[r], M.CategoryAt(t, r, j, bins));
      OldScanTotals(M.CountRows(counts, t, j, bins, |t.rows|), t, j + 1, end, bins, r);
    }
  }

  /** One block: zeroed counters, then moves `moveStart .. (i+5)//2 - 1` over every row in order. */
  method CountBlock(t: M.WclTable, bins: seq<nat>, moveStart: nat, i: nat) returns (r: Result<seq<seq<nat>>>)
    requires M.WellFormed(t)
    ensures r == OldScan(M.Zeros(|t.rows|, M.LabelCount(AsReals(bins))), t, moveStart, BlockEnd(i), AsReals(bins))
  {
    var edges := AsReals(bins);
    var counts := M.Zeros(|t.rows|, M.LabelCount(edges));
    ghost var start := counts;
    var j := moveStart;
    while j < BlockEnd(i)
      invariant |counts| == |t.rows|
      invariant OldScan(counts, t, j, BlockEnd(i), edges) == OldScan(start, t, moveStart, BlockEnd(i), edges)
      decreases BlockEnd(i) - j
    {
      if !M.HasMove(t, j) {
        return Err("KeyError");
      }
      var next, raised := M.CountMove(counts, t, j, edges);
      if raised {
        return Err("IndexError");
      }
      counts := next;
      j := j + 1;
    }
    r := Ok(counts);
  }
}
