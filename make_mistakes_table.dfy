/**
 * The mistake histogram of data_analysis/make_mistakes_table.py. Each row of a
 * per-player WCL table holds, for every move j, a win-chance loss `WCL_j` and
 * a lose-chance loss `LCL_j`. For each move from `move_start` on, the row's
 * mistake size is the larger of the two. That size goes to the severity bin
 * between consecutive `mistake_bins` edges that holds it, and the bin's counter
 * for that row goes up by one. The scan over moves has no end of its own: it
 * stops at the first exception, which is a missing move column or a size past
 * the last edge.
 */
module MakeMistakesTable {
  import opened Base
  import opened Text

  // ------------------------------------------------------------ file names

  const TablesDir := "../Cleaned_Analyzed_Games/"

  /** The move block in a file name: `start`, `start-end`, or (for the output of an open block) `start-`. */
  function BlockText(start: nat, end: Option<nat>, forOutput: bool): string
  {
    match end
    case None => NatToString(start) + (if forOutput then "-" else "")
    case Some(e) => NatToString(start) + "-" + NatToString(e)
  }

  function Flags(all: bool, train: bool): string
  {
    (if train then "train_" else "test_") + (if all then "all_" else "")
  }

  function InputName(start: nat, end: Option<nat>, all: bool, train: bool): string
  {
    TablesDir + "wcl_" + Flags(all, train) + BlockText(start, end, false) + "_by_player.csv"
  }

  function OutputName(start: nat, end: Option<nat>, all: bool, train: bool): string
  {
    TablesDir + "wcl_and_mistakes_" + Flags(all, train) + BlockText(start, end, true) + "_by_player.csv"
  }

  /** What follows the start of a block in an output name: `-end`, or `-` alone for an open block. */
  function OutputRest(end: Option<nat>): string
  {
    match end
    case None => "-"
    case Some(e) => "-" + NatToString(e)
  }

  /** Different move blocks with the same flags never write to the same file. */
  lemma OutputNamesDistinct(s1: nat, e1: Option<nat>, s2: nat, e2: Option<nat>, all: bool, train: bool)
    requires OutputName(s1, e1, all, train) == OutputName(s2, e2, all, train)
    ensures s1 == s2 && e1 == e2
  {
    var prefix := TablesDir + "wcl_and_mistakes_" + Flags(all, train);
    var suffix := "_by_player.csv";
    var r1 := OutputRest(e1) + suffix;
    var r2 := OutputRest(e2) + suffix;
    OutputNameShape(s1, e1, prefix, suffix, all, train);
    OutputNameShape(s2, e2, prefix, suffix, all, train);
    assert NatToString(s1) + r1 == NatToString(s2) + r2 by {
      assert NatToString(s1) + r1 == OutputName(s1, e1, all, train)[|prefix|..];
      assert NatToString(s2) + r2 == OutputName(s2, e2, all, train)[|prefix|..];
    }
    DigitRunSplit(NatToString(s1), r1, NatToString(s2), r2);
    NatToStringInjective(s1, s2);
    RestInjective(e1, e2, suffix);
  }

  lemma OutputNameShape(s: nat, e: Option<nat>, prefix: string, suffix: string, all: bool, train: bool)
    requires prefix == TablesDir + "wcl_and_mistakes_" + Flags(all, train) && suffix == "_by_player.csv"
    ensures OutputName(s, e, all, train) == prefix + (NatToString(s) + (OutputRest(e) + suffix))
    ensures |OutputRest(e) + suffix| > 0 && !IsDigit((OutputRest(e) + suffix)[0])
  {
    var block, rest := NatToString(s), OutputRest(e);
    assert BlockText(s, e, true) == block + rest;
    assert OutputName(s, e, all, train) == prefix + (block + rest) + suffix;
    ConcatAssoc(prefix, block + rest, suffix);
    ConcatAssoc(block, rest, suffix);
    assert (rest + suffix)[0] == rest[0] == '-';
  }

  lemma RestInjective(e1: Option<nat>, e2: Option<nat>, suffix: string)
    requires OutputRest(e1) + suffix == OutputRest(e2) + suffix
    ensures e1 == e2
  {
    var x1, x2 := OutputRest(e1), OutputRest(e2);
    assert |x1| == |x2|;
    assert x1 == (x1 + suffix)[..|x1|] == (x2 + suffix)[..|x2|] == x2;
    if e1.Some? && e2.Some? {
      assert NatToString(e1.value) == x1[1..] == x2[1..] == NatToString(e2.value);
      NatToStringInjective(e1.value, e2.value);
    }
  }

  // ------------------------------------------------------------- the table

  /** One player's row: `WCL_j` and `LCL_j` for the moves the table has columns for; NaN is None. */
  datatype WclRow = WclRow(wcl: seq<Option<real>>, lcl: seq<Option<real>>)

  /** A table whose columns are `WCL_0 .. WCL_{wclColumns-1}` and `LCL_0 .. LCL_{lclColumns-1}`. */
  datatype WclTable = WclTable(rows: seq<WclRow>, wclColumns: nat, lclColumns: nat)

  predicate WellFormed(t: WclTable)
  {
    forall r :: 0 <= r < |t.rows| ==> |t.rows[r].wcl| == t.wclColumns && |t.rows[r].lcl| == t.lclColumns
  }

  /** Both columns of move `j` exist: otherwise selecting them raises KeyError. */
  predicate HasMove(t: WclTable, j: nat)
  {
    j < t.wclColumns && j < t.lclColumns
  }

  /** `max(axis=1, skipna=False)` over the two cells: NaN if either is NaN. */
  function MaxNan(a: Option<real>, b: Option<real>): Option<real>
  {
    if a.None? || b.None? then None else Some(if a.value >= b.value then a.value else b.value)
  }

  /** One label, and one counter column, per consecutive pair of edges. */
  function LabelCount(bins: seq<real>): nat
  {
    if |bins| > 0 then |bins| - 1 else 0
  }

  /** What a row's mistake size does to the counters: nothing, one bin, or IndexError on the labels. */
  datatype Category = Skip | Bin(index: nat) | PastLabels

  /**
   * `np.digitize(a, bins) - 1` picks the bin; a NaN or a negative bin is
   * skipped, and a bin at or past the number of labels raises IndexError.
   */
  function Classify(a: Option<real>, bins: seq<real>): Category
  {
    if a.None? then Skip
    else
      var b := CountLE(a.value, bins) - 1;
      if b < 0 then Skip else if b >= |bins| - 1 then PastLabels else Bin(b)
  }

  /** The bin rule: bin `i` holds exactly the sizes in [bins[i], bins[i+1]); below bins[0] nothing counts, from the last edge on the labels run out. */
  lemma ClassifyBrackets(a: real, bins: seq<real>)
    requires Sorted(bins) && |bins| > 0
    ensures Classify(Some(a), bins) == Skip <==> a < bins[0]
    ensures Classify(Some(a), bins) == PastLabels <==> bins[|bins| - 1] <= a
    ensures forall i :: 0 <= i < |bins| - 1 ==>
      (Classify(Some(a), bins) == Bin(i) <==> bins[i] <= a < bins[i + 1])
  {
    CountLEBracket(a, bins);
  }

  function CategoryAt(t: WclTable, r: nat, j: nat, bins: seq<real>): Category
    requires WellFormed(t) && r < |t.rows| && HasMove(t, j)
  {
    Classify(MaxNan(t.rows[r].lcl[j], t.rows[r].wcl[j]), bins)
  }

  // --------------------------------------------------------------- counting

  /** The counters of one row after it meets category `c`: at most one goes up. */
  function Bump(row: seq<nat>, c: Category): (r: seq<nat>)
    ensures |r| == |row|
  {
    if c.Bin? && c.index < |row| then row[c.index := row[c.index] + 1] else row
  }

  /** Raising one counter by one raises the total by one. */
  lemma {:induction false} SumIntIncrement(s: seq<nat>, t: seq<nat>, i: nat)
    requires i < |s| == |t| && t[i] == s[i] + 1
    requires forall k :: 0 <= k < |s| && k != i ==> t[k] == s[k]
    ensures SumInt(t) == SumInt(s) + 1
  {
    var n := |s| - 1;
    if i < n {
      SumIntIncrement(s[..n], t[..n], i);
    } else {
      assert t[..n] == s[..n];
    }
  }

  /** Meeting a category adds one to the row's total or nothing. */
  lemma BumpTotal(row: seq<nat>, c: Category)
    ensures SumInt(Bump(row, c)) == SumInt(row) + (if c.Bin? && c.index < |row| then 1 else 0)
  {
    if c.Bin? && c.index < |row| {
      SumIntIncrement(row, Bump(row, c), c.index);
    }
  }

  /** The first row at or after `r` whose size runs past the labels (or the number of rows). */
  function FirstPast(t: WclTable, j: nat, bins: seq<real>, r: nat): (f: nat)
    requires WellFormed(t) && HasMove(t, j) && r <= |t.rows|
    decreases |t.rows| - r
    ensures r <= f <= |t.rows|
    ensures f < |t.rows| ==> CategoryAt(t, f, j, bins) == PastLabels
    ensures forall k :: r <= k < f ==> CategoryAt(t, k, j, bins) != PastLabels
  {
    if r == |t.rows| || CategoryAt(t, r, j, bins) == PastLabels then r else FirstPast(t, j, bins, r + 1)
  }

  /** The counters after rows `0 .. upTo-1` of move `j` have been counted. */
  function CountRows(counts: seq<seq<nat>>, t: WclTable, j: nat, bins: seq<real>, upTo: nat): (c: seq<seq<nat>>)
    requires WellFormed(t) && HasMove(t, j) && |counts| == |t.rows| && upTo <= |t.rows|
    ensures |c| == |counts|
    ensures forall r :: 0 <= r < |c| ==> c[r] == if r < upTo then Bump(counts[r], CategoryAt(t, r, j, bins)) else counts[r]
  {
    seq(|counts|, r requires 0 <= r < |counts| =>
      if r < upTo then Bump(counts[r], CategoryAt(t, r, j, bins)) else counts[r])
  }

  /**
   * The counters after the scan from move `j` on: each move counts the rows
   * up to the first one past the labels. An exception, whether that one or a
   * missing column, ends the scan.
   */
  function Scan(counts: seq<seq<nat>>, t: WclTable, j: nat, bins: seq<real>): (c: seq<seq<nat>>)
    requires WellFormed(t) && |counts| == |t.rows|
    decreases t.wclColumns - j
    ensures |c| == |counts|
  {
    if !HasMove(t, j) then counts
    else
      var f := FirstPast(t, j, bins, 0);
      var next := CountRows(counts, t, j, bins, f);
      if f < |t.rows| then next else Scan(next, t, j + 1, bins)
  }

  /** How many moves the scan visits from `j` on, counting the one whose exception stops it. */
  function Visited(t: WclTable, j: nat, bins: seq<real>): (n: nat)
    requires WellFormed(t)
    decreases t.wclColumns - j
    ensures n <= Min(t.wclColumns, t.lclColumns) - j || (n == 0 && !HasMove(t, j))
  {
    if !HasMove(t, j) then 0
    else if FirstPast(t, j, bins, 0) < |t.rows| then 1
    else 1 + Visited(t, j + 1, bins)
  }

  /** Every visited move adds at most one to a row's total: no (row, move) pair counts twice. */
  lemma {:induction false} ScanTotals(counts: seq<seq<nat>>, t: WclTable, j: nat, bins: seq<real>, r: nat)
    requires WellFormed(t) && |counts| == |t.rows| && r < |t.rows|
    decreases t.wclColumns - j
    ensures |Scan(counts, t, j, bins)[r]| == |counts[r]|
    ensures SumInt(counts[r]) <= SumInt(Scan(counts, t, j, bins)[r]) <= SumInt(counts[r]) + Visited(t, j, bins)
  {
    if HasMove(t, j) {
      var f := FirstPast(t, j, bins, 0);
      var next := CountRows(counts, t, j, bins, f);
      BumpTotal(counts[r], CategoryAt(t, r, j, bins));
      if f == |t.rows| {
        ScanTotals(next, t, j + 1, bins, r);
      }
    }
  }

  /** The counters of a scan from zero are the row's hits: a counter below the number of visited moves. */
  lemma ScanFromZero(t: WclTable, moveStart: nat, bins: seq<real>, r: nat, b: nat)
    requires WellFormed(t) && r < |t.rows| && b < LabelCount(bins)
    ensures var c := Scan(Zeros(|t.rows|, LabelCount(bins)), t, moveStart, bins);
      |c[r]| == LabelCount(bins) && c[r][b] <= Visited(t, moveStart, bins)
  {
    var z := Zeros(|t.rows|, LabelCount(bins));
    ScanTotals(z, t, moveStart, bins, r);
    ZeroRowSum(|bins| - 1);
    var row := Scan(z, t, moveStart, bins)[r];
    ElementBelowSum(row, b);
  }

  function Zeros(rows: nat, width: nat): (z: seq<seq<nat>>)
    ensures |z| == rows && forall r :: 0 <= r < rows ==> z[r] == seq(width, _ => 0)
  {
    seq(rows, _ => seq(width, _ => 0))
  }

  lemma {:induction false} ZeroRowSum(width: nat)
    ensures SumInt(seq(width, _ => 0)) == 0
  {
    if width > 0 {
      assert seq(width, _ => 0)[..width - 1] == seq(width - 1, _ => 0);
      ZeroRowSum(width - 1);
    }
  }

  lemma {:induction false} ElementBelowSum(s: seq<nat>, i: nat)
    requires i < |s|
    ensures s[i] <= SumInt(s)
  {
    var n := |s| - 1;
    NatSum(s[..n]);
    if i < n {
      ElementBelowSum(s[..n], i);
    }
  }

  lemma {:induction false} NatSum(s: seq<nat>)
    ensures SumInt(s) >= 0
  {
    if s != [] {
      NatSum(s[..|s| - 1]);
    }
  }

  // ------------------------------------------------------------ the method

  /**
   * `Mistakes_by_player` on one table: the counters start at zero, one row
   * and one label column each, and the scan starts at `moveStart`. The result
   * is the counters as they stand when the scan stops.
   */
  method MistakesByPlayer(t: WclTable, bins: seq<real>, moveStart: nat) returns (counts: seq<seq<nat>>)
    requires WellFormed(t)
    ensures counts == Scan(Zeros(|t.rows|, LabelCount(bins)), t, moveStart, bins)
  {
    counts := Zeros(|t.rows|, LabelCount(bins));
    ghost var start := counts;
    var j := moveStart;
    while HasMove(t, j)
      invariant |counts| == |t.rows|
      invariant Scan(counts, t, j, bins) == Scan(start, t, moveStart, bins)
      decreases t.wclColumns - j
    {
      var raised;
      counts, raised := CountMove(counts, t, j, bins);
      if raised {
        return;
      }
      j := j + 1;
    }
  }

  /** One move's pass over the rows, in row order, stopping at the first IndexError. */
  method CountMove(counts: seq<seq<nat>>, t: WclTable, j: nat, bins: seq<real>) returns (next: seq<seq<nat>>, raised: bool)
    requires WellFormed(t) && HasMove(t, j) && |counts| == |t.rows|
    ensures raised <==> FirstPast(t, j, bins, 0) < |t.rows|
    ensures next == CountRows(counts, t, j, bins, FirstPast(t, j, bins, 0))
  {
    next := counts;
    var r := 0;
    while r < |t.rows|
      invariant r <= FirstPast(t, j, bins, 0)
      invariant next == CountRows(counts, t, j, bins, r)
    {
      var row := t.rows[r];
      var a := MaxNan(row.lcl[j], row.wcl[j]);
      var c := Classify(a, bins);
      if c == PastLabels {
        assert CategoryAt(t, r, j, bins) == PastLabels;
        return next, true;
      }
      next := next[r := Bump(next[r], c)];
      r := r + 1;
    }
    raised := false;
  }
}
