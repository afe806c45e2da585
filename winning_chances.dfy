/**
 * data_analysis/winning_chances.py: the first version of the outcome table.
 * For every evaluation interval it counts the games that reach a position
 * inside the interval and reports how often White won, drew and lost.
 * It also holds a smoother that gives every cell 1/3 when no inner bin is
 * trusted, the evaluation-text converter and a per-ply table lookup.
 *
 * `float(str)` and `np.round(x, 1)` are parameters; pandas' NaN is `None`.
 */
module WinningChances {
  import opened Base
  import Text
  import U = WinningChancesUtil

  // ------------------------------------------------------------ outcomes

  /** `get_outcome`: White's outcome for "1-0", "0-1" and "1/2-1/2", None for every other result. */
  function GetOutcome(result: string): (o: Option<U.Outcome>)
    ensures o.Some? <==> result in {"1-0", "0-1", "1/2-1/2"}
  {
    if result == "1-0" then Some(U.Win)
    else if result == "0-1" then Some(U.Loss)
    else if result == "1/2-1/2" then Some(U.Draw)
    else None
  }

  /** The number this file gives an outcome: win 0, loss 1, draw 2. */
  function OutcomeNumber(o: U.Outcome): (i: nat)
    ensures i < 3
  {
    match o
    case Win => 0
    case Loss => 1
    case Draw => 2
  }

  /** `get_outcome_num`: 0 for "1-0", 1 for "0-1", 2 for "1/2-1/2", None otherwise. */
  function GetOutcomeNum(result: string): (n: Option<nat>)
    ensures n.Some? ==> n.value < 3
  {
    if result == "1-0" then Some(0)
    else if result == "0-1" then Some(1)
    else if result == "1/2-1/2" then Some(2)
    else None
  }

  /** The number is the one of the named outcome, both reject the same results, and each number belongs to one result. */
  lemma OutcomeNumAgrees(result: string, i: nat)
    ensures GetOutcomeNum(result) == if GetOutcome(result).None? then None else Some(OutcomeNumber(GetOutcome(result).value))
    ensures GetOutcomeNum(result) == Some(i) <==>
      i < 3 && result == (if i == 0 then "1-0" else if i == 1 then "0-1" else "1/2-1/2")
  {
  }

  /** This file numbers loss and draw the other way round from the table builder in winning_chances_util.py. */
  lemma NumberingDiffers()
    ensures OutcomeNumber(U.Loss) != U.OutcomeIndex(U.Loss) && OutcomeNumber(U.Draw) != U.OutcomeIndex(U.Draw)
    ensures OutcomeNumber(U.Win) == U.OutcomeIndex(U.Win)
  {
  }

  // ------------------------------------------------------------ evaluation text

  /** A White mate announcement other than mate in 0. */
  const WhiteMate: real := 20.0

  /**
   * `convert_evaluation`: mate in 0 (with either sign or none) is 0; "+M…"
   * and "M…" are a White mate, "-M…" a Black mate; anything else is parsed
   * as a float, None (NaN) where the parse fails.
   */
  function ConvertEvaluation(s: string, parse: string -> Option<real>): (v: Option<real>)
  {
    if s in ["+M0", "-M0", "M0"] then Some(0.0)
    else if Text.StartsWith(s, "+M") || (Text.StartsWith(s, "M") && !Text.StartsWith(s, "-M")) then Some(WhiteMate)
    else if Text.StartsWith(s, "-M") then Some(-WhiteMate)
    else parse(s)
  }

  /** The mate-in-0 test comes first, the mate texts never reach the parser, and every other text is parsed. */
  lemma ConvertCases(s: string, parse: string -> Option<real>, rest: string)
    ensures ConvertEvaluation("-M0", parse) == Some(0.0)
    ensures rest != "0" ==> ConvertEvaluation("-M" + rest, parse) == Some(-20.0)
    ensures rest != "0" ==> ConvertEvaluation("+M" + rest, parse) == Some(20.0)
    ensures rest != "0" ==> ConvertEvaluation("M" + rest, parse) == Some(20.0)
    ensures !Text.StartsWith(s, "+M") && !Text.StartsWith(s, "-M") && !Text.StartsWith(s, "M") ==>
      ConvertEvaluation(s, parse) == parse(s)
  {
    var neg, pos, bare := "-M" + rest, "+M" + rest, "M" + rest;
    assert neg[..2] == "-M" && pos[..2] == "+M" && bare[..1] == "M";
    assert neg[0] == '-' && pos[0] == '+' && bare[0] == 'M';
    if rest != "0" {
      assert neg != "-M0" by { if rest == [] {} else { assert neg[2..] == rest; } }
      assert pos != "+M0" by { if rest == [] {} else { assert pos[2..] == rest; } }
      assert bare != "M0" by { if rest == [] {} else { assert bare[1..] == rest; } }
    }
  }

  // ------------------------------------------------------------ chances in an evaluation window

  /** One row of the position table. */
  datatype Position = Position(gameId: int, evaluation: Option<real>, result: string)

  /** `lower <= e <= upper` on pandas values: NaN compares false, the infinite edges admit every number. */
  predicate InWindow(e: Option<real>, lower: U.Edge, upper: U.Edge)
  {
    e.Some?
    && (match lower case Fin(x) => x <= e.value case PosInf => false case NegInf => true)
    && (match upper case Fin(x) => e.value <= x case NegInf => false case PosInf => true)
  }

  /** `positions_in_range['GameID'].unique()`. */
  function GamesInRange(df: seq<Position>, lower: U.Edge, upper: U.Edge): set<int>
  {
    set i | 0 <= i < |df| && InWindow(df[i].evaluation, lower, upper) :: df[i].gameId
  }

  /** `df[df['GameID'].isin(games)][['GameID', 'Result']].drop_duplicates()`. */
  function GameResults(df: seq<Position>, games: set<int>): set<(int, string)>
  {
    set i | 0 <= i < |df| && df[i].gameId in games :: (df[i].gameId, df[i].result)
  }

  /** The (game, result) pairs whose result is a win, draw or loss. */
  function Valid(pairs: set<(int, string)>): set<(int, string)>
  {
    set p | p in pairs && GetOutcome(p.1).Some?
  }

  function WithOutcome(pairs: set<(int, string)>, o: U.Outcome): set<(int, string)>
  {
    set p | p in pairs && GetOutcome(p.1) == Some(o)
  }

  datatype Chances = Chances(winning: real, drawing: real, losing: real, totalValidGames: nat)

  /** `calculate_chances(df, lower, upper)` without the outcome counts it also returns. */
  function CalculateChances(df: seq<Position>, lower: U.Edge, upper: U.Edge): Chances
  {
    var pairs := GameResults(df, GamesInRange(df, lower, upper));
    var total := |Valid(pairs)|;
    if total == 0 then Chances(0.0, 0.0, 0.0, 0)
    else
      Chances(|WithOutcome(pairs, U.Win)| as real / total as real * 100.0,
              |WithOutcome(pairs, U.Draw)| as real / total as real * 100.0,
              |WithOutcome(pairs, U.Loss)| as real / total as real * 100.0,
              total)
  }

  /** The valid pairs split into wins, draws and losses. */
  lemma ValidSplit(pairs: set<(int, string)>)
    ensures |Valid(pairs)| == |WithOutcome(pairs, U.Win)| + |WithOutcome(pairs, U.Draw)| + |WithOutcome(pairs, U.Loss)|
  {
    var w, d, l := WithOutcome(pairs, U.Win), WithOutcome(pairs, U.Draw), WithOutcome(pairs, U.Loss);
    assert Valid(pairs) == w + d + l;
    assert w * d == {} && (w + d) * l == {};
  }

  /** An empty window gives three zeros; otherwise the three chances are percentages of the valid games and add up to 100. */
  lemma ChancesSum(df: seq<Position>, lower: U.Edge, upper: U.Edge)
    ensures var c := CalculateChances(df, lower, upper);
      (c.totalValidGames == 0 ==> c == Chances(0.0, 0.0, 0.0, 0))
      && (c.totalValidGames > 0 ==> c.winning + c.drawing + c.losing == 100.0)
      && 0.0 <= c.winning && 0.0 <= c.drawing && 0.0 <= c.losing
  {
    var pairs := GameResults(df, GamesInRange(df, lower, upper));
    ValidSplit(pairs);
    var total := |Valid(pairs)|;
    if total > 0 {
      U.PercentagesSum(|WithOutcome(pairs, U.Win)| as real, |WithOutcome(pairs, U.Draw)| as real,
        |WithOutcome(pairs, U.Loss)| as real, total as real);
    }
  }

  /** A game counts once per window: another row of a game already listed changes nothing. */
  lemma GameCountsOnce(df: seq<Position>, i: nat, lower: U.Edge, upper: U.Edge)
    requires i < |df|
    ensures CalculateChances(df + [df[i]], lower, upper) == CalculateChances(df, lower, upper)
  {
    RepeatedRowGames(df, i, lower, upper);
    RepeatedRowResults(df, i, GamesInRange(df, lower, upper));
  }

  lemma RepeatedRowGames(df: seq<Position>, i: nat, lower: U.Edge, upper: U.Edge)
    requires i < |df|
    ensures GamesInRange(df + [df[i]], lower, upper) == GamesInRange(df, lower, upper)
  {
    var df2 := df + [df[i]];
    forall g | g in GamesInRange(df2, lower, upper) ensures g in GamesInRange(df, lower, upper) {
      var k :| 0 <= k < |df2| && InWindow(df2[k].evaluation, lower, upper) && df2[k].gameId == g;
      if k == |df| { assert df2[k] == df[i]; } else { assert df2[k] == df[k]; }
    }
    forall g | g in GamesInRange(df, lower, upper) ensures g in GamesInRange(df2, lower, upper) {
      var k :| 0 <= k < |df| && InWindow(df[k].evaluation, lower, upper) && df[k].gameId == g;
      assert df2[k] == df[k];
    }
  }

  lemma RepeatedRowResults(df: seq<Position>, i: nat, games: set<int>)
    requires i < |df|
    ensures GameResults(df + [df[i]], games) == GameResults(df, games)
  {
    var df2 := df + [df[i]];
    forall p | p in GameResults(df2, games) ensures p in GameResults(df, games) {
      var k :| 0 <= k < |df2| && df2[k].gameId in games && p == (df2[k].gameId, df2[k].result);
      if k == |df| { assert df2[k] == df[i]; } else { assert df2[k] == df[k]; }
    }
    forall p | p in GameResults(df, games) ensures p in GameResults(df2, games) {
      var k :| 0 <= k < |df| && df[k].gameId in games && p == (df[k].gameId, df[k].result);
      assert df2[k] == df[k];
    }
  }

  /** The window is closed at both ends: a position exactly on an edge puts its game in both neighbouring intervals. */
  lemma EdgeInBothIntervals(df: seq<Position>, intervals: seq<real>, i: nat, k: nat)
    requires Sorted(intervals) && k < |df| && i < |intervals| && df[k].evaluation == Some(intervals[i])
    ensures var edges := U.Edges(intervals);
      df[k].gameId in GamesInRange(df, edges[i], edges[i + 1]) && df[k].gameId in GamesInRange(df, edges[i + 1], edges[i + 2])
  {
    var edges := U.Edges(intervals);
    assert edges[i + 1] == U.Fin(intervals[i]);
    assert i > 0 ==> edges[i] == U.Fin(intervals[i - 1]);
    assert i + 1 < |intervals| ==> edges[i + 2] == U.Fin(intervals[i + 1]);
    assert InWindow(df[k].evaluation, edges[i], edges[i + 1]);
    assert InWindow(df[k].evaluation, edges[i + 1], edges[i + 2]);
  }

  // ------------------------------------------------------------ the table

  datatype ChanceRow = ChanceRow(interval: string, winning: real, drawing: real, losing: real, totalGames: nat)

  /** The row for the interval between two edges. */
  function RowFor(df: seq<Position>, lower: U.Edge, upper: U.Edge, lbl: string): ChanceRow
  {
    var c := CalculateChances(df, lower, upper);
    ChanceRow(lbl, c.winning, c.drawing, c.losing, c.totalValidGames)
  }

  /** Row `i` of the table: the chances between edges `i` and `i + 1`. */
  function TableRow(df: seq<Position>, intervals: seq<real>, show: real -> string, i: nat): ChanceRow
    requires i < |intervals| + 1
  {
    RowFor(df, U.Edges(intervals)[i], U.Edges(intervals)[i + 1], U.Labels(intervals, show)[i])
  }

  /** `np.round(intervals, decimals=1)`. */
  function RoundedTenths(intervals: seq<real>, round1: real -> real): (r: seq<real>)
    ensures |r| == |intervals|
  {
    seq(|intervals|, k requires 0 <= k < |intervals| => round1(intervals[k]))
  }

  /** The result loop: one row per consecutive pair of edges, in order. */
  method ChanceRows(df: seq<Position>, edges: seq<U.Edge>, labels: seq<string>) returns (table: seq<ChanceRow>)
    requires |labels| + 1 == |edges|
    ensures |table| == |labels| && forall i :: 0 <= i < |table| ==> table[i] == RowFor(df, edges[i], edges[i + 1], labels[i])
  {
    table := [];
    var i := 0;
    while i < |edges| - 1
      invariant 0 <= i <= |edges| - 1
      invariant |table| == i && forall k :: 0 <= k < i ==> table[k] == RowFor(df, edges[k], edges[k + 1], labels[k])
    {
      var c := CalculateChances(df, edges[i], edges[i + 1]);
      table := table + [ChanceRow(labels[i], c.winning, c.drawing, c.losing, c.totalValidGames)];
      i := i + 1;
    }
  }

  /** `compute_winning_chance_table`: the labels first, then one row per consecutive pair of edges. */
  method ComputeWinningChanceTable(df: seq<Position>, intervals: seq<real>, round1: real -> real, show: real -> string)
    returns (table: seq<ChanceRow>)
    ensures var iv := RoundedTenths(intervals, round1);
      |table| == |iv| + 1 && forall i :: 0 <= i < |table| ==> table[i] == TableRow(df, iv, show, i)
  {
    var iv := RoundedTenths(intervals, round1);
    var edges := U.Edges(iv);
    var labels := U.BuildLabels(iv, show);
    table := ChanceRows(df, edges, labels);
  }

  /** Every table row carries its interval's label and chances that are zero or add up to 100. */
  lemma TableRowShape(df: seq<Position>, intervals: seq<real>, show: real -> string, i: nat)
    requires i < |intervals| + 1
    ensures var r := TableRow(df, intervals, show, i);
      r.interval == U.Label(U.Edges(intervals)[i], U.Edges(intervals)[i + 1], show)
      && (r.totalGames == 0 ==> r.winning == r.drawing == r.losing == 0.0)
      && (r.totalGames > 0 ==> r.winning + r.drawing + r.losing == 100.0)
  {
    var edges := U.Edges(intervals);
    ChancesSum(df, edges[i], edges[i + 1]);
  }

  // ------------------------------------------------------------ smoothing with a 1/3 fallback

  /** `count_games[1:-2]`: the bins between the second and the second-to-last. */
  function Inner(count: seq<real>): (inner: seq<real>)
    ensures |inner| == if |count| >= 3 then |count| - 3 else 0
    ensures forall p :: 0 <= p < |inner| ==> inner[p] == count[p + 1]
  {
    if |count| >= 3 then count[1..|count| - 2] else []
  }

  /** Three rows of `n` cells, every one 1/3. */
  function Thirds(n: nat): (rows: seq<seq<real>>)
    ensures U.Rows3(rows, n) && forall j, k :: 0 <= j < 3 && 0 <= k < n ==> rows[j][k] == 1.0 / 3.0
  {
    var row := seq(n, k => 1.0 / 3.0);
    [row, row, row]
  }

  /** The x-coordinates handed to `np.interp`: `bins[1:]`. */
  function Xs(bins: seq<real>): (xs: seq<real>)
    ensures Sorted(bins) ==> Sorted(xs)
  {
    if bins == [] then [] else bins[1..]
  }

  /**
   * `np.interp(bins[1:], bins[1:][t], row[1:-2][t])`, stretched over the
   * `m` inner cells: a result of one value is broadcast to all of them.
   */
  function InnerValues(row: seq<real>, t: seq<nat>, xs: seq<real>, m: nat): (vals: seq<real>)
    requires Sorted(xs) && |t| > 0 && (|xs| == m || |xs| == 1) && |row| == m + 3
    requires forall i :: 0 <= i < |t| ==> t[i] < |xs| && t[i] < m
    requires forall i, j :: 0 <= i < j < |t| ==> t[i] < t[j]
    ensures |vals| == m
  {
    U.PickSorted(xs, t);
    var inner := row[1..m + 1];
    seq(m, p requires 0 <= p < m => Interp(xs[if |xs| == 1 then 0 else p], U.Pick(xs, t), U.Pick(inner, t)))
  }

  /** A row after the mixed case: the inner cells interpolated, then column 1 copied to 0 and column -2 to -1. */
  function MixedRow(row: seq<real>, vals: seq<real>): (out: seq<real>)
    requires |row| == |vals| + 3 && |vals| > 0
    ensures |out| == |row|
    ensures out[0] == vals[0] && out[|row| - 1] == row[|row| - 2] && out[|row| - 2] == row[|row| - 2]
    ensures forall k :: 1 <= k < |row| - 2 ==> out[k] == vals[k - 1]
  {
    [vals[0]] + vals + [row[|row| - 2], row[|row| - 2]]
  }

  /** The trusted list of a sequence that is trusted everywhere holds every index. */
  lemma {:induction false} TrustedAll(c: seq<real>, n: nat)
    requires n <= |c| && forall k :: 0 <= k < n ==> c[k] > U.NMin
    ensures |U.Trusted(c, n)| == n
  {
    if n > 0 {
      TrustedAll(c, n - 1);
    }
  }

  /** Whether the mixed case can run: the trusted knots exist in `bins[1:]`, and the interpolated row fits or broadcasts. */
  function MixedError(t: seq<nat>, xs: seq<real>, m: nat): Option<string>
    requires |t| > 0
  {
    if t[|t| - 1] >= |xs| then Some("IndexError")
    else if |xs| != m && |xs| != 1 then Some("ValueError")
    else None
  }

  /**
   * `smooth_lines` of data_analysis/winning_chances.py on a (3, n) array:
   * with no trusted inner bin every cell becomes 1/3; with trusted and
   * untrusted inner bins the inner cells are interpolated from the trusted
   * ones and the end columns copied from their neighbours; numpy's
   * IndexError or ValueError where `bins` does not fit the array.
   */
  function SmoothThirds(rows: seq<seq<real>>, count: seq<real>, bins: seq<real>): (r: Result<seq<seq<real>>>)
    requires U.Rows3(rows, |count|) && Sorted(bins)
    ensures r.Ok? ==> U.Rows3(r.value, |count|)
  {
    var n := |count|;
    var inner := Inner(count);
    var t := U.Trusted(inner, |inner|);
    var xs := Xs(bins);
    if |t| == 0 then Ok(Thirds(n))
    else if |t| == |inner| then Ok(rows)
    else match MixedError(t, xs, |inner|)
      case Some(e) => Err(e)
      case None => Ok(MixedRows(rows, t, xs, |inner|))
  }

  /** The three rows after the mixed case. */
  function MixedRows(rows: seq<seq<real>>, t: seq<nat>, xs: seq<real>, m: nat): (out: seq<seq<real>>)
    requires U.Rows3(rows, m + 3) && Sorted(xs) && |t| > 0 && (|xs| == m || |xs| == 1) && m > 0
    requires forall i :: 0 <= i < |t| ==> t[i] < |xs| && t[i] < m
    requires forall i, j :: 0 <= i < j < |t| ==> t[i] < t[j]
    ensures U.Rows3(out, m + 3)
  {
    [MixedRow(rows[0], InnerValues(rows[0], t, xs, m)),
     MixedRow(rows[1], InnerValues(rows[1], t, xs, m)),
     MixedRow(rows[2], InnerValues(rows[2], t, xs, m))]
  }

  /** With no inner bin above 100 games every cell becomes 1/3, whatever the bins. */
  lemma SmoothNoTrusted(rows: seq<seq<real>>, count: seq<real>, bins: seq<real>)
    requires U.Rows3(rows, |count|) && Sorted(bins)
    requires forall k :: 1 <= k < |count| - 2 ==> count[k] <= U.NMin
    ensures SmoothThirds(rows, count, bins) == Ok(Thirds(|count|))
  {
  }

  /** With every inner bin trusted (and at least one inner bin) nothing changes. */
  lemma SmoothAllTrusted(rows: seq<seq<real>>, count: seq<real>, bins: seq<real>)
    requires U.Rows3(rows, |count|) && Sorted(bins) && |count| > 3
    requires forall k :: 1 <= k < |count| - 2 ==> count[k] > U.NMin
    ensures SmoothThirds(rows, count, bins) == Ok(rows)
  {
    var inner := Inner(count);
    TrustedAll(inner, |inner|);
  }

  /** When `bins` has two fewer edges than the array has columns, `np.interp` fits the inner cells and nothing raises. */
  lemma SmoothShapedNeverRaises(rows: seq<seq<real>>, count: seq<real>, bins: seq<real>)
    requires U.Rows3(rows, |count|) && Sorted(bins) && |bins| + 2 == |count|
    ensures SmoothThirds(rows, count, bins).Ok?
  {
  }

  /** Some inner bins are trusted and some are not. */
  predicate Mixed(count: seq<real>)
  {
    0 < |U.Trusted(Inner(count), |Inner(count)|)| < |Inner(count)|
  }

  /** Trusted and untrusted inner bins together put the smoother in its mixed case. */
  lemma MixedCase(count: seq<real>)
    requires exists k :: 1 <= k < |count| - 2 && count[k] > U.NMin
    requires exists k :: 1 <= k < |count| - 2 && count[k] <= U.NMin
    ensures Mixed(count)
  {
    var inner := Inner(count);
    var k0 :| 1 <= k0 < |count| - 2 && count[k0] > U.NMin;
    assert inner[k0 - 1] > U.NMin;
    var k1 :| 1 <= k1 < |count| - 2 && count[k1] <= U.NMin;
    assert inner[k1 - 1] <= U.NMin;
    U.TrustedCount(inner, |inner|);
  }

  /** In the mixed case a result that does not raise is the interpolated rows. */
  lemma SmoothIsMixed(rows: seq<seq<real>>, count: seq<real>, bins: seq<real>)
    requires U.Rows3(rows, |count|) && Sorted(bins) && Mixed(count) && SmoothThirds(rows, count, bins).Ok?
    ensures var inner := Inner(count);
      var t, xs, m := U.Trusted(inner, |inner|), Xs(bins), |inner|;
      MixedError(t, xs, m).None? && |count| == m + 3 &&
      SmoothThirds(rows, count, bins).value == MixedRows(rows, t, xs, m)
  {
  }

  /** Interpolating three rows whose trusted inner cells sum to 100 gives inner cells that sum to 100. */
  lemma InnerValuesSum(rows: seq<seq<real>>, t: seq<nat>, xs: seq<real>, m: nat, p: nat)
    requires U.Rows3(rows, m + 3) && Sorted(xs) && |t| > 0 && (|xs| == m || |xs| == 1) && p < m
    requires forall i :: 0 <= i < |t| ==> t[i] < |xs| && t[i] < m
    requires forall i, j :: 0 <= i < j < |t| ==> t[i] < t[j]
    requires forall i :: 0 <= i < |t| ==> rows[0][t[i] + 1] + rows[1][t[i] + 1] + rows[2][t[i] + 1] == 100.0
    ensures InnerValues(rows[0], t, xs, m)[p] + InnerValues(rows[1], t, xs, m)[p] + InnerValues(rows[2], t, xs, m)[p] == 100.0
  {
    U.PickSorted(xs, t);
    var p0, p1, p2 := U.Pick(rows[0][1..m + 1], t), U.Pick(rows[1][1..m + 1], t), U.Pick(rows[2][1..m + 1], t);
    forall i | 0 <= i < |t| ensures p0[i] + p1[i] + p2[i] == 100.0 {
      assert p0[i] == rows[0][t[i] + 1] && p1[i] == rows[1][t[i] + 1] && p2[i] == rows[2][t[i] + 1];
    }
    InterpSum(xs[if |xs| == 1 then 0 else p], U.Pick(xs, t), p0, p1, p2, 100.0);
  }

  /** The trusted inner columns are the trusted columns of the array, shifted by one. */
  lemma TrustedInnerCells(count: seq<real>, k: nat)
    requires k < |U.Trusted(Inner(count), |Inner(count)|)|
    ensures var t := U.Trusted(Inner(count), |Inner(count)|);
      1 <= t[k] + 1 < |count| - 2 && count[t[k] + 1] > U.NMin
  {
  }

  /** When the trusted inner columns and column -2 sum to 100, every column of the mixed-case rows does. */
  lemma MixedRowsSums(rows: seq<seq<real>>, t: seq<nat>, xs: seq<real>, m: nat, k: nat)
    requires U.Rows3(rows, m + 3) && Sorted(xs) && |t| > 0 && (|xs| == m || |xs| == 1) && m > 0 && k < m + 3
    requires forall i :: 0 <= i < |t| ==> t[i] < |xs| && t[i] < m
    requires forall i, j :: 0 <= i < j < |t| ==> t[i] < t[j]
    requires forall i :: 0 <= i < |t| ==> rows[0][t[i] + 1] + rows[1][t[i] + 1] + rows[2][t[i] + 1] == 100.0
    requires rows[0][m + 1] + rows[1][m + 1] + rows[2][m + 1] == 100.0
    ensures var out := MixedRows(rows, t, xs, m);
      out[0][k] + out[1][k] + out[2][k] == 100.0
  {
    if k < m + 1 {
      InnerValuesSum(rows, t, xs, m, if k == 0 then 0 else k - 1);
    }
  }

  /** The listed trusted inner columns are the array's columns above 100 games, shifted by one. */
  lemma TrustedInnerSums(rows: seq<seq<real>>, count: seq<real>)
    requires U.Rows3(rows, |count|)
    requires forall k :: 1 <= k < |count| - 2 && count[k] > U.NMin ==> rows[0][k] + rows[1][k] + rows[2][k] == 100.0
    ensures var t := U.Trusted(Inner(count), |Inner(count)|);
      forall i :: 0 <= i < |t| ==> rows[0][t[i] + 1] + rows[1][t[i] + 1] + rows[2][t[i] + 1] == 100.0
  {
    var t := U.Trusted(Inner(count), |Inner(count)|);
    forall i | 0 <= i < |t| ensures rows[0][t[i] + 1] + rows[1][t[i] + 1] + rows[2][t[i] + 1] == 100.0 {
      TrustedInnerCells(count, i);
    }
  }

  /** The (3, n) array as three rows. */
  function Grid(w: array2<real>): (rows: seq<seq<real>>)
    requires w.Length0 == 3
    reads w
    ensures U.Rows3(rows, w.Length1)
    ensures forall j, k :: 0 <= j < 3 && 0 <= k < w.Length1 ==> rows[j][k] == w[j, k]
  {
    [seq(w.Length1, k requires 0 <= k < w.Length1 reads w => w[0, k]),
     seq(w.Length1, k requires 0 <= k < w.Length1 reads w => w[1, k]),
     seq(w.Length1, k requires 0 <= k < w.Length1 reads w => w[2, k])]
  }

  /** `winchance_array[j, 1:-2] = vals`. */
  method SetInner(w: array2<real>, j: nat, vals: seq<real>)
    requires w.Length0 == 3 && j < 3 && |vals| + 3 == w.Length1
    modifies w
    ensures forall i, k :: 0 <= i < 3 && 0 <= k < w.Length1 ==>
      w[i, k] == if i == j && 1 <= k < w.Length1 - 2 then vals[k - 1] else old(w[i, k])
  {
    forall k | 1 <= k < w.Length1 - 2 {
      w[j, k] := vals[k - 1];
    }
  }

  /** `winchance_array[:, 0] = winchance_array[:, 1]` and then `winchance_array[:, -1] = winchance_array[:, -2]`. */
  method CopyEnds(w: array2<real>)
    requires w.Length0 == 3 && w.Length1 >= 4
    modifies w
    ensures forall i, k :: 0 <= i < 3 && 0 <= k < w.Length1 ==>
      w[i, k] == if k == 0 then old(w[i, 1]) else if k == w.Length1 - 1 then old(w[i, w.Length1 - 2]) else old(w[i, k])
  {
    var n := w.Length1;
    w[0, 0], w[1, 0], w[2, 0] := w[0, 1], w[1, 1], w[2, 1];
    w[0, n - 1], w[1, n - 1], w[2, n - 1] := w[0, n - 2], w[1, n - 2], w[2, n - 2];
  }

  /** `winchance_array[:, :] = 1/3`. */
  method FillThirds(w: array2<real>)
    requires w.Length0 == 3
    modifies w
    ensures Grid(w) == Thirds(w.Length1)
  {
    forall i, k | 0 <= i < 3 && 0 <= k < w.Length1 {
      w[i, k] := 1.0 / 3.0;
    }
    U.Rows3Equal(Grid(w), Thirds(w.Length1), w.Length1);
  }

  /** The mixed case on the array: every row's inner cells interpolated, then the end columns copied. */
  method SmoothMixedInPlace(w: array2<real>, t: seq<nat>, xs: seq<real>, m: nat)
    requires w.Length0 == 3 && w.Length1 == m + 3 && Sorted(xs) && |t| > 0 && (|xs| == m || |xs| == 1) && m > 0
    requires forall i :: 0 <= i < |t| ==> t[i] < |xs| && t[i] < m
    requires forall i, j :: 0 <= i < j < |t| ==> t[i] < t[j]
    modifies w
    ensures Grid(w) == MixedRows(old(Grid(w)), t, xs, m)
  {
    ghost var g0 := Grid(w);
    var n := m + 3;
    for j := 0 to 3
      invariant forall i, k :: 0 <= i < 3 && 0 <= k < n ==>
        w[i, k] == if i < j && 1 <= k < n - 2 then InnerValues(g0[i], t, xs, m)[k - 1] else g0[i][k]
    {
      var row := seq(n, k requires 0 <= k < n reads w => w[j, k]);
      assert row == g0[j];
      var vals := InnerValues(row, t, xs, m);
      SetInner(w, j, vals);
    }
    CopyEnds(w);
    U.Rows3Equal(Grid(w), MixedRows(g0, t, xs, m), n);
  }

  /** `smooth_lines(winchance_array, count_games, bins)`: the array is changed in place; a raised error leaves it as it was. */
  method SmoothLines(w: array2<real>, count: seq<real>, bins: seq<real>) returns (err: Option<string>)
    requires w.Length0 == 3 && w.Length1 == |count| && Sorted(bins)
    modifies w
    ensures SmoothThirds(old(Grid(w)), count, bins).Ok? ==>
      err.None? && Grid(w) == SmoothThirds(old(Grid(w)), count, bins).value
    ensures SmoothThirds(old(Grid(w)), count, bins).Err? ==>
      err == Some(SmoothThirds(old(Grid(w)), count, bins).error) && Grid(w) == old(Grid(w))
  {
    ghost var g0 := Grid(w);
    var inner := Inner(count);
    var t := U.Trusted(inner, |inner|);
    var xs := Xs(bins);
    var m := |inner|;
    if 0 < |t| < m {
      err := MixedError(t, xs, m);
      if err.Some? {
        return;
      }
      SmoothMixedInPlace(w, t, xs, m);
    } else if |t| == 0 {
      FillThirds(w);
      err := None;
    } else {
      err := None;
    }
  }

  // ------------------------------------------------------------ per-ply lookup

  /** numpy's integer `p // q`, which gives 0 (with a warning) when `q` is 0. */
  function FloorDiv(p: nat, q: nat): nat
  {
    if q == 0 then 0 else p / q
  }

  /** The (evaluation bin, move bin) cell that entry `p` of the broadcast index arrays selects. */
  function LookupCell(evaluations: seq<Option<real>>, moves: nat, bins: seq<real>, binMoves: nat, p: nat): (nat, nat)
    requires |evaluations| > 0
  {
    var ev := evaluations[if |evaluations| == 1 then 0 else Min(p, |evaluations| - 1)];
    (DigitizeLeft(ev, bins), FloorDiv(if moves == 1 then 0 else p, binMoves))
  }

  predicate InTable(table: seq<seq<real>>, cell: (nat, nat))
  {
    cell.0 < |table| && cell.1 < |table[cell.0]|
  }

  /**
   * `get_winning_chance`: `winchance_array[0, digitize(evaluations, bins),
   * arange(moves) // bin_moves]`, with `table` the win plane indexed by
   * evaluation bin then move bin. The two index arrays broadcast (equal
   * lengths, or one of length 1) or numpy raises IndexError, as it does for
   * an index past the table.
   */
  function WinningChance(table: seq<seq<real>>, evaluations: seq<Option<real>>, moves: nat, bins: seq<real>, binMoves: nat)
    : (r: Result<seq<real>>)
  {
    var a := |evaluations|;
    if !(a == moves || a == 1 || moves == 1) then Err("IndexError")
    else
      var len := if a == 1 then moves else a;
      if a == 0 then Ok([])
      else if exists p :: 0 <= p < len && !InTable(table, LookupCell(evaluations, moves, bins, binMoves, p))
      then Err("IndexError")
      else
        Ok(seq(len, p requires 0 <= p < len =>
          table[LookupCell(evaluations, moves, bins, binMoves, p).0][LookupCell(evaluations, moves, bins, binMoves, p).1]))
  }

  /**
   * For a game with one evaluation per move, ply `p` reads the evaluation bin
   * of its own evaluation (`bins[e-1] <= x < bins[e]`) at move bin
   * `p // bin_moves` (0 when `bin_moves` is 0); a table with a row per bin and columns for every move
   * bin never raises.
   */
  lemma WinningChancePerPly(table: seq<seq<real>>, evaluations: seq<Option<real>>, bins: seq<real>, binMoves: nat, p: nat)
    requires |evaluations| > 1 && p < |evaluations| && |table| == |bins| + 1
    requires forall e, q :: 0 <= e < |table| && 0 <= q < |evaluations| ==> FloorDiv(q, binMoves) < |table[e]|
    ensures var r := WinningChance(table, evaluations, |evaluations|, bins, binMoves);
      r.Ok? && |r.value| == |evaluations| && r.value[p] == table[DigitizeLeft(evaluations[p], bins)][FloorDiv(p, binMoves)]
  {
    var n := |evaluations|;
    forall q | 0 <= q < n ensures InTable(table, LookupCell(evaluations, n, bins, binMoves, q)) {
      var c := LookupCell(evaluations, n, bins, binMoves, q);
      assert c.1 == FloorDiv(q, binMoves);
    }
  }

  /** Index arrays of lengths that do not broadcast raise. */
  lemma WinningChanceMismatch(table: seq<seq<real>>, evaluations: seq<Option<real>>, moves: nat, bins: seq<real>, binMoves: nat)
    requires |evaluations| != moves && |evaluations| != 1 && moves != 1
    ensures WinningChance(table, evaluations, moves, bins, binMoves) == Err("IndexError")
  {
  }
}
