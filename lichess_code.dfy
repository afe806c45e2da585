/**
 * The Lichess-style accuracy code of data_analysis/lichess_code.py:
 *   - the centipawn-to-win-percentage curve;
 *   - the per-game volatility weights over a window of win percentages;
 *   - the per-move accuracy, measured from the player's side against the
 *     previous row of the same game;
 *   - the per-player total accuracy;
 *   - the two rows per game of the summary table.
 * A DataFrame is a sequence of rows. `np.exp` and `np.std` are parameters.
 */
module LichessCode {
  import opened Base
  import opened Chess
  import opened Means
  import FailedUtils

  // ---------------------------------------------------------- win percent

  /** `cp_to_win_percent`: 50 + 50 * (2 / (1 + exp(-0.00368208 * cp)) - 1), always in (0, 100]. */
  function CpToWinPercent(cp: real, exp: real -> NonNegReal): (w: real)
    ensures 0.0 < w <= 100.0
  {
    FailedUtils.LogisticRange(exp(FailedUtils.Multiplier * cp));
    50.0 + 50.0 * (2.0 / (1.0 + exp(FailedUtils.Multiplier * cp)) - 1.0)
  }

  /** On whole centipawns the curve is the one of failed_attempt/utils.py. */
  lemma SameCurveAsUtils(cp: int, exp: real -> NonNegReal)
    ensures CpToWinPercent(cp as real, exp) == FailedUtils.WinPercent(cp, exp)
  {
  }

  /** With an exponential that turns negation into a reciprocal, negating the score mirrors the percentage. */
  lemma CurveSymmetric(cp: real, exp: real -> NonNegReal)
    requires exp(FailedUtils.Multiplier * -cp) * exp(FailedUtils.Multiplier * cp) == 1.0
    ensures CpToWinPercent(-cp, exp) == 100.0 - CpToWinPercent(cp, exp)
  {
    FailedUtils.LogisticOdd(exp(FailedUtils.Multiplier * cp), exp(FailedUtils.Multiplier * -cp));
  }

  // ---------------------------------------------------- volatility weights

  /** The game's win percentages with the first one prepended once more. */
  function GameWinPercents(cps: seq<real>, exp: real -> NonNegReal): (w: seq<real>)
    requires |cps| > 0
    ensures |w| == |cps| + 1 && w[0] == w[1]
    ensures forall k :: 0 <= k < |cps| ==> w[k + 1] == CpToWinPercent(cps[k], exp)
  {
    [CpToWinPercent(cps[0], exp)] + seq(|cps|, k requires 0 <= k < |cps| => CpToWinPercent(cps[k], exp))
  }

  /**
   * The window of move `i` (1 <= i < total): `max(0, i - ws // 2)` up to,
   * not including, `min(total, i + ws // 2)`. It always holds entries i - 1
   * and i, and at most `ws` entries.
   */
  function WindowBounds(total: nat, i: nat, ws: nat): (b: (nat, nat))
    requires 1 <= i < total && ws >= 2
    ensures b.0 <= i - 1 && i + 1 <= b.1 <= total
    ensures b.1 - b.0 <= ws
  {
    (Max(0, i - ws / 2), Min(total, i + ws / 2))
  }

  /** The weight of move `i`: the spread of its window, clamped to [0.5, 12]. */
  function WeightAt(w: seq<real>, i: nat, ws: nat, std: seq<real> -> real): real
    requires 1 <= i < |w| && ws >= 2
  {
    var b := WindowBounds(|w|, i, ws);
    Clamp(std(w[b.0..b.1]), 0.5, 12.0)
  }

  /**
   * `compute_volatility_weights` for one game's centipawn column: one weight
   * per move, each in [0.5, 12]; a game without rows fails on
   * `win_percents[0]`.
   */
  function VolatilityWeights(cps: seq<real>, exp: real -> NonNegReal, std: seq<real> -> real): (r: Result<seq<real>>)
    ensures r.Err? <==> cps == []
    ensures r.Err? ==> r.error == "IndexError"
    ensures r.Ok? ==> |r.value| == |cps| && forall k :: 0 <= k < |cps| ==> 0.5 <= r.value[k] <= 12.0
  {
    if cps == [] then Err("IndexError")
    else
      var w := GameWinPercents(cps, exp);
      var ws := WindowSize(|w|);
      Ok(seq(|cps|, k requires 0 <= k < |cps| => WeightAt(w, k + 1, ws, std)))
  }

  /** Each move's window holds the win percentages before and after it. */
  lemma WindowHoldsMove(cps: seq<real>, k: nat, exp: real -> NonNegReal)
    requires k < |cps|
    ensures var w := GameWinPercents(cps, exp);
      var b := WindowBounds(|w|, k + 1, WindowSize(|w|));
      var window := w[b.0..b.1];
      k - b.0 + 1 < |window| && window[k - b.0] == w[k] && window[k - b.0 + 1] == CpToWinPercent(cps[k], exp)
  {
    var w := GameWinPercents(cps, exp);
    WindowEnds(w, k + 1, WindowSize(|w|));
  }

  /** Entries i - 1 and i of any sequence lie in window i, at offsets i - 1 - start and i - start. */
  lemma WindowEnds<T>(w: seq<T>, i: nat, ws: nat)
    requires 1 <= i < |w| && ws >= 2
    ensures var b := WindowBounds(|w|, i, ws);
      i - b.0 < |w[b.0..b.1]| && w[b.0..b.1][i - 1 - b.0] == w[i - 1] && w[b.0..b.1][i - b.0] == w[i]
  {
  }

  /** The loop over one game. */
  method ComputeVolatilityWeights(cps: seq<real>, exp: real -> NonNegReal, std: seq<real> -> real)
    returns (r: Result<seq<real>>)
    ensures r == VolatilityWeights(cps, exp, std)
  {
    if |cps| == 0 {
      return Err("IndexError");
    }
    var winPercents := GameWinPercents(cps, exp);
    var totalMoves := |winPercents|;
    var windowSize := WindowSize(totalMoves);
    var weights: seq<real> := [];
    for i := 1 to totalMoves
      invariant |weights| == i - 1
      invariant forall j :: 1 <= j < i ==> weights[j - 1] == WeightAt(winPercents, j, windowSize, std)
    {
      var startIdx := Max(0, i - windowSize / 2);
      var endIdx := Min(totalMoves, i + windowSize / 2);
      assert (startIdx, endIdx) == WindowBounds(totalMoves, i, windowSize);
      var window := winPercents[startIdx..endIdx];
      var volatility := std(window);
      weights := weights + [Clamp(volatility, 0.5, 12.0)];
    }
    assert weights == VolatilityWeights(cps, exp, std).value;
    r := Ok(weights);
  }

  // --------------------------------------------------------- move accuracy

  datatype MoveRow = MoveRow(gameId: int, moveNumber: int, evaluation: real)

  /** The columns `compute_move_accuracy` adds to a row. */
  datatype AccuracyRow = AccuracyRow(
    cp: real, winPercent: real, player: Color, winPercentPlayer: real,
    winPercentBefore: real, winPercentBeforePlayer: real, accuracy: real)

  /** Odd move numbers are White's. */
  function PlayerOf(moveNumber: int): Color
  {
    if moveNumber % 2 != 0 then White else Black
  }

  /** A White-side win percentage seen from side `c`. */
  function FromSide(w: real, c: Color): real
  {
    if c == White then w else 100.0 - w
  }

  const AccuracyA: real := 103.1668
  const AccuracyK: real := 0.04354
  const AccuracyB: real := 3.1669

  /** `103.1668 * exp(-0.04354 * delta) - 3.1669`, clipped to [0, 100]. */
  function MoveAccuracy(delta: real, exp: real -> NonNegReal): (a: real)
    ensures 0.0 <= a <= 100.0
  {
    Clamp(AccuracyA * exp(-AccuracyK * delta) - AccuracyB, 0.0, 100.0)
  }

  /** With an increasing exponential, a larger drop never earns a higher accuracy. */
  lemma AccuracyFalls(delta: real, delta2: real, exp: real -> NonNegReal)
    requires delta <= delta2 && exp(-AccuracyK * delta2) <= exp(-AccuracyK * delta)
    ensures MoveAccuracy(delta2, exp) <= MoveAccuracy(delta, exp)
  {
    ClampMono(AccuracyA * exp(-AccuracyK * delta2) - AccuracyB, AccuracyA * exp(-AccuracyK * delta) - AccuracyB, 0.0, 100.0);
  }

  function RowWinPercent(row: MoveRow, exp: real -> NonNegReal): real
  {
    CpToWinPercent(row.evaluation * 100.0, exp)
  }

  /** The win percentage of the last of `rows` that belongs to game `g`, if any. */
  function LastWinPercent(rows: seq<MoveRow>, g: int, exp: real -> NonNegReal): Option<real>
    decreases |rows|
  {
    if rows == [] then None
    else if rows[|rows| - 1].gameId == g then Some(RowWinPercent(rows[|rows| - 1], exp))
    else LastWinPercent(rows[..|rows| - 1], g, exp)
  }

  /** `shift(1)` within a game is the win percentage of the latest earlier row of that game, and there is none exactly when no earlier row belongs to it. */
  lemma {:induction false} LastWinPercentIs(rows: seq<MoveRow>, g: int, exp: real -> NonNegReal)
    ensures LastWinPercent(rows, g, exp).None? <==> forall j :: 0 <= j < |rows| ==> rows[j].gameId != g
    ensures LastWinPercent(rows, g, exp).Some? ==>
      exists j :: 0 <= j < |rows| && rows[j].gameId == g && LastWinPercent(rows, g, exp).value == RowWinPercent(rows[j], exp) &&
        forall j' :: j < j' < |rows| ==> rows[j'].gameId != g
    decreases |rows|
  {
    if rows != [] {
      var n := |rows| - 1;
      if rows[n].gameId != g {
        LastWinPercentIs(rows[..n], g, exp);
        assert forall j :: 0 <= j < n ==> rows[..n][j] == rows[j];
        if LastWinPercent(rows, g, exp).Some? {
          var j :| 0 <= j < n && rows[..n][j].gameId == g && LastWinPercent(rows[..n], g, exp).value == RowWinPercent(rows[..n][j], exp) &&
            forall j' :: j < j' < n ==> rows[..n][j'].gameId != g;
          assert rows[j].gameId == g;
        }
      }
    }
  }

  /** `WinPercentBefore` of row `i`: the shifted value, or the row's own when it is its game's first row. */
  function Before(rows: seq<MoveRow>, i: nat, exp: real -> NonNegReal): real
    requires i < |rows|
  {
    match LastWinPercent(rows[..i], rows[i].gameId, exp)
    case None => RowWinPercent(rows[i], exp)
    case Some(w) => w
  }

  function AccuracyRowAt(rows: seq<MoveRow>, i: nat, exp: real -> NonNegReal): AccuracyRow
    requires i < |rows|
  {
    var wp := RowWinPercent(rows[i], exp);
    var c := PlayerOf(rows[i].moveNumber);
    var before := Before(rows, i, exp);
    AccuracyRow(rows[i].evaluation * 100.0, wp, c, FromSide(wp, c), before, FromSide(before, c),
                MoveAccuracy(FromSide(before, c) - FromSide(wp, c), exp))
  }

  /** The columns for every row, in the frame's order. */
  function MoveAccuracies(rows: seq<MoveRow>, exp: real -> NonNegReal): (r: seq<AccuracyRow>)
    ensures |r| == |rows| && forall i :: 0 <= i < |rows| ==> r[i] == AccuracyRowAt(rows, i, exp)
  {
    seq(|rows|, i requires 0 <= i < |rows| => AccuracyRowAt(rows, i, exp))
  }

  /** The first row of a game compares the position with itself: zero drop, so the accuracy of a zero drop. */
  lemma FirstMoveOfGame(rows: seq<MoveRow>, i: nat, exp: real -> NonNegReal)
    requires i < |rows| && forall j :: 0 <= j < i ==> rows[j].gameId != rows[i].gameId
    ensures AccuracyRowAt(rows, i, exp).winPercentBefore == AccuracyRowAt(rows, i, exp).winPercent
    ensures AccuracyRowAt(rows, i, exp).accuracy == MoveAccuracy(0.0, exp)
    ensures exp(0.0) == 1.0 ==> AccuracyRowAt(rows, i, exp).accuracy == AccuracyA - AccuracyB
  {
    LastWinPercentIs(rows[..i], rows[i].gameId, exp);
  }

  /** A later row of a game compares with the latest earlier row of the same game, from this row's player's side. */
  lemma LaterMoveOfGame(rows: seq<MoveRow>, i: nat, j: nat, exp: real -> NonNegReal)
    requires j < i < |rows| && rows[j].gameId == rows[i].gameId
    requires forall j' :: j < j' < i ==> rows[j'].gameId != rows[i].gameId
    ensures AccuracyRowAt(rows, i, exp).winPercentBefore == RowWinPercent(rows[j], exp)
    ensures AccuracyRowAt(rows, i, exp).winPercentBeforePlayer == FromSide(RowWinPercent(rows[j], exp), PlayerOf(rows[i].moveNumber))
  {
    LastWinPercentIs(rows[..i], rows[i].gameId, exp);
    assert rows[..i][j] == rows[j];
    if LastWinPercent(rows[..i], rows[i].gameId, exp).Some? {
      var k :| 0 <= k < i && rows[..i][k].gameId == rows[i].gameId &&
        LastWinPercent(rows[..i], rows[i].gameId, exp).value == RowWinPercent(rows[..i][k], exp) &&
        forall j' :: k < j' < i ==> rows[..i][j'].gameId != rows[i].gameId;
      assert k == j;
    }
  }

  /** Black's drop is White's gain: for the same two positions the two sides' drops are opposite. */
  lemma DropsOpposite(before: real, after: real)
    ensures FromSide(before, Black) - FromSide(after, Black) == -(FromSide(before, White) - FromSide(after, White))
  {
  }

  /** With a symmetric exponential, Black's view of a score is the curve at the negated score. */
  lemma BlackViewIsNegatedScore(cp: real, exp: real -> NonNegReal)
    requires exp(FailedUtils.Multiplier * -cp) * exp(FailedUtils.Multiplier * cp) == 1.0
    ensures FromSide(CpToWinPercent(cp, exp), Black) == CpToWinPercent(-cp, exp)
  {
    CurveSymmetric(cp, exp);
  }

  /** What `last` holds for game `g`: the last win percentage seen for it. */
  function Lookup(last: map<int, real>, g: int): Option<real>
  {
    if g in last then Some(last[g]) else None
  }

  lemma LastStep(rows: seq<MoveRow>, i: nat, g: int, exp: real -> NonNegReal)
    requires i < |rows|
    ensures LastWinPercent(rows[..i + 1], g, exp) ==
      (if g == rows[i].gameId then Some(RowWinPercent(rows[i], exp)) else LastWinPercent(rows[..i], g, exp))
  {
    var p := rows[..i + 1];
    assert |p| - 1 == i && p[..i] == rows[..i] && p[i] == rows[i];
  }

  lemma LookupStep(last: map<int, real>, next: map<int, real>, rows: seq<MoveRow>, i: nat, exp: real -> NonNegReal)
    requires i < |rows| && next == last[rows[i].gameId := RowWinPercent(rows[i], exp)]
    requires forall g :: Lookup(last, g) == LastWinPercent(rows[..i], g, exp)
    ensures forall g :: Lookup(next, g) == LastWinPercent(rows[..i + 1], g, exp)
  {
    forall g ensures Lookup(next, g) == LastWinPercent(rows[..i + 1], g, exp) {
      LastStep(rows, i, g, exp);
    }
  }

  /** The column assignments, row by row; `last` remembers each game's latest win percentage, as the grouped shift does. */
  method ComputeMoveAccuracy(rows: seq<MoveRow>, exp: real -> NonNegReal) returns (out: seq<AccuracyRow>)
    ensures out == MoveAccuracies(rows, exp)
  {
    out := [];
    var last: map<int, real> := map[];
    for i := 0 to |rows|
      invariant |out| == i && forall j :: 0 <= j < i ==> out[j] == AccuracyRowAt(rows, j, exp)
      invariant forall g :: Lookup(last, g) == LastWinPercent(rows[..i], g, exp)
    {
      var row := rows[i];
      var cp := row.evaluation * 100.0;
      var winPercent := CpToWinPercent(cp, exp);
      var player := PlayerOf(row.moveNumber);
      var winPercentPlayer := FromSide(winPercent, player);
      var winPercentBefore := if row.gameId in last then last[row.gameId] else winPercent;
      assert Lookup(last, row.gameId) == LastWinPercent(rows[..i], row.gameId, exp);
      assert winPercentBefore == Before(rows, i, exp);
      var winPercentBeforePlayer := FromSide(winPercentBefore, player);
      var accuracy := MoveAccuracy(winPercentBeforePlayer - winPercentPlayer, exp);
      var result := AccuracyRow(cp, winPercent, player, winPercentPlayer, winPercentBefore, winPercentBeforePlayer, accuracy);
      assert result == AccuracyRowAt(rows, i, exp);
      out := out + [result];
      LookupStep(last, last[row.gameId := winPercent], rows, i, exp);
      last := last[row.gameId := winPercent];
    }
  }

  // -------------------------------------------------------- total accuracy

  /** `np.where(A_i == 0, 0.1, A_i)`: no accuracy is left at zero. */
  function NonZero(accs: seq<real>): (a: seq<real>)
    ensures |a| == |accs|
    ensures forall k :: 0 <= k < |a| ==> a[k] != 0.0 && (accs[k] != 0.0 ==> a[k] == accs[k])
    ensures forall k :: 0 <= k < |a| ==> (0.0 <= accs[k] <= 100.0 ==> 0.0 < a[k] <= 100.0)
  {
    seq(|accs|, k requires 0 <= k < |accs| => if accs[k] == 0.0 then 0.1 else accs[k])
  }

  /**
   * `compute_total_accuracy`: the mean of the weighted mean and the harmonic
   * mean of the zero-replaced accuracies; `None` where numpy would divide by
   * a zero sum.
   */
  function TotalAccuracy(accs: seq<real>, weights: seq<real>): Option<real>
    requires |weights| == |accs|
  {
    var nz := NonZero(accs);
    var totalWeight := Sum(weights);
    var totalRecip := Sum(Recips(nz));
    if totalWeight == 0.0 || totalRecip == 0.0 then None
    else Some((Sum(Products(accs, weights)) / totalWeight + |accs| as real / totalRecip) / 2.0)
  }

  /** Clipped accuracies with volatility weights give a total accuracy in [0, 100]. */
  lemma TotalAccuracyRange(accs: seq<real>, weights: seq<real>)
    requires |weights| == |accs| > 0
    requires forall k :: 0 <= k < |accs| ==> 0.0 <= accs[k] <= 100.0 && weights[k] >= 0.5
    ensures TotalAccuracy(accs, weights).Some?
    ensures 0.0 <= TotalAccuracy(accs, weights).value <= 100.0
  {
    var nz := NonZero(accs);
    SumAtLeast(weights, 0.5);
    HarmonicAtMost(nz, 100.0, Sum(Recips(nz)));
    WeightedMeanBounds(accs, weights, 0.0, 100.0, Sum(Products(accs, weights)), Sum(weights));
  }

  // --------------------------------------------------------- summary table

  /** The game-level columns of the first row of a game, with its highest move number and both players' totals. */
  datatype GameInfo = GameInfo(
    gameId: int, year: string, opening: string, variation: string, result: string, totalMoves: int,
    whiteName: string, blackName: string, whiteElo: int, blackElo: int, whiteFideId: string, blackFideId: string,
    whiteAccuracy: Option<real>, blackAccuracy: Option<real>)

  datatype SummaryRow = SummaryRow(
    gameId: int, year: string, opening: string, variation: string, result: string, totalMoves: int,
    player: Color, name: string, elo: int, fideId: string, totalAccuracy: Option<real>)

  function WhiteRow(g: GameInfo): SummaryRow
  {
    SummaryRow(g.gameId, g.year, g.opening, g.variation, g.result, g.totalMoves,
               White, g.whiteName, g.whiteElo, g.whiteFideId, g.whiteAccuracy)
  }

  function BlackRow(g: GameInfo): SummaryRow
  {
    SummaryRow(g.gameId, g.year, g.opening, g.variation, g.result, g.totalMoves,
               Black, g.blackName, g.blackElo, g.blackFideId, g.blackAccuracy)
  }

  /** The sorted summary: each game's White row, then its Black row, game by game. */
  function SummaryTable(games: seq<GameInfo>): (t: seq<SummaryRow>)
    ensures |t| == 2 * |games|
    ensures forall i :: 0 <= i < |games| ==> t[2 * i] == WhiteRow(games[i]) && t[2 * i + 1] == BlackRow(games[i])
  {
    if games == [] then [] else [WhiteRow(games[0]), BlackRow(games[0])] + SummaryTable(games[1..])
  }

  /** `white_df`: one White row per game, in game order. */
  function WhiteRows(games: seq<GameInfo>): seq<SummaryRow>
  {
    if games == [] then [] else [WhiteRow(games[0])] + WhiteRows(games[1..])
  }

  /** `black_df`: one Black row per game, in game order. */
  function BlackRows(games: seq<GameInfo>): seq<SummaryRow>
  {
    if games == [] then [] else [BlackRow(games[0])] + BlackRows(games[1..])
  }

  /** The summary holds exactly the rows of the concatenated White and Black frames. */
  lemma {:induction false} SummaryIsPermutation(games: seq<GameInfo>)
    ensures multiset(SummaryTable(games)) == multiset(WhiteRows(games) + BlackRows(games))
  {
    if games != [] {
      var rest := games[1..];
      SummaryIsPermutation(rest);
      var w, b := WhiteRow(games[0]), BlackRow(games[0]);
      Shuffle(w, b, WhiteRows(rest), BlackRows(rest), SummaryTable(rest));
    }
  }

  lemma Shuffle<T>(w: T, b: T, ws: seq<T>, bs: seq<T>, t: seq<T>)
    requires multiset(t) == multiset(ws + bs)
    ensures multiset([w, b] + t) == multiset(([w] + ws) + ([b] + bs))
  {
    assert multiset([w, b] + t) == multiset{w, b} + multiset(ws) + multiset(bs);
  }

  function PlayerRank(c: Color): nat { if c == White then 0 else 1 }

  /** Row `a` comes before row `b` in the (GameID, Player) order, White before Black. */
  predicate RowBefore(a: SummaryRow, b: SummaryRow)
  {
    a.gameId < b.gameId || (a.gameId == b.gameId && PlayerRank(a.player) < PlayerRank(b.player))
  }

  /** With game ids strictly increasing, as grouping yields them, the summary is strictly sorted by (GameID, Player). */
  lemma SummarySorted(games: seq<GameInfo>)
    requires forall i, j :: 0 <= i < j < |games| ==> games[i].gameId < games[j].gameId
    ensures forall i, j :: 0 <= i < j < |SummaryTable(games)| ==> RowBefore(SummaryTable(games)[i], SummaryTable(games)[j])
  {
    var t := SummaryTable(games);
    forall i, j | 0 <= i < j < |t| ensures RowBefore(t[i], t[j]) {
      var gi, gj := i / 2, j / 2;
      assert t[i] == (if i % 2 == 0 then WhiteRow(games[gi]) else BlackRow(games[gi]));
      assert t[j] == (if j % 2 == 0 then WhiteRow(games[gj]) else BlackRow(games[gj]));
      if gi < gj {
        assert games[gi].gameId < games[gj].gameId;
      }
    }
  }
}
