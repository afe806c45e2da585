/**
 * The accuracy analyzer of failed_attempt/analysis.py. Its move loop is the
 * one of failed_attempt/chess6.py, extended: every move's win percentage
 * (mover's side) is appended to a history that starts at 50, and the move's
 * accuracy compares it with the entry before it. Afterwards each move gets
 * a volatility weight from a window of that history, the (accuracy, weight)
 * pairs are split by the colour of the mover, and each side's accuracy is
 * the mean of a weighted and a harmonic mean. `exp` and `numpy.std` are
 * parameters.
 */
module FailedAnalysis {
  import opened Base
  import opened Chess
  import opened Means
  import opened FailedUtils
  import C6 = Chess6

  datatype MoveEval = MoveEval(moveNumber: nat, move: string, cpl: real, winPercent: real, accuracy: real)

  /** What the move loop leaves behind, list by list. */
  datatype Moves = Moves(
    evaluations: seq<MoveEval>, whiteCpls: seq<int>, blackCpls: seq<int>,
    winPercents: seq<real>, accuracies: seq<real>, colors: seq<bool>)

  datatype Analysis = Analysis(
    whiteElo: int, blackElo: int, result: string, evaluations: seq<MoveEval>,
    whiteAcpl: Option<real>, blackAcpl: Option<real>,
    whiteAccuracy: Option<real>, blackAccuracy: Option<real>)

  // ------------------------------------------------------------- move loop

  /** Move `k`'s win percentage from its mover's side. */
  function PlayerWinPercent(plies: seq<Ply<C6.Reply>>, k: nat, exp: real -> NonNegReal): (w: real)
    requires k < |plies| && plies[k].reply.Analysed?
    ensures 0.0 <= w <= 100.0
  {
    WinPercent(C6.PlayerScore(plies[k].reply, k), exp)
  }

  lemma AnalysedPrefix(plies: seq<Ply<C6.Reply>>, n: nat)
    requires C6.AllAnalysed(plies) && n <= |plies|
    ensures C6.AllAnalysed(plies[..n])
  {
    assert forall k :: 0 <= k < n ==> plies[..n][k] == plies[k];
  }

  /** `all_win_percents` after the loop: 50, then one entry per move. */
  function WinPercents(plies: seq<Ply<C6.Reply>>, exp: real -> NonNegReal): (w: seq<real>)
    requires C6.AllAnalysed(plies)
    ensures |w| == |plies| + 1 && w[0] == 50.0
    decreases |plies|
  {
    if plies == [] then [50.0]
    else
      AnalysedPrefix(plies, |plies| - 1);
      WinPercents(plies[..|plies| - 1], exp) + [PlayerWinPercent(plies, |plies| - 1, exp)]
  }

  /** Entry `k + 1` of the history is move `k`'s win percentage from its mover's side. */
  lemma {:induction false} WinPercentsAt(plies: seq<Ply<C6.Reply>>, k: nat, exp: real -> NonNegReal)
    requires C6.AllAnalysed(plies) && k < |plies|
    ensures WinPercents(plies, exp)[k + 1] == PlayerWinPercent(plies, k, exp)
    decreases |plies|
  {
    var n := |plies| - 1;
    if k < n {
      AnalysedPrefix(plies, n);
      WinPercentsAt(plies[..n], k, exp);
      assert plies[..n][k] == plies[k];
    }
  }

  /** Move `k`'s accuracy compares history entry `k` (before the move) with entry `k + 1`; every accuracy is in [0, 100]. */
  function Accuracies(history: seq<real>, exp: real -> NonNegReal): (a: seq<real>)
    requires |history| > 0
    ensures |a| == |history| - 1
    ensures forall k :: 0 <= k < |a| ==> 0.0 <= a[k] <= 100.0
    decreases |history|
  {
    if |history| == 1 then []
    else
      var n := |history| - 1;
      Accuracies(history[..n], exp) + [AccuracyFromWinPercents(history[n - 1], history[n], exp)]
  }

  lemma {:induction false} AccuraciesAt(history: seq<real>, k: nat, exp: real -> NonNegReal)
    requires k + 1 < |history|
    ensures Accuracies(history, exp)[k] == AccuracyFromWinPercents(history[k], history[k + 1], exp)
    decreases |history|
  {
    var n := |history| - 1;
    if k + 1 < n {
      AccuraciesAt(history[..n], k, exp);
    }
  }

  /** The record of move `k`, played as `p`. */
  function RecordAt(p: Ply<C6.Reply>, k: nat, history: seq<real>, exp: real -> NonNegReal): MoveEval
    requires p.reply.Analysed? && k + 1 < |history|
  {
    MoveEval(k + 1, p.san, C6.Loss(p.reply, k) as real / 100.0,
             history[k + 1], AccuracyFromWinPercents(history[k], history[k + 1], exp))
  }

  /** `evaluations`: one record per move, its win percentage and accuracy read from the history. */
  function Records(plies: seq<Ply<C6.Reply>>, history: seq<real>, exp: real -> NonNegReal): (e: seq<MoveEval>)
    requires C6.AllAnalysed(plies) && |history| == |plies| + 1
    ensures |e| == |plies|
    decreases |plies|
  {
    if plies == [] then []
    else
      var n := |plies| - 1;
      AnalysedPrefix(plies, n);
      Records(plies[..n], history[..n + 1], exp) + [RecordAt(plies[n], n, history, exp)]
  }

  /** `move_colors`: True exactly for White's moves, the even plies. */
  function Colors(n: nat): (c: seq<bool>)
    ensures |c| == n && forall k :: 0 <= k < n ==> (c[k] <==> MoverAt(k) == White)
  {
    if n == 0 then [] else Colors(n - 1) + [MoverAt(n - 1) == White]
  }

  /** What the move loop computes: nothing when a move fails, otherwise every list it fills. */
  function MovesOf(plies: seq<Ply<C6.Reply>>, exp: real -> NonNegReal): Option<Moves>
  {
    if !C6.AllAnalysed(plies) then None
    else
      var history := WinPercents(plies, exp);
      Some(Moves(Records(plies, history, exp), Evens(C6.Losses(plies)), Odds(C6.Losses(plies)),
                 history, Accuracies(history, exp), Colors(|plies|)))
  }

  lemma HistoryStep(plies: seq<Ply<C6.Reply>>, k: nat, exp: real -> NonNegReal)
    requires k < |plies| && C6.AllAnalysed(plies[..k]) && plies[k].reply.Analysed?
    ensures C6.AllAnalysed(plies[..k + 1])
    ensures WinPercents(plies[..k + 1], exp) == WinPercents(plies[..k], exp) + [PlayerWinPercent(plies, k, exp)]
  {
    assert plies[..k + 1][..k] == plies[..k];
    assert plies[..k + 1][k] == plies[k];
  }

  lemma AccuraciesStep(history: seq<real>, x: real, exp: real -> NonNegReal)
    requires |history| > 0
    ensures Accuracies(history + [x], exp) == Accuracies(history, exp) + [AccuracyFromWinPercents(history[|history| - 1], x, exp)]
  {
    assert (history + [x])[..|history|] == history;
  }

  lemma RecordsStep(plies: seq<Ply<C6.Reply>>, history: seq<real>, k: nat, x: real, exp: real -> NonNegReal)
    requires k < |plies| && C6.AllAnalysed(plies[..k]) && C6.AllAnalysed(plies[..k + 1]) && |history| == k + 1
    ensures Records(plies[..k + 1], history + [x], exp) == Records(plies[..k], history, exp) + [RecordAt(plies[k], k, history + [x], exp)]
  {
    assert plies[..k + 1][..k] == plies[..k];
    assert (history + [x])[..k + 1] == history;
    assert plies[..k + 1][k] == plies[k];
  }

  /** What one more analysed move adds to each list. */
  function Extend(m: Moves, p: Ply<C6.Reply>, k: nat, exp: real -> NonNegReal): Moves
    requires p.reply.Analysed? && |m.winPercents| == k + 1
  {
    var w := WinPercent(C6.PlayerScore(p.reply, k), exp);
    var d := C6.Loss(p.reply, k);
    var history := m.winPercents + [w];
    Moves(m.evaluations + [RecordAt(p, k, history, exp)],
          if MoverAt(k) == White then m.whiteCpls + [d] else m.whiteCpls,
          if MoverAt(k) == White then m.blackCpls else m.blackCpls + [d],
          history, m.accuracies + [AccuracyFromWinPercents(m.winPercents[k], w, exp)], m.colors + [MoverAt(k) == White])
  }

  predicate Extendable(plies: seq<Ply<C6.Reply>>, k: nat, exp: real -> NonNegReal)
  {
    k < |plies| && MovesOf(plies[..k], exp).Some? && plies[k].reply.Analysed? &&
    C6.AllAnalysed(plies[..k + 1]) && MovesOf(plies[..k + 1], exp).Some? &&
    |MovesOf(plies[..k], exp).value.winPercents| == k + 1
  }

  lemma ExtendableAt(plies: seq<Ply<C6.Reply>>, k: nat, exp: real -> NonNegReal)
    requires k < |plies| && MovesOf(plies[..k], exp).Some? && plies[k].reply.Analysed?
    ensures Extendable(plies, k, exp)
  {
    HistoryStep(plies, k, exp);
  }

  lemma StepHistory(plies: seq<Ply<C6.Reply>>, k: nat, exp: real -> NonNegReal)
    requires Extendable(plies, k, exp)
    ensures var e := Extend(MovesOf(plies[..k], exp).value, plies[k], k, exp);
      var m1 := MovesOf(plies[..k + 1], exp).value;
      m1.winPercents == e.winPercents && m1.accuracies == e.accuracies && m1.colors == e.colors
  {
    HistoryStep(plies, k, exp);
    AccuraciesStep(WinPercents(plies[..k], exp), PlayerWinPercent(plies, k, exp), exp);
  }

  lemma StepCpls(plies: seq<Ply<C6.Reply>>, k: nat, exp: real -> NonNegReal)
    requires Extendable(plies, k, exp)
    ensures var e := Extend(MovesOf(plies[..k], exp).value, plies[k], k, exp);
      var m1 := MovesOf(plies[..k + 1], exp).value;
      m1.whiteCpls == e.whiteCpls && m1.blackCpls == e.blackCpls
  {
    C6.Step(plies, k, exp);
    EvensOddsAppend(C6.Losses(plies[..k]), C6.Loss(plies[k].reply, k));
  }

  lemma StepRecords(plies: seq<Ply<C6.Reply>>, k: nat, exp: real -> NonNegReal)
    requires Extendable(plies, k, exp)
    ensures Extend(MovesOf(plies[..k], exp).value, plies[k], k, exp).evaluations == MovesOf(plies[..k + 1], exp).value.evaluations
  {
    HistoryStep(plies, k, exp);
    RecordsStep(plies, WinPercents(plies[..k], exp), k, PlayerWinPercent(plies, k, exp), exp);
  }

  lemma MovesEq(a: Moves, b: Moves)
    requires a.evaluations == b.evaluations && a.whiteCpls == b.whiteCpls && a.blackCpls == b.blackCpls
    requires a.winPercents == b.winPercents && a.accuracies == b.accuracies && a.colors == b.colors
    ensures a == b
  {
  }

  /** The loop's lists after `k + 1` moves are those after `k` moves extended by move `k`. */
  lemma MovesStep(plies: seq<Ply<C6.Reply>>, k: nat, exp: real -> NonNegReal)
    requires k < |plies| && MovesOf(plies[..k], exp).Some? && plies[k].reply.Analysed?
    ensures |MovesOf(plies[..k], exp).value.winPercents| == k + 1
    ensures MovesOf(plies[..k + 1], exp) == Some(Extend(MovesOf(plies[..k], exp).value, plies[k], k, exp))
  {
    ExtendableAt(plies, k, exp);
    StepHistory(plies, k, exp);
    StepCpls(plies, k, exp);
    StepRecords(plies, k, exp);
    MovesEq(MovesOf(plies[..k + 1], exp).value, Extend(MovesOf(plies[..k], exp).value, plies[k], k, exp));
  }

  /** The loop over the mainline, stopping with nothing at the first failed move. */
  method AnalyzeMoves(plies: seq<Ply<C6.Reply>>, exp: real -> NonNegReal) returns (r: Option<Moves>)
    ensures r == MovesOf(plies, exp)
  {
    var m := Moves([], [], [], [50.0], [], []);
    var k := 0;
    assert plies[..0] == [];
    assert WinPercents([], exp) == [50.0];
    assert Records([], [50.0], exp) == [] && Accuracies([50.0], exp) == [] && C6.Losses([]) == [] && Colors(0) == [];
    while k < |plies|
      invariant 0 <= k <= |plies|
      invariant MovesOf(plies[..k], exp) == Some(m)
    {
      if plies[k].reply.Failed? {
        assert !C6.AllAnalysed(plies);
        return None;
      }
      MovesStep(plies, k, exp);
      m := RecordMove(m, plies[k], k, exp);
      k := k + 1;
    }
    assert plies[..k] == plies;
    r := Some(m);
  }

  /** The body of the loop for an analysed move: its loss, win percentage and accuracy appended to the lists. */
  method RecordMove(m: Moves, p: Ply<C6.Reply>, k: nat, exp: real -> NonNegReal) returns (next: Moves)
    requires p.reply.Analysed? && |m.winPercents| == k + 1
    ensures next == Extend(m, p, k, exp)
  {
    var deltaE := C6.Loss(p.reply, k);
    var winPercentPlayer := WinPercent(C6.PlayerScore(p.reply, k), exp);
    var allWinPercents := m.winPercents + [winPercentPlayer];
    var prevWinPercent := allWinPercents[|allWinPercents| - 2];
    var moveAccuracy := AccuracyFromWinPercents(prevWinPercent, winPercentPlayer, exp);
    var whiteCpls, blackCpls := m.whiteCpls, m.blackCpls;
    if MoverAt(k) == White {
      whiteCpls := whiteCpls + [deltaE];
    } else {
      blackCpls := blackCpls + [deltaE];
    }
    var evaluation := MoveEval(k + 1, p.san, deltaE as real / 100.0, winPercentPlayer, moveAccuracy);
    assert evaluation == RecordAt(p, k, allWinPercents, exp);
    next := Moves(m.evaluations + [evaluation], whiteCpls, blackCpls, allWinPercents,
                  m.accuracies + [moveAccuracy], m.colors + [MoverAt(k) == White]);
  }

  /**
   * A move is compared with the previous move's win percentage from the
   * previous mover's side, that is, from the opponent's side (the first move
   * with 50).
   */
  lemma BaselineIsOpponentView(plies: seq<Ply<C6.Reply>>, k: nat, exp: real -> NonNegReal)
    requires 0 < k < |plies| && C6.AllAnalysed(plies)
    ensures MoverAt(k - 1) != MoverAt(k)
    ensures WinPercents(plies, exp)[k] == WinPercent(C6.PlayerScore(plies[k - 1].reply, k - 1), exp)
    ensures C6.PlayerScore(plies[k - 1].reply, k - 1) == -C6.Oriented(EvalToScore(plies[k - 1].reply.afterMove), MoverAt(k))
  {
    WinPercentsAt(plies, k - 1, exp);
  }

  /** With a symmetric exponential, the opponent's view is 100 minus the mover's own view of the same position. */
  lemma OpponentViewComplement(w: real, s: int, exp: real -> NonNegReal)
    requires w == WinPercent(s, exp)
    requires exp(Multiplier * (-s) as real) * exp(Multiplier * s as real) == 1.0
    ensures w == 100.0 - WinPercent(-s, exp)
  {
    WinPercentSymmetric(s, exp);
  }

  // ---------------------------------------------------------------- weights

  /** Window `i`: the history from `i - ws + 1` (at least 0) up to and including entry `i + 1`. */
  function Window(values: seq<real>, i: nat, ws: nat): seq<real>
    requires i + 2 <= |values|
  {
    values[Max(0, i - ws + 1)..i + 2]
  }

  /** Every window holds between 2 and ws + 1 entries and ends with the entries before and after move `i`. */
  lemma WindowShape(values: seq<real>, i: nat, ws: nat)
    requires i + 2 <= |values| && ws >= 1
    ensures 2 <= |Window(values, i, ws)| <= ws + 1
    ensures Window(values, i, ws)[|Window(values, i, ws)| - 2..] == [values[i], values[i + 1]]
  {
  }

  /** The window loop: one window per move, that is, per history entry but the last. */
  method WinPercentWindows(values: seq<real>, windowSize: nat) returns (windows: seq<seq<real>>)
    ensures |windows| == Max(0, |values| - 1)
    ensures forall i :: 0 <= i < |windows| ==> windows[i] == Window(values, i, windowSize)
  {
    windows := [];
    var n := if |values| > 0 then |values| - 1 else 0;
    for i := 0 to n
      invariant |windows| == i
      invariant forall j :: 0 <= j < i ==> windows[j] == Window(values, j, windowSize)
    {
      var startIdx := Max(0, i - windowSize + 1);
      windows := windows + [values[startIdx..i + 2]];
    }
  }

  /** The weight loop: each window's standard deviation, clamped to [0.5, 12]. */
  method MoveWeights(windows: seq<seq<real>>, std: seq<real> -> real) returns (weights: seq<real>)
    ensures |weights| == |windows|
    ensures forall i :: 0 <= i < |windows| ==> weights[i] == Clamp(std(windows[i]), 0.5, 12.0)
    ensures forall i :: 0 <= i < |windows| ==> 0.5 <= weights[i] <= 12.0
  {
    weights := [];
    for i := 0 to |windows|
      invariant |weights| == i
      invariant forall j :: 0 <= j < i ==> weights[j] == Clamp(std(windows[j]), 0.5, 12.0)
    {
      weights := weights + [Clamp(std(windows[i]), 0.5, 12.0)];
    }
  }

  /** The weights the two loops produce for a history. */
  function Weights(values: seq<real>, ws: nat, std: seq<real> -> real): (w: seq<real>)
    requires |values| > 0
    ensures |w| == |values| - 1
    ensures forall i :: 0 <= i < |w| ==> w[i] == Clamp(std(Window(values, i, ws)), 0.5, 12.0)
  {
    seq(|values| - 1, i requires 0 <= i < |values| - 1 => Clamp(std(Window(values, i, ws)), 0.5, 12.0))
  }

  // ------------------------------------------------------- split by colour

  function Pairs(accuracies: seq<real>, weights: seq<real>): (p: seq<(real, real)>)
    requires |weights| >= |accuracies|
    ensures |p| == |accuracies| && forall i :: 0 <= i < |p| ==> p[i] == (accuracies[i], weights[i])
  {
    seq(|accuracies|, i requires 0 <= i < |accuracies| => (accuracies[i], weights[i]))
  }

  /** The pairs whose move colour is `c`, in move order. */
  function Pick(pairs: seq<(real, real)>, colors: seq<bool>, c: bool): seq<(real, real)>
    requires |colors| >= |pairs|
  {
    if pairs == [] then []
    else Pick(pairs[..|pairs| - 1], colors, c) + (if colors[|pairs| - 1] == c then [pairs[|pairs| - 1]] else [])
  }

  /** The grouping loop. */
  method SplitByColor(accuracies: seq<real>, weights: seq<real>, colors: seq<bool>)
    returns (white: seq<(real, real)>, black: seq<(real, real)>)
    requires |weights| >= |accuracies| && |colors| >= |accuracies|
    ensures white == Pick(Pairs(accuracies, weights), colors, true)
    ensures black == Pick(Pairs(accuracies, weights), colors, false)
  {
    white, black := [], [];
    var pairs := Pairs(accuracies, weights);
    for i := 0 to |accuracies|
      invariant white == Pick(pairs[..i], colors, true) && black == Pick(pairs[..i], colors, false)
    {
      assert pairs[..i + 1][..i] == pairs[..i];
      if colors[i] {
        white := white + [(accuracies[i], weights[i])];
      } else {
        black := black + [(accuracies[i], weights[i])];
      }
    }
    assert pairs[..|accuracies|] == pairs;
  }

  /** Colours that alternate from White give White the even moves and Black the odd ones: a partition. */
  lemma {:induction false} PickParity(pairs: seq<(real, real)>, n: nat)
    requires |pairs| <= n
    ensures Pick(pairs, Colors(n), true) == Evens(pairs)
    ensures Pick(pairs, Colors(n), false) == Odds(pairs)
  {
    if pairs != [] {
      var m := |pairs| - 1;
      PickParity(pairs[..m], n);
      EvensOddsAppend(pairs[..m], pairs[m]);
      assert pairs[..m] + [pairs[m]] == pairs;
    }
  }

  // ------------------------------------------------------ player accuracy

  function Firsts(aw: seq<(real, real)>): (a: seq<real>)
    ensures |a| == |aw| && forall i :: 0 <= i < |aw| ==> a[i] == aw[i].0
  {
    seq(|aw|, i requires 0 <= i < |aw| => aw[i].0)
  }

  function Seconds(aw: seq<(real, real)>): (w: seq<real>)
    ensures |w| == |aw| && forall i :: 0 <= i < |aw| ==> w[i] == aw[i].1
  {
    seq(|aw|, i requires 0 <= i < |aw| => aw[i].1)
  }

  /** `weighted_sum / total_weight if total_weight != 0 else 0`. */
  function WeightedMean(aw: seq<(real, real)>): real
  {
    var total := Sum(Seconds(aw));
    if total != 0.0 then Sum(Products(Firsts(aw), Seconds(aw))) / total else 0.0
  }

  /**
   * `compute_player_accuracy`: None for a side without moves, otherwise the
   * mean of the weighted and the harmonic mean of its accuracies (the
   * harmonic mean's ZeroDivisionError passes through).
   */
  function PlayerAccuracy(aw: seq<(real, real)>): (r: Result<Option<real>>)
    ensures aw == [] ==> r == Ok(None)
    ensures r.Err? ==> r.error == "ZeroDivisionError"
    ensures aw != [] && r.Ok? ==> r.value.Some?
  {
    if aw == [] then Ok(None)
    else
      match HarmonicMean(Firsts(aw))
      case Err(e) => Err(e)
      case Ok(hm) => Ok(Some((WeightedMean(aw) + hm) / 2.0))
  }

  /** Accuracies in [0, 100] with non-negative weights give a side accuracy in [0, 100], and never raise. */
  lemma PlayerAccuracyRange(aw: seq<(real, real)>)
    requires InRange(aw)
    ensures PlayerAccuracy(aw).Ok?
    ensures aw != [] ==> 0.0 <= PlayerAccuracy(aw).value.value <= 100.0
  {
    var a, w := Firsts(aw), Seconds(aw);
    HarmonicMeanAtMost(a, 100.0);
    if aw != [] {
      var total := Sum(w);
      SumAtLeast(w, 0.0);
      if total != 0.0 {
        WeightedMeanBounds(a, w, 0.0, 100.0, Sum(Products(a, w)), total);
      }
      assert 0.0 <= WeightedMean(aw) <= 100.0;
    }
  }

  // ----------------------------------------------------------- the game

  /** Everything after the move loop: weights over the history, the split by colour and both side accuracies. */
  function SideAccuracies(m: Moves, std: seq<real> -> real): Result<(Option<real>, Option<real>)>
    requires |m.winPercents| == |m.accuracies| + 1 && |m.colors| == |m.accuracies|
  {
    var weights := Weights(m.winPercents, WindowSize(|m.accuracies|), std);
    var pairs := Pairs(m.accuracies, weights);
    var white := PlayerAccuracy(Pick(pairs, m.colors, true));
    var black := PlayerAccuracy(Pick(pairs, m.colors, false));
    if white.Err? then Err(white.error)
    else if black.Err? then Err(black.error)
    else Ok((white.value, black.value))
  }

  lemma MovesShape(plies: seq<Ply<C6.Reply>>, exp: real -> NonNegReal)
    requires MovesOf(plies, exp).Some?
    ensures var m := MovesOf(plies, exp).value;
      |m.winPercents| == |m.accuracies| + 1 && |m.colors| == |m.accuracies| == |plies| &&
      m.colors == Colors(|plies|) && forall k :: 0 <= k < |m.accuracies| ==> 0.0 <= m.accuracies[k] <= 100.0
  {
  }

  /**
   * The returned analysis when the report raises nothing: nothing for a
   * missing game, an engine that does not start or a failed move; ValueError
   * for an Elo header `int()` rejects.
   */
  function Analyse(game: Option<PgnGame<C6.Reply>>, engineStarts: bool, parseInt: string -> Option<int>,
                   exp: real -> NonNegReal, std: seq<real> -> real): Result<Option<Analysis>>
  {
    if game.None? || !engineStarts then Ok(None)
    else
      var h := game.value.headers;
      var whiteElo := parseInt(C6.HeaderGet(h, "WhiteElo", "0"));
      var blackElo := parseInt(C6.HeaderGet(h, "BlackElo", "0"));
      if whiteElo.None? || blackElo.None? then Err("ValueError")
      else
        var moves := MovesOf(game.value.plies, exp);
        if moves.None? then Ok(None)
        else
          var m := moves.value;
          MovesShape(game.value.plies, exp);
          match SideAccuracies(m, std)
          case Err(e) => Err(e)
          case Ok((wa, ba)) =>
            Ok(Some(Analysis(whiteElo.value, blackElo.value, C6.HeaderGet(h, "Result", "*"), m.evaluations,
                             C6.Acpl(m.whiteCpls), C6.Acpl(m.blackCpls), wa, ba)))
  }

  predicate Reportable(a: Analysis)
  {
    a.whiteAcpl.Some? && a.whiteAccuracy.Some? && a.blackAcpl.Some? && a.blackAccuracy.Some?
  }

  /** The function as written: the closing report formats both averages and both accuracies with `:.2f`. */
  function AnalyseAsWritten(game: Option<PgnGame<C6.Reply>>, engineStarts: bool, parseInt: string -> Option<int>,
                            exp: real -> NonNegReal, std: seq<real> -> real): Result<Option<Analysis>>
  {
    var r := Analyse(game, engineStarts, parseInt, exp, std);
    if r.Ok? && r.value.Some? && !Reportable(r.value.value) then Err("TypeError") else r
  }

  predicate InRange(aw: seq<(real, real)>)
  {
    forall i :: 0 <= i < |aw| ==> 0.0 <= aw[i].0 <= 100.0 && aw[i].1 >= 0.0
  }

  lemma ParityInRange(pairs: seq<(real, real)>)
    requires InRange(pairs)
    ensures InRange(Evens(pairs)) && InRange(Odds(pairs))
  {
    var white, black := Evens(pairs), Odds(pairs);
    forall i | 0 <= i < |white| ensures 0.0 <= white[i].0 <= 100.0 && white[i].1 >= 0.0 {
      assert white[i] == pairs[2 * i];
    }
    forall i | 0 <= i < |black| ensures 0.0 <= black[i].0 <= 100.0 && black[i].1 >= 0.0 {
      assert black[i] == pairs[2 * i + 1];
    }
  }

  /** After a loop over `n` moves with accuracies in [0, 100], the side accuracies never raise, lie in [0, 100], and are missing exactly for a side without moves. */
  lemma SidesOf(m: Moves, n: nat, std: seq<real> -> real)
    requires |m.winPercents| == n + 1 && |m.accuracies| == n && m.colors == Colors(n)
    requires forall k :: 0 <= k < n ==> 0.0 <= m.accuracies[k] <= 100.0
    ensures SideAccuracies(m, std).Ok?
    ensures SideAccuracies(m, std).value.0.None? <==> n == 0
    ensures SideAccuracies(m, std).value.1.None? <==> n <= 1
    ensures SideAccuracies(m, std).value.0.Some? ==> 0.0 <= SideAccuracies(m, std).value.0.value <= 100.0
    ensures SideAccuracies(m, std).value.1.Some? ==> 0.0 <= SideAccuracies(m, std).value.1.value <= 100.0
  {
    var weights := Weights(m.winPercents, WindowSize(n), std);
    var pairs := Pairs(m.accuracies, weights);
    PickParity(pairs, n);
    assert InRange(pairs);
    ParityInRange(pairs);
    PlayerAccuracyRange(Evens(pairs));
    PlayerAccuracyRange(Odds(pairs));
  }

  lemma SideAccuraciesShape(plies: seq<Ply<C6.Reply>>, exp: real -> NonNegReal, std: seq<real> -> real)
    requires MovesOf(plies, exp).Some?
    ensures var m := MovesOf(plies, exp).value;
      |m.winPercents| == |m.accuracies| + 1 && |m.colors| == |m.accuracies| &&
      SideAccuracies(m, std).Ok? &&
      (SideAccuracies(m, std).value.0.None? <==> |plies| == 0) &&
      (SideAccuracies(m, std).value.1.None? <==> |plies| <= 1) &&
      (SideAccuracies(m, std).value.0.Some? ==> 0.0 <= SideAccuracies(m, std).value.0.value <= 100.0) &&
      (SideAccuracies(m, std).value.1.Some? ==> 0.0 <= SideAccuracies(m, std).value.1.value <= 100.0)
  {
    MovesShape(plies, exp);
    SidesOf(MovesOf(plies, exp).value, |plies|, std);
  }

  /** As written, an analysed game raises TypeError exactly when it has fewer than two moves; otherwise nothing changes. */
  lemma TypeErrorOnShortGames(game: Option<PgnGame<C6.Reply>>, engineStarts: bool, parseInt: string -> Option<int>,
                              exp: real -> NonNegReal, std: seq<real> -> real)
    ensures AnalyseAsWritten(game, engineStarts, parseInt, exp, std) == Err("TypeError") <==>
      (Analyse(game, engineStarts, parseInt, exp, std).Ok? && Analyse(game, engineStarts, parseInt, exp, std).value.Some? &&
       |game.value.plies| < 2)
    ensures AnalyseAsWritten(game, engineStarts, parseInt, exp, std) != Err("TypeError") ==>
      AnalyseAsWritten(game, engineStarts, parseInt, exp, std) == Analyse(game, engineStarts, parseInt, exp, std)
  {
    var r := Analyse(game, engineStarts, parseInt, exp, std);
    if r.Ok? && r.value.Some? {
      SideAccuraciesShape(game.value.plies, exp, std);
    }
  }

  /** The analysis never raises ZeroDivisionError, and both side accuracies it reports lie in [0, 100]. */
  lemma AnalyseAccuracyRange(game: Option<PgnGame<C6.Reply>>, engineStarts: bool, parseInt: string -> Option<int>,
                             exp: real -> NonNegReal, std: seq<real> -> real)
    ensures Analyse(game, engineStarts, parseInt, exp, std) != Err("ZeroDivisionError")
    ensures var r := Analyse(game, engineStarts, parseInt, exp, std);
      r.Ok? && r.value.Some? ==>
        (r.value.value.whiteAccuracy.Some? ==> 0.0 <= r.value.value.whiteAccuracy.value <= 100.0) &&
        (r.value.value.blackAccuracy.Some? ==> 0.0 <= r.value.value.blackAccuracy.value <= 100.0)
  {
    if game.Some? && MovesOf(game.value.plies, exp).Some? {
      SideAccuraciesShape(game.value.plies, exp, std);
    }
  }

  /** A one-move game the engine analyses: the code as written raises, the corrected analysis returns a result. */
  lemma OneMoveGameRaises(exp: real -> NonNegReal, std: seq<real> -> real)
    ensures AnalyseAsWritten(Some(PgnGame(map[], [Ply("e4", C6.Analysed(Cp(30), Cp(30)))])), true, (s: string) => Some(0), exp, std) == Err("TypeError")
    ensures Analyse(Some(PgnGame(map[], [Ply("e4", C6.Analysed(Cp(30), Cp(30)))])), true, (s: string) => Some(0), exp, std).Ok?
  {
    var g := Some(PgnGame(map[], [Ply("e4", C6.Analysed(Cp(30), Cp(30)))]));
    assert C6.AllAnalysed(g.value.plies);
    SideAccuraciesShape(g.value.plies, exp, std);
    TypeErrorOnShortGames(g, true, (s: string) => Some(0), exp, std);
  }

  // ---------------------------------------------------------------- methods

  method AnalyzeReporting(game: Option<PgnGame<C6.Reply>>, engineStarts: bool, parseInt: string -> Option<int>,
                          exp: real -> NonNegReal, std: seq<real> -> real, formatsNone: bool)
    returns (r: Result<Option<Analysis>>)
    ensures r == if formatsNone then AnalyseAsWritten(game, engineStarts, parseInt, exp, std)
                 else Analyse(game, engineStarts, parseInt, exp, std)
  {
    if game.None? || !engineStarts {
      return Ok(None);
    }
    var h := game.value.headers;
    var whiteElo := parseInt(C6.HeaderGet(h, "WhiteElo", "0"));
    var blackElo := parseInt(C6.HeaderGet(h, "BlackElo", "0"));
    if whiteElo.None? || blackElo.None? {
      return Err("ValueError");
    }
    var result := C6.HeaderGet(h, "Result", "*");
    var moves := AnalyzeMoves(game.value.plies, exp);
    if moves.None? {
      return Ok(None);
    }
    var m := moves.value;
    MovesShape(game.value.plies, exp);
    var whiteAcpl := C6.Acpl(m.whiteCpls);
    var blackAcpl := C6.Acpl(m.blackCpls);
    var sides := SideAccuracyMethod(m, std);
    if sides.Err? {
      return Err(sides.error);
    }
    var a := Analysis(whiteElo.value, blackElo.value, result, m.evaluations, whiteAcpl, blackAcpl, sides.value.0, sides.value.1);
    if formatsNone && !Reportable(a) {
      return Err("TypeError");
    }
    r := Ok(Some(a));
  }

  /** The code after the move loop: window size, windows, weights, grouping and the two side accuracies. */
  method SideAccuracyMethod(m: Moves, std: seq<real> -> real) returns (r: Result<(Option<real>, Option<real>)>)
    requires |m.winPercents| == |m.accuracies| + 1 && |m.colors| == |m.accuracies|
    ensures r == SideAccuracies(m, std)
  {
    var windowSize := WindowSize(|m.accuracies|);
    var windows := WinPercentWindows(m.winPercents, windowSize);
    var weights := MoveWeights(windows, std);
    assert weights == Weights(m.winPercents, windowSize, std);
    var white, black := SplitByColor(m.accuracies, weights, m.colors);
    var wa := PlayerAccuracy(white);
    var ba := PlayerAccuracy(black);
    if wa.Err? {
      return Err(wa.error);
    }
    if ba.Err? {
      return Err(ba.error);
    }
    r := Ok((wa.value, ba.value));
  }

  /** The function as written. */
  method AnalyzeSingleGame(game: Option<PgnGame<C6.Reply>>, engineStarts: bool, parseInt: string -> Option<int>,
                           exp: real -> NonNegReal, std: seq<real> -> real) returns (r: Result<Option<Analysis>>)
    ensures r == AnalyseAsWritten(game, engineStarts, parseInt, exp, std)
  {
    r := AnalyzeReporting(game, engineStarts, parseInt, exp, std, true);
  }

  /** The corrected function: the report prints a missing value instead of formatting it. */
  method AnalyzeSingleGameCorrected(game: Option<PgnGame<C6.Reply>>, engineStarts: bool, parseInt: string -> Option<int>,
                                    exp: real -> NonNegReal, std: seq<real> -> real) returns (r: Result<Option<Analysis>>)
    ensures r == Analyse(game, engineStarts, parseInt, exp, std)
  {
    r := AnalyzeReporting(game, engineStarts, parseInt, exp, std, false);
  }
}
