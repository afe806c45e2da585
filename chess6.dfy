/**
 * The multiprocessing analyzer of failed_attempt/chess6.py. For every
 * mainline move the engine scores the position after the best move and
 * after the played move, both from White's side; mates saturate to
 * ±100000, the loss is taken from the mover's side and clamped at 0, and
 * it goes to the mover's list. The file repeats the three helpers of
 * failed_attempt/utils.py (lines 7-35), so the model uses FailedUtils for
 * them.
 */
module Chess6 {
  import opened Base
  import opened Chess
  import opened FailedUtils

  /** The engine's answers for one move, from White's side, or an exception anywhere in the move's step. */
  datatype Reply = Analysed(afterBest: Score, afterMove: Score) | Failed

  /** One entry of `evaluations`: the loss is in pawns, the win percentage from the mover's side. */
  datatype MoveEval = MoveEval(moveNumber: nat, move: string, cpl: real, winPercent: real)

  /** What the move loop leaves behind: the records and the two per-side lists of losses in centipawns. */
  datatype Moves = Moves(evaluations: seq<MoveEval>, whiteCpls: seq<int>, blackCpls: seq<int>)

  datatype Analysis = Analysis(
    whiteElo: int, blackElo: int, result: string, evaluations: seq<MoveEval>,
    whiteAcpl: Option<real>, blackAcpl: Option<real>)

  /** `headers.get(key, default)`. */
  function HeaderGet(headers: map<string, string>, key: string, default: string): string
  {
    if key in headers then headers[key] else default
  }

  /**
   * `x * color_factor`, where `color_factor` is `1 if board.turn else -1`:
   * a White-side score seen from side `c`.
   */
  function Oriented(x: int, c: Color): int
  {
    if c == White then x else -x
  }

  /**
   * `delta_e` of ply `k`: how much worse the played move is than the best
   * one for the mover, and 0 when it is not worse.
   */
  function Loss(r: Reply, k: nat): (d: int)
    requires r.Analysed?
    ensures d >= 0
    ensures d > 0 <==> (if MoverAt(k) == White then EvalToScore(r.afterMove) < EvalToScore(r.afterBest)
                        else EvalToScore(r.afterMove) > EvalToScore(r.afterBest))
    ensures d > 0 ==> d == Abs(EvalToScore(r.afterBest) - EvalToScore(r.afterMove))
    ensures d == Max(0, Oriented(EvalToScore(r.afterBest), MoverAt(k)) - PlayerScore(r, k))
  {
    var delta := Oriented(EvalToScore(r.afterBest) - EvalToScore(r.afterMove), MoverAt(k));
    if delta < 0 then 0 else delta
  }

  /** The played move's score from the mover's side: Black sees White's score negated. */
  function PlayerScore(r: Reply, k: nat): (s: int)
    requires r.Analysed?
    ensures Oriented(s, MoverAt(k)) == EvalToScore(r.afterMove)
  {
    if MoverAt(k) == White then EvalToScore(r.afterMove) else -EvalToScore(r.afterMove)
  }

  predicate AllAnalysed(plies: seq<Ply<Reply>>)
  {
    forall k :: 0 <= k < |plies| ==> plies[k].reply.Analysed?
  }

  /** The record of ply `k`. */
  function RecordAt(plies: seq<Ply<Reply>>, k: nat, exp: real -> NonNegReal): MoveEval
    requires k < |plies| && plies[k].reply.Analysed?
  {
    var r := plies[k].reply;
    MoveEval(k + 1, plies[k].san, Loss(r, k) as real / 100.0, WinPercent(PlayerScore(r, k), exp))
  }

  /** Every ply's record, in ply order. */
  function Records(plies: seq<Ply<Reply>>, exp: real -> NonNegReal): (e: seq<MoveEval>)
    requires AllAnalysed(plies)
    ensures |e| == |plies| && forall k :: 0 <= k < |e| ==> e[k] == RecordAt(plies, k, exp)
  {
    seq(|plies|, k requires 0 <= k < |plies| => RecordAt(plies, k, exp))
  }

  /** Every ply's loss, in ply order. */
  function Losses(plies: seq<Ply<Reply>>): (l: seq<int>)
    requires AllAnalysed(plies)
    ensures |l| == |plies| && forall k :: 0 <= k < |l| ==> l[k] == Loss(plies[k].reply, k)
  {
    seq(|plies|, k requires 0 <= k < |plies| => Loss(plies[k].reply, k))
  }

  /** What the move loop computes: nothing when some move fails, otherwise every record and the mover-split losses. */
  function MovesOf(plies: seq<Ply<Reply>>, exp: real -> NonNegReal): Option<Moves>
  {
    if !AllAnalysed(plies) then None
    else Some(Moves(Records(plies, exp), Evens(Losses(plies)), Odds(Losses(plies))))
  }

  /** Reading one more ply, when it is analysed, appends its record and its loss. */
  lemma Step(plies: seq<Ply<Reply>>, k: nat, exp: real -> NonNegReal)
    requires k < |plies| && AllAnalysed(plies[..k]) && plies[k].reply.Analysed?
    ensures AllAnalysed(plies[..k + 1])
    ensures Losses(plies[..k + 1]) == Losses(plies[..k]) + [Loss(plies[k].reply, k)]
    ensures Records(plies[..k + 1], exp) == Records(plies[..k], exp) + [RecordAt(plies, k, exp)]
  {
    assert forall j :: 0 <= j < k ==> plies[..k][j] == plies[..k + 1][j] == plies[j];
    assert plies[..k + 1][k] == plies[k];
  }

  /** The loop over the mainline: the engine's answers in order, stopping with nothing at the first failure. */
  method AnalyzeMoves(plies: seq<Ply<Reply>>, exp: real -> NonNegReal) returns (r: Option<Moves>)
    ensures r == MovesOf(plies, exp)
  {
    var evaluations: seq<MoveEval> := [];
    var whiteCpls: seq<int> := [];
    var blackCpls: seq<int> := [];
    var k := 0;
    while k < |plies|
      invariant 0 <= k <= |plies|
      invariant AllAnalysed(plies[..k])
      invariant evaluations == Records(plies[..k], exp)
      invariant whiteCpls == Evens(Losses(plies[..k])) && blackCpls == Odds(Losses(plies[..k]))
    {
      var reply := plies[k].reply;
      if reply.Failed? {
        return None;
      }
      var deltaE := Loss(reply, k);
      Step(plies, k, exp);
      EvensOddsAppend(Losses(plies[..k]), deltaE);
      if MoverAt(k) == White {
        whiteCpls := whiteCpls + [deltaE];
      } else {
        blackCpls := blackCpls + [deltaE];
      }
      evaluations := evaluations + [MoveEval(k + 1, plies[k].san, deltaE as real / 100.0, WinPercent(PlayerScore(reply, k), exp))];
      k := k + 1;
    }
    assert plies[..k] == plies;
    r := Some(Moves(evaluations, whiteCpls, blackCpls));
  }

  /** The mean loss of one side in pawns, or None for a side without moves. */
  function Acpl(cpls: seq<int>): (r: Option<real>)
    ensures r.None? <==> cpls == []
  {
    if cpls == [] then None else Some(SumInt(cpls) as real / |cpls| as real / 100.0)
  }

  /** Losses in [0, hi] centipawns give an average in [0, hi/100] pawns. */
  lemma AcplBounds(cpls: seq<int>, hi: nat)
    requires cpls != [] && forall k :: 0 <= k < |cpls| ==> 0 <= cpls[k] <= hi
    ensures 0.0 <= Acpl(cpls).value <= hi as real / 100.0
  {
    SumIntBounds(cpls, 0, hi);
    var total, n := SumInt(cpls) as real, |cpls| as real;
    MeanAtMost(total, n, hi as real, Acpl(cpls).value);
  }

  lemma MeanAtMost(total: real, n: real, hi: real, mean: real)
    requires n > 0.0 && 0.0 <= total <= n * hi && mean == total / n / 100.0
    ensures 0.0 <= mean <= hi / 100.0
  {
    Means.ScaledQuotient(total, n, 0.0, hi);
  }

  /**
   * The returned analysis when nothing raises: nothing for a missing game,
   * an engine that does not start or a move that fails; ValueError for an
   * Elo header `int()` rejects (the parser is a parameter).
   */
  function Analyse(game: Option<PgnGame<Reply>>, engineStarts: bool, parseInt: string -> Option<int>,
                   exp: real -> NonNegReal): Result<Option<Analysis>>
  {
    if game.None? || !engineStarts then Ok(None)
    else
      var h := game.value.headers;
      var whiteElo := parseInt(HeaderGet(h, "WhiteElo", "0"));
      var blackElo := parseInt(HeaderGet(h, "BlackElo", "0"));
      if whiteElo.None? || blackElo.None? then Err("ValueError")
      else
        match MovesOf(game.value.plies, exp)
        case None => Ok(None)
        case Some(m) =>
          Ok(Some(Analysis(whiteElo.value, blackElo.value, HeaderGet(h, "Result", "*"), m.evaluations,
                           Acpl(m.whiteCpls), Acpl(m.blackCpls))))
  }

  /** The function as written: the closing report formats both averages with `:.2f`, which raises TypeError on None. */
  function AnalyseAsWritten(game: Option<PgnGame<Reply>>, engineStarts: bool, parseInt: string -> Option<int>,
                            exp: real -> NonNegReal): Result<Option<Analysis>>
  {
    var r := Analyse(game, engineStarts, parseInt, exp);
    if r.Ok? && r.value.Some? && (r.value.value.whiteAcpl.None? || r.value.value.blackAcpl.None?) then Err("TypeError")
    else r
  }

  /** A side has no average exactly when it made no move: White in an empty game, Black in one of at most one move. */
  lemma AcplMissing(game: Option<PgnGame<Reply>>, engineStarts: bool, parseInt: string -> Option<int>, exp: real -> NonNegReal)
    requires Analyse(game, engineStarts, parseInt, exp).Ok? && Analyse(game, engineStarts, parseInt, exp).value.Some?
    ensures Analyse(game, engineStarts, parseInt, exp).value.value.whiteAcpl.None? <==> |game.value.plies| == 0
    ensures Analyse(game, engineStarts, parseInt, exp).value.value.blackAcpl.None? <==> |game.value.plies| <= 1
  {
  }

  /** As written, an analysed game raises TypeError exactly when it has fewer than two moves; otherwise nothing changes. */
  lemma TypeErrorOnShortGames(game: Option<PgnGame<Reply>>, engineStarts: bool, parseInt: string -> Option<int>, exp: real -> NonNegReal)
    ensures AnalyseAsWritten(game, engineStarts, parseInt, exp) == Err("TypeError") <==>
      (Analyse(game, engineStarts, parseInt, exp).Ok? && Analyse(game, engineStarts, parseInt, exp).value.Some? && |game.value.plies| < 2)
    ensures AnalyseAsWritten(game, engineStarts, parseInt, exp) != Err("TypeError") ==>
      AnalyseAsWritten(game, engineStarts, parseInt, exp) == Analyse(game, engineStarts, parseInt, exp)
  {
    var r := Analyse(game, engineStarts, parseInt, exp);
    if r.Ok? && r.value.Some? {
      AcplMissing(game, engineStarts, parseInt, exp);
    }
  }

  /** A one-move game the engine analyses: the corrected analysis has no Black average, the code as written raises. */
  lemma OneMoveGameRaises(exp: real -> NonNegReal)
    ensures AnalyseAsWritten(Some(PgnGame(map[], [Ply("e4", Analysed(Cp(30), Cp(30)))])), true, (s: string) => Some(0), exp) == Err("TypeError")
    ensures Analyse(Some(PgnGame(map[], [Ply("e4", Analysed(Cp(30), Cp(30)))])), true, (s: string) => Some(0), exp).value.value.blackAcpl == None
  {
    var g := Some(PgnGame(map[], [Ply("e4", Analysed(Cp(30), Cp(30)))]));
    var parse := (s: string) => Some(0);
    assert AllAnalysed(g.value.plies);
    assert Odds(Losses(g.value.plies)) == [];
  }

  /** Ply `k`'s loss is in its mover's list, at position k / 2. */
  lemma OwnList(plies: seq<Ply<Reply>>, exp: real -> NonNegReal, k: nat)
    requires k < |plies| && MovesOf(plies, exp).Some?
    ensures MoverAt(k) == White ==> MovesOf(plies, exp).value.whiteCpls[k / 2] == Loss(plies[k].reply, k)
    ensures MoverAt(k) == Black ==> MovesOf(plies, exp).value.blackCpls[k / 2] == Loss(plies[k].reply, k)
    ensures |MovesOf(plies, exp).value.whiteCpls| + |MovesOf(plies, exp).value.blackCpls| == |plies|
  {
    if k % 2 == 0 {
      assert 2 * (k / 2) == k;
    } else {
      assert 2 * (k / 2) + 1 == k;
    }
  }

  /** The full function as written: the move loop, the two averages, then the report that can raise. */
  method AnalyzeSingleGame(game: Option<PgnGame<Reply>>, engineStarts: bool, parseInt: string -> Option<int>,
                           exp: real -> NonNegReal) returns (r: Result<Option<Analysis>>)
    ensures r == AnalyseAsWritten(game, engineStarts, parseInt, exp)
  {
    r := AnalyzeReporting(game, engineStarts, parseInt, exp, true);
  }

  /** The corrected function: the report prints a missing average instead of formatting it. */
  method AnalyzeSingleGameCorrected(game: Option<PgnGame<Reply>>, engineStarts: bool, parseInt: string -> Option<int>,
                                    exp: real -> NonNegReal) returns (r: Result<Option<Analysis>>)
    ensures r == Analyse(game, engineStarts, parseInt, exp)
  {
    r := AnalyzeReporting(game, engineStarts, parseInt, exp, false);
  }

  method AnalyzeReporting(game: Option<PgnGame<Reply>>, engineStarts: bool, parseInt: string -> Option<int>,
                          exp: real -> NonNegReal, formatsNone: bool) returns (r: Result<Option<Analysis>>)
    ensures r == if formatsNone then AnalyseAsWritten(game, engineStarts, parseInt, exp) else Analyse(game, engineStarts, parseInt, exp)
  {
    if game.None? || !engineStarts {
      return Ok(None);
    }
    var h := game.value.headers;
    var whiteElo := parseInt(HeaderGet(h, "WhiteElo", "0"));
    var blackElo := parseInt(HeaderGet(h, "BlackElo", "0"));
    if whiteElo.None? || blackElo.None? {
      return Err("ValueError");
    }
    var result := HeaderGet(h, "Result", "*");
    var moves := AnalyzeMoves(game.value.plies, exp);
    if moves.None? {
      return Ok(None);
    }
    var whiteAcpl := Acpl(moves.value.whiteCpls);
    var blackAcpl := Acpl(moves.value.blackCpls);
    if formatsNone && (whiteAcpl.None? || blackAcpl.None?) {
      return Err("TypeError");
    }
    r := Ok(Some(Analysis(whiteElo.value, blackElo.value, result, moves.value.evaluations, whiteAcpl, blackAcpl)));
  }
}
