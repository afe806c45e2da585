/**
 * The fourth analyzer (chess_attempt_4/analyzer.py): for every mainline move,
 * the engine scores the best move and the played move from the mover's side;
 * the centipawn loss of the move goes to the mover's list, and the played
 * move's score from White's side is written as the evaluation after the move.
 */
module Attempt4Analyzer {
  import opened Base
  import opened Chess

  /**
   * The engine's answer for one ply: best and played scores from the mover's
   * side and the played score from White's side, or a raised exception.
   */
  datatype Reply = Analysed(best: Score, played: Score, playedForWhite: Score) | Failed

  datatype MoveRecord = MoveRecord(moveNumber: nat, move: string, cpl: int, evaluation: EvalValue)

  datatype Analysis = Analysis(info: GameInfo, moves: seq<MoveRecord>, avgCplWhite: real, avgCplBlack: real)

  /** The analysis reaches the end of the mainline: no move met a missing engine or a failed analysis. */
  predicate Completes(plies: seq<Ply<Reply>>, engineReady: bool)
  {
    forall k :: 0 <= k < |plies| ==> engineReady && plies[k].reply.Analysed?
  }

  /** The record written for ply `k`. */
  function RecordOf(plies: seq<Ply<Reply>>, k: nat): MoveRecord
    requires k < |plies| && plies[k].reply.Analysed?
  {
    var r := plies[k].reply;
    MoveRecord(k + 1, plies[k].san, MateAwareCpl(r.best, r.played), FormatEvaluation(r.playedForWhite))
  }

  function CplOf(m: MoveRecord): int { m.cpl }

  method AnalyzeGame(game: Option<PgnGame<Reply>>, engineReady: bool, round2: real -> real)
    returns (r: Option<Analysis>)
    ensures r.Some? <==> game.Some? && Completes(game.value.plies, engineReady)
    ensures r.Some? ==> r.value.info == ReadInfo(game.value.headers)
    ensures r.Some? ==> |r.value.moves| == |game.value.plies|
    ensures r.Some? ==> forall k :: 0 <= k < |r.value.moves| ==> r.value.moves[k] == RecordOf(game.value.plies, k)
    ensures r.Some? ==> r.value.avgCplWhite == RoundedMean(Evens(Column(r.value.moves, CplOf)), round2)
    ensures r.Some? ==> r.value.avgCplBlack == RoundedMean(Odds(Column(r.value.moves, CplOf)), round2)
  {
    if game.None? {
      return None;
    }
    var g := game.value;
    var info := ReadInfo(g.headers);
    var cplWhite: seq<int> := [];
    var cplBlack: seq<int> := [];
    var moves: seq<MoveRecord> := [];
    var k := 0;
    while k < |g.plies|
      invariant 0 <= k <= |g.plies|
      invariant forall j :: 0 <= j < k ==> engineReady && g.plies[j].reply.Analysed?
      invariant |moves| == k
      invariant forall j :: 0 <= j < k ==> moves[j] == RecordOf(g.plies, j)
      invariant cplWhite == Evens(Column(moves, CplOf)) && cplBlack == Odds(Column(moves, CplOf))
    {
      if !engineReady {
        return None;
      }
      var reply := g.plies[k].reply;
      if reply.Failed? {
        return None;
      }
      var cpl := MateAwareCpl(reply.best, reply.played);
      ColumnAppend(moves, CplOf, MoveRecord(k + 1, g.plies[k].san, cpl, FormatEvaluation(reply.playedForWhite)));
      EvensOddsAppend(Column(moves, CplOf), cpl);
      if MoverAt(k) == White {
        cplWhite := cplWhite + [cpl];
      } else {
        cplBlack := cplBlack + [cpl];
      }
      var evaluation := FormatEvaluation(reply.playedForWhite);
      moves := moves + [MoveRecord(k + 1, g.plies[k].san, cpl, evaluation)];
      k := k + 1;
    }
    r := Some(Analysis(info, moves, RoundedMean(cplWhite, round2), RoundedMean(cplBlack, round2)));
  }

  /** White's list holds exactly the losses of White's own moves (even plies), Black's those of the odd plies. */
  lemma {:induction false} OwnMovesAttribution(moves: seq<MoveRecord>, i: nat)
    requires i < |moves|
    ensures i % 2 == 0 ==> i / 2 < |Evens(Column(moves, CplOf))| && Evens(Column(moves, CplOf))[i / 2] == moves[i].cpl
    ensures i % 2 == 1 ==> i / 2 < |Odds(Column(moves, CplOf))| && Odds(Column(moves, CplOf))[i / 2] == moves[i].cpl
  {
    var col := Column(moves, CplOf);
    if i % 2 == 0 {
      assert 2 * (i / 2) == i;
    } else {
      assert 2 * (i / 2) + 1 == i;
    }
  }
}
