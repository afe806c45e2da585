/**
 * The fifth analyzer (chess_attempt_5/analyzer.py): after every mainline move
 * the engine scores the new position from White's side, and that score is
 * written as the move's evaluation; no centipawn loss is computed.
 */
module Attempt5Analyzer {
  import opened Base
  import opened Chess

  /** The engine's White-side score of the position after the move, or a raised exception. */
  datatype Reply = Scored(forWhite: Score) | Failed

  datatype MoveRecord = MoveRecord(moveNumber: nat, move: string, evaluation: EvalValue)

  datatype Analysis = Analysis(info: GameInfo, result: string, moves: seq<MoveRecord>)

  predicate Completes(plies: seq<Ply<Reply>>, engineReady: bool)
  {
    forall k :: 0 <= k < |plies| ==> engineReady && plies[k].reply.Scored?
  }

  method AnalyzeGame(game: Option<PgnGame<Reply>>, engineReady: bool) returns (r: Option<Analysis>)
    ensures r.Some? <==> game.Some? && Completes(game.value.plies, engineReady)
    ensures r.Some? ==> r.value.info == ReadInfo(game.value.headers)
    ensures r.Some? ==> r.value.result == HeaderOr(game.value.headers, "Result")
    ensures r.Some? ==> |r.value.moves| == |game.value.plies|
    ensures r.Some? ==> forall k :: 0 <= k < |r.value.moves| ==>
      r.value.moves[k] == MoveRecord(k + 1, game.value.plies[k].san,
                                     FormatEvaluation(game.value.plies[k].reply.forWhite))
  {
    if game.None? {
      return None;
    }
    var g := game.value;
    var moves: seq<MoveRecord> := [];
    var moveNumber := 1;
    var k := 0;
    while k < |g.plies|
      invariant 0 <= k <= |g.plies| && moveNumber == k + 1
      invariant forall j :: 0 <= j < k ==> engineReady && g.plies[j].reply.Scored?
      invariant |moves| == k
      invariant forall j :: 0 <= j < k ==>
        moves[j] == MoveRecord(j + 1, g.plies[j].san, FormatEvaluation(g.plies[j].reply.forWhite))
    {
      if !engineReady {
        return None;
      }
      var reply := g.plies[k].reply;
      if reply.Failed? {
        return None;
      }
      moves := moves + [MoveRecord(moveNumber, g.plies[k].san, FormatEvaluation(reply.forWhite))];
      moveNumber := moveNumber + 1;
      k := k + 1;
    }
    assert k == |g.plies|;
    assert Completes(g.plies, engineReady);
    r := Some(Analysis(ReadInfo(g.headers), HeaderOr(g.headers, "Result"), moves));
  }
}
