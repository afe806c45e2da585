/**
 * chess_attempt_2/analyze_to_terminal.py: one CPL list over all plies, split
 * afterwards into White's (even plies) and Black's (odd plies) with
 * unrounded averages, and a JSON-style record per successful game numbered
 * by its position among all submitted games.
 */
module Attempt2Terminal {
  import opened Base
  import opened Chess
  import opened Text
  import Attempt3Analyzer
  import Records

  type Reply = Attempt3Analyzer.Reply
  type CplMove = Attempt3Analyzer.CplMove

  datatype Analysis = Analysis(info: GameInfo, moves: seq<CplMove>, avgCplWhite: real, avgCplBlack: real)

  method AnalyzeGame(game: Option<PgnGame<Reply>>, engineReady: bool) returns (r: Option<Analysis>)
    ensures r.Some? <==> game.Some? && Attempt3Analyzer.Completes(game.value.plies, engineReady)
    ensures r.Some? ==> r.value.info == ReadInfo(game.value.headers)
    ensures r.Some? ==> |r.value.moves| == |game.value.plies|
    ensures r.Some? ==> forall k :: 0 <= k < |r.value.moves| ==>
      r.value.moves[k] == Attempt3Analyzer.CplMove(k + 1, game.value.plies[k].san, Attempt3Analyzer.PlyCpl(game.value.plies, k))
    ensures r.Some? ==> r.value.avgCplWhite == PlainMean(Evens(Attempt3Analyzer.PlyCpls(game.value.plies)))
    ensures r.Some? ==> r.value.avgCplBlack == PlainMean(Odds(Attempt3Analyzer.PlyCpls(game.value.plies)))
  {
    if game.None? {
      return None;
    }
    var g := game.value;
    var cpl: seq<int> := [];
    var sans: seq<string> := [];
    var k := 0;
    while k < |g.plies|
      invariant 0 <= k <= |g.plies|
      invariant forall j :: 0 <= j < k ==> engineReady && g.plies[j].reply.Scored?
      invariant |sans| == k && forall j :: 0 <= j < k ==> sans[j] == g.plies[j].san
      invariant |cpl| == k && forall j :: 0 <= j < k ==> cpl[j] == Attempt3Analyzer.PlyCpl(g.plies, j)
    {
      sans := sans + [g.plies[k].san];
      // without an engine, `engine.analyse` raises and the handler returns None
      if !engineReady {
        return None;
      }
      var reply := g.plies[k].reply;
      if reply.Failed? {
        return None;
      }
      cpl := cpl + [ConvertedCpl(reply.best, reply.played)];
      k := k + 1;
    }
    assert cpl == Attempt3Analyzer.PlyCpls(g.plies);
    var cplWhite := Evens(cpl);
    var cplBlack := Odds(cpl);
    var moves := seq(|sans|, idx requires 0 <= idx < |sans| => Attempt3Analyzer.CplMove(idx + 1, sans[idx], cpl[idx]));
    r := Some(Analysis(ReadInfo(g.headers), moves, PlainMean(cplWhite), PlainMean(cplBlack)));
  }

  datatype GameData = GameData(
    gameNumber: nat, whiteElo: string, blackElo: string, opening: string, variation: string,
    moves: seq<CplMove>, avgCplWhite: real, avgCplBlack: real,
    moveCpl: Option<seq<CplMove>>, simplifiedMoves: seq<string>)

  /** `f"{MoveNumber}: {Move} - {CPL}"`. */
  function SimplifiedMove(m: CplMove): string
  {
    NatToString(m.moveNumber) + ": " + m.move + " - " + IntToString(m.cpl)
  }

  function Simplified(moves: seq<CplMove>): (lines: seq<string>)
    ensures |lines| == |moves|
  {
    seq(|moves|, k requires 0 <= k < |moves| => SimplifiedMove(moves[k]))
  }

  function GameDataOf(idx: nat, a: Analysis, showMoveCpl: bool): GameData
  {
    GameData(idx, a.info.whiteElo, a.info.blackElo, a.info.opening, a.info.variation, a.moves,
             a.avgCplWhite, a.avgCplBlack, if showMoveCpl then Some(a.moves) else None, Simplified(a.moves))
  }

  /** The output list for the results so far: one record per success, numbered by submission position. */
  function Output(results: seq<Option<Analysis>>, showMoveCpl: bool): seq<GameData>
  {
    if results == [] then []
    else
      var init := results[..|results| - 1];
      Output(init, showMoveCpl)
        + (match results[|results| - 1]
           case None => []
           case Some(a) => [GameDataOf(|results|, a, showMoveCpl)])
  }

  method BuildOutput(results: seq<Option<Analysis>>, showMoveCpl: bool) returns (output: seq<GameData>)
    ensures output == Output(results, showMoveCpl)
  {
    output := [];
    var i := 0;
    while i < |results|
      invariant 0 <= i <= |results|
      invariant output == Output(results[..i], showMoveCpl)
    {
      assert results[..i + 1][..i] == results[..i];
      if results[i].Some? {
        var a := results[i].value;
        var moveCpl: Option<seq<CplMove>> := None;
        if showMoveCpl {
          moveCpl := Some(a.moves);
        }
        var simplified: seq<string> := [];
        var j := 0;
        while j < |a.moves|
          invariant 0 <= j <= |a.moves|
          invariant simplified == Simplified(a.moves)[..j]
        {
          simplified := simplified + [SimplifiedMove(a.moves[j])];
          j := j + 1;
        }
        assert Simplified(a.moves)[..j] == Simplified(a.moves);
        output := output + [GameData(i + 1, a.info.whiteElo, a.info.blackElo, a.info.opening, a.info.variation,
                                     a.moves, a.avgCplWhite, a.avgCplBlack, moveCpl, simplified)];
      }
      i := i + 1;
    }
    assert results[..|results|] == results;
  }

  /**
   * One record per successful analysis, in submission order, each numbered by
   * its 1-based position among all submitted games (failures leave gaps).
   */
  lemma {:induction false} OutputNumbering(results: seq<Option<Analysis>>, showMoveCpl: bool)
    ensures |Output(results, showMoveCpl)| == Records.Successes(results)
    ensures forall k :: 0 <= k < |Output(results, showMoveCpl)| ==>
      1 <= Output(results, showMoveCpl)[k].gameNumber <= |results|
      && results[Output(results, showMoveCpl)[k].gameNumber - 1].Some?
    ensures forall k, l :: 0 <= k < l < |Output(results, showMoveCpl)| ==>
      Output(results, showMoveCpl)[k].gameNumber < Output(results, showMoveCpl)[l].gameNumber
  {
    if results != [] {
      var init := results[..|results| - 1];
      OutputNumbering(init, showMoveCpl);
      forall k | 0 <= k < |Output(init, showMoveCpl)|
        ensures results[Output(init, showMoveCpl)[k].gameNumber - 1] == init[Output(init, showMoveCpl)[k].gameNumber - 1]
      {
      }
    }
  }
}
