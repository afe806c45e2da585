/**
 * The third analyzer (chess_attempt_3/analyzer.py), whose loop is repeated in
 * chess_attempt_2/analyze_to_csv.py and chess_attempt_2/test.py: the engine's
 * best and played scores are converted with a mate score; the loss of the
 * move at ply k goes to Black's list when White is to move (k even) and to
 * White's list otherwise, and the per-move listing reads it back from those
 * lists with the same swap.
 */
module Attempt3Analyzer {
  import opened Base
  import opened Chess

  /** Best and played scores after `score(mate_score=100000)` (kept abstract), or a raised exception. */
  datatype Reply = Scored(best: Option<int>, played: Option<int>) | Failed

  datatype CplMove = CplMove(moveNumber: nat, move: string, cpl: int)

  datatype Analysis = Analysis(info: GameInfo, moves: seq<CplMove>, avgCplWhite: real, avgCplBlack: real)

  predicate Completes(plies: seq<Ply<Reply>>, engineReady: bool)
  {
    forall k :: 0 <= k < |plies| ==> engineReady && plies[k].reply.Scored?
  }

  function PlyCpl(plies: seq<Ply<Reply>>, k: nat): int
    requires k < |plies| && plies[k].reply.Scored?
  {
    ConvertedCpl(plies[k].reply.best, plies[k].reply.played)
  }

  /** The losses of all plies in order. */
  function PlyCpls(plies: seq<Ply<Reply>>): (c: seq<int>)
    requires forall k :: 0 <= k < |plies| ==> plies[k].reply.Scored?
    ensures |c| == |plies| && forall k :: 0 <= k < |plies| ==> c[k] == PlyCpl(plies, k)
  {
    seq(|plies|, k requires 0 <= k < |plies| => PlyCpl(plies, k))
  }

  /** The `Moves` listing: move `idx` reads `cpl_white[idx // 2]` when idx is odd, else `cpl_black[idx // 2]`. */
  function Listing(sans: seq<string>, cplWhite: seq<int>, cplBlack: seq<int>): (ms: seq<CplMove>)
    requires |cplWhite| == |sans| / 2 && |cplBlack| == (|sans| + 1) / 2
    ensures |ms| == |sans|
  {
    seq(|sans|, idx requires 0 <= idx < |sans| =>
      CplMove(idx + 1, sans[idx], if idx % 2 == 1 then cplWhite[idx / 2] else cplBlack[idx / 2]))
  }

  /**
   * The swapped lookup is consistent with the swapped attribution: when
   * Black's list holds the even plies and White's the odd ones, every listed
   * move carries the loss of its own ply.
   */
  lemma ListingRecoversPly(sans: seq<string>, cpls: seq<int>, idx: nat)
    requires |cpls| == |sans| && idx < |sans|
    ensures Listing(sans, Odds(cpls), Evens(cpls))[idx] == CplMove(idx + 1, sans[idx], cpls[idx])
  {
    if idx % 2 == 1 {
      assert 2 * (idx / 2) + 1 == idx;
    } else {
      assert 2 * (idx / 2) == idx;
    }
  }

  function SanOf(p: Ply<Reply>): string { p.san }

  method AnalyzeGame(game: Option<PgnGame<Reply>>, engineReady: bool, round2: real -> real)
    returns (r: Option<Analysis>)
    ensures r.Some? <==> game.Some? && Completes(game.value.plies, engineReady)
    ensures r.Some? ==> r.value.info == ReadInfo(game.value.headers)
    ensures r.Some? ==> |r.value.moves| == |game.value.plies|
    ensures r.Some? ==> forall k :: 0 <= k < |r.value.moves| ==>
      r.value.moves[k] == CplMove(k + 1, game.value.plies[k].san, PlyCpl(game.value.plies, k))
    ensures r.Some? ==> r.value.avgCplWhite == RoundedMean(Odds(PlyCpls(game.value.plies)), round2)
    ensures r.Some? ==> r.value.avgCplBlack == RoundedMean(Evens(PlyCpls(game.value.plies)), round2)
  {
    if game.None? {
      return None;
    }
    var g := game.value;
    var sans: seq<string> := [];
    var cplWhite: seq<int> := [];
    var cplBlack: seq<int> := [];
    ghost var cpls: seq<int> := [];
    var k := 0;
    while k < |g.plies|
      invariant 0 <= k <= |g.plies|
      invariant forall j :: 0 <= j < k ==> engineReady && g.plies[j].reply.Scored?
      invariant |sans| == k && forall j :: 0 <= j < k ==> sans[j] == g.plies[j].san
      invariant |cpls| == k && forall j :: 0 <= j < k ==> cpls[j] == PlyCpl(g.plies, j)
      invariant cplBlack == Evens(cpls) && cplWhite == Odds(cpls)
    {
      sans := sans + [g.plies[k].san];
      if !engineReady {
        return None;
      }
      var reply := g.plies[k].reply;
      if reply.Failed? {
        return None;
      }
      var cpl := ConvertedCpl(reply.best, reply.played);
      EvensOddsAppend(cpls, cpl);
      if MoverAt(k) == White {
        cplBlack := cplBlack + [cpl];
      } else {
        cplWhite := cplWhite + [cpl];
      }
      cpls := cpls + [cpl];
      k := k + 1;
    }
    assert cpls == PlyCpls(g.plies);
    var moves := Listing(sans, cplWhite, cplBlack);
    forall idx | 0 <= idx < |moves|
      ensures moves[idx] == CplMove(idx + 1, g.plies[idx].san, PlyCpl(g.plies, idx))
    {
      ListingRecoversPly(sans, cpls, idx);
    }
    r := Some(Analysis(ReadInfo(g.headers), moves, RoundedMean(cplWhite, round2), RoundedMean(cplBlack, round2)));
  }
}
