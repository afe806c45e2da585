/**
 * chess_attempt_2/chess3.py: CPL attributed to the side to move at each ply,
 * unrounded averages, and the interleaved "Move n (White|Black): cpl"
 * listing of the per-side lists.
 */
module Attempt2Chess3 {
  import opened Base
  import opened Chess
  import Attempt3Analyzer

  type Reply = Attempt3Analyzer.Reply

  datatype Analysis = Analysis(info: GameInfo, cplWhite: seq<int>, cplBlack: seq<int>, avgCplWhite: real, avgCplBlack: real)

  method AnalyzeGame(game: Option<PgnGame<Reply>>, engineReady: bool) returns (r: Option<Analysis>)
    ensures r.Some? <==> game.Some? && Attempt3Analyzer.Completes(game.value.plies, engineReady)
    ensures r.Some? ==> r.value.info == ReadInfo(game.value.headers)
    ensures r.Some? ==> r.value.cplWhite == Evens(Attempt3Analyzer.PlyCpls(game.value.plies))
    ensures r.Some? ==> r.value.cplBlack == Odds(Attempt3Analyzer.PlyCpls(game.value.plies))
    ensures r.Some? ==> r.value.avgCplWhite == PlainMean(r.value.cplWhite)
    ensures r.Some? ==> r.value.avgCplBlack == PlainMean(r.value.cplBlack)
  {
    if game.None? {
      return None;
    }
    var g := game.value;
    var cplWhite: seq<int> := [];
    var cplBlack: seq<int> := [];
    ghost var cpls: seq<int> := [];
    var k := 0;
    while k < |g.plies|
      invariant 0 <= k <= |g.plies|
      invariant forall j :: 0 <= j < k ==> engineReady && g.plies[j].reply.Scored?
      invariant cpls == Attempt3Analyzer.PlyCpls(g.plies[..k])
      invariant cplWhite == Evens(cpls) && cplBlack == Odds(cpls)
    {
      var reply := g.plies[k].reply;
      if !engineReady {
        return None;
      }
      if reply.Failed? {
        return None;
      }
      var cpl := ConvertedCpl(reply.best, reply.played);
      EvensOddsAppend(cpls, cpl);
      // the CPL goes to the side to move before the ply is pushed
      if MoverAt(k) == White {
        cplWhite := cplWhite + [cpl];
      } else {
        cplBlack := cplBlack + [cpl];
      }
      assert g.plies[..k + 1][..k] == g.plies[..k];
      cpls := cpls + [cpl];
      k := k + 1;
    }
    assert g.plies[..k] == g.plies;
    r := Some(Analysis(ReadInfo(g.headers), cplWhite, cplBlack, PlainMean(cplWhite), PlainMean(cplBlack)));
  }

  datatype CplLine = CplLine(moveNumber: nat, side: Color, cpl: int)

  /** The lines printed after `i` rounds of the listing loop. */
  function ListingUpTo(w: seq<int>, b: seq<int>, i: nat): (lines: seq<CplLine>)
    ensures |lines| == Base.Min(i, |w|) + Base.Min(i, |b|)
  {
    if i == 0 then []
    else
      var prev := ListingUpTo(w, b, i - 1);
      var white := if i - 1 < |w| then [CplLine(|prev| + 1, White, w[i - 1])] else [];
      var black := if i - 1 < |b| then [CplLine(|prev| + |white| + 1, Black, b[i - 1])] else [];
      prev + white + black
  }

  function Listing(w: seq<int>, b: seq<int>): seq<CplLine>
  {
    ListingUpTo(w, b, Base.Max(|w|, |b|))
  }

  method ListCpls(w: seq<int>, b: seq<int>) returns (lines: seq<CplLine>)
    ensures lines == Listing(w, b)
    ensures |lines| == |w| + |b|
    ensures forall k :: 0 <= k < |lines| ==> lines[k].moveNumber == k + 1
  {
    lines := [];
    var moveNumber := 1;
    var i := 0;
    while i < Base.Max(|w|, |b|)
      invariant 0 <= i <= Base.Max(|w|, |b|)
      invariant lines == ListingUpTo(w, b, i)
      invariant moveNumber == |lines| + 1
    {
      lines, moveNumber := ListRound(lines, moveNumber, w, b, i);
      i := i + 1;
    }
    ListingNumbers(w, b, i);
  }

  /** One round of the listing loop: White's line if White had a move, then Black's. */
  method ListRound(lines: seq<CplLine>, moveNumber: nat, w: seq<int>, b: seq<int>, i: nat)
    returns (next: seq<CplLine>, nextNumber: nat)
    requires lines == ListingUpTo(w, b, i) && moveNumber == |lines| + 1
    ensures next == ListingUpTo(w, b, i + 1) && nextNumber == |next| + 1
  {
    next, nextNumber := lines, moveNumber;
    if i < |w| {
      next := next + [CplLine(nextNumber, White, w[i])];
      nextNumber := nextNumber + 1;
    }
    if i < |b| {
      next := next + [CplLine(nextNumber, Black, b[i])];
      nextNumber := nextNumber + 1;
    }
  }

  /** The listing numbers its lines 1, 2, ... in order. */
  lemma {:induction false} ListingNumbers(w: seq<int>, b: seq<int>, i: nat)
    ensures forall k :: 0 <= k < |ListingUpTo(w, b, i)| ==> ListingUpTo(w, b, i)[k].moveNumber == k + 1
  {
    if i > 0 {
      ListingNumbers(w, b, i - 1);
    }
  }

  /** The per-ply lines of a CPL sequence: ply k is move k+1, played by the side to move. */
  function PlyLines(cpls: seq<int>): seq<CplLine>
  {
    seq(|cpls|, k requires 0 <= k < |cpls| => CplLine(k + 1, MoverAt(k), cpls[k]))
  }

  /** The split lists of `cpls`: even plies in `w`, odd plies in `b`. */
  predicate SplitOf(cpls: seq<int>, w: seq<int>, b: seq<int>)
  {
    |w| == (|cpls| + 1) / 2 && |b| == |cpls| / 2 &&
    (forall k :: 0 <= k < |w| ==> w[k] == cpls[2 * k]) &&
    (forall k :: 0 <= k < |b| ==> b[k] == cpls[2 * k + 1])
  }

  lemma {:induction false} ListingPrefix(cpls: seq<int>, w: seq<int>, b: seq<int>, i: nat)
    requires SplitOf(cpls, w, b) && i <= |w|
    ensures ListingUpTo(w, b, i) == PlyLines(cpls)[..Base.Min(2 * i, |cpls|)]
  {
    if i > 0 {
      ListingPrefix(cpls, w, b, i - 1);
      var lines := PlyLines(cpls);
      var j := 2 * (i - 1);
      var prev := lines[..j];
      assert j % 2 == 0 && (j + 1) % 2 == 1;
      assert lines[j] == CplLine(j + 1, White, w[i - 1]);
      if i - 1 < |b| {
        assert lines[j + 1] == CplLine(j + 2, Black, b[i - 1]);
        TakeMore(lines, j, 2);
        ListingStepBoth(w, b, i, prev);
      } else {
        TakeMore(lines, j, 1);
        ListingStepWhite(w, b, i, prev);
      }
    }
  }

  /** A round where both sides moved adds White's line, then Black's. */
  lemma ListingStepBoth(w: seq<int>, b: seq<int>, i: nat, prev: seq<CplLine>)
    requires 0 < i && i - 1 < |w| && i - 1 < |b| && prev == ListingUpTo(w, b, i - 1)
    ensures ListingUpTo(w, b, i) == prev + [CplLine(|prev| + 1, White, w[i - 1])] + [CplLine(|prev| + 2, Black, b[i - 1])]
  {
  }

  /** A round where only White moved adds White's line. */
  lemma ListingStepWhite(w: seq<int>, b: seq<int>, i: nat, prev: seq<CplLine>)
    requires 0 < i && i - 1 < |w| && |b| <= i - 1 && prev == ListingUpTo(w, b, i - 1)
    ensures ListingUpTo(w, b, i) == prev + [CplLine(|prev| + 1, White, w[i - 1])]
  {
  }

  /** A longer prefix is the shorter one followed by the elements between. */
  lemma TakeMore<T>(s: seq<T>, j: nat, n: nat)
    requires 1 <= n <= 2 && j + n <= |s|
    ensures n == 1 ==> s[..j + n] == s[..j] + [s[j]]
    ensures n == 2 ==> s[..j + n] == s[..j] + [s[j]] + [s[j + 1]]
  {
  }

  /**
   * Listing the split lists of a game's CPLs gives the plies back in order:
   * line k is move k+1, by the side to move at ply k, with ply k's CPL.
   */
  lemma ListingRecoversPlies(cpls: seq<int>)
    ensures Listing(Evens(cpls), Odds(cpls)) == PlyLines(cpls)
  {
    ListingPrefix(cpls, Evens(cpls), Odds(cpls), |Evens(cpls)|);
  }
}
