/**
 * The CSV writer of chess_attempt_2/analyze_to_csv.py. Its analysis loop is
 * the one modelled by `Attempt3Analyzer.AnalyzeGame`; here the per-game
 * results, in submission order, become rows: successful games are numbered
 * 1, 2, 3, ... skipping failures, every move gets a 12-field row, and each
 * game ends with a separator that carries the next GameID.
 */
module Attempt2Csv {
  import opened Base
  import opened Chess
  import opened Records
  import opened Attempt3Analyzer
  import opened Text

  const Header: seq<string> := ["GameID", "WhiteName", "WhiteElo", "BlackName", "BlackElo", "Year",
                                "Opening", "Variation", "ACPL", "MoveNumber", "Move", "CPL"]

  /** The game's ACPL column: `round((white + black) / 2, 2)`. */
  function Acpl(a: Analysis, round2: real -> real): real
  {
    round2((a.avgCplWhite + a.avgCplBlack) / 2.0)
  }

  function DataRow(id: nat, a: Analysis, acpl: real, m: CplMove): seq<Field>
  {
    var n := m.moveNumber;
    [Int(id), OnFirst(n, Str(Blank(a.info.whiteName))), OnFirst(n, Str(Blank(a.info.whiteElo))),
     OnFirst(n, Str(Blank(a.info.blackName))), OnFirst(n, Str(Blank(a.info.blackElo))),
     OnFirst(n, Str(Blank(a.info.year))), OnFirst(n, Str(a.info.opening)), OnFirst(n, Str(a.info.variation)),
     OnFirst(n, Num(acpl)), Int(n), Str(m.move), Int(m.cpl)]
  }

  /** The row written after each game: the next GameID and eleven empty fields. */
  function Separator(id: nat): seq<Field>
  {
    [Int(id + 1), Empty, Empty, Empty, Empty, Empty, Empty, Empty, Empty, Empty, Empty, Empty]
  }

  /** One data row per move of the game. */
  function MoveRows(id: nat, a: Analysis, acpl: real): (rows: seq<seq<Field>>)
    ensures |rows| == |a.moves|
  {
    seq(|a.moves|, k requires 0 <= k < |a.moves| => DataRow(id, a, acpl, a.moves[k]))
  }

  function GameRows(round2: real -> real, id: nat, a: Analysis): seq<seq<Field>>
  {
    MoveRows(id, a, Acpl(a, round2)) + [Separator(id)]
  }

  function GameRowsFn(round2: real -> real): (nat, Analysis) -> seq<seq<Field>>
  {
    (id: nat, a: Analysis) => GameRows(round2, id, a)
  }

  lemma GameRowsAt(round2: real -> real, id: nat, a: Analysis)
    ensures GameRowsFn(round2)(id, a) == MoveRows(id, a, Acpl(a, round2)) + [Separator(id)]
  {
  }

  /** The inner loop over one game's moves, then its separator. */
  method AppendGame(rows: seq<seq<Field>>, id: nat, a: Analysis, acpl: real) returns (out: seq<seq<Field>>)
    ensures out == rows + MoveRows(id, a, acpl) + [Separator(id)]
  {
    out := rows;
    var j := 0;
    while j < |a.moves|
      invariant 0 <= j <= |a.moves|
      invariant out == rows + MoveRows(id, a, acpl)[..j]
    {
      assert MoveRows(id, a, acpl)[..j + 1] == MoveRows(id, a, acpl)[..j] + [DataRow(id, a, acpl, a.moves[j])];
      out := out + [DataRow(id, a, acpl, a.moves[j])];
      j := j + 1;
    }
    assert MoveRows(id, a, acpl)[..j] == MoveRows(id, a, acpl);
    out := out + [Separator(id)];
  }

  method BuildRows(results: seq<Option<Analysis>>, round2: real -> real) returns (rows: seq<seq<Field>>)
    ensures rows == Assemble(results, GameRowsFn(round2), false)
  {
    rows := [];
    var currentGameId := 0;
    var i := 0;
    while i < |results|
      invariant 0 <= i <= |results|
      invariant currentGameId == Successes(results[..i])
      invariant rows == Assemble(results[..i], GameRowsFn(round2), false)
    {
      rows, currentGameId := AddResult(rows, currentGameId, results, i, round2);
      i := i + 1;
    }
    assert results[..|results|] == results;
  }

  /** One round of the loop: a successful analysis gets the next GameID and adds its rows. */
  method AddResult(rows: seq<seq<Field>>, id: nat, results: seq<Option<Analysis>>, i: nat, round2: real -> real)
    returns (next: seq<seq<Field>>, nextId: nat)
    requires i < |results| && id == Successes(results[..i])
    requires rows == Assemble(results[..i], GameRowsFn(round2), false)
    ensures nextId == Successes(results[..i + 1])
    ensures next == Assemble(results[..i + 1], GameRowsFn(round2), false)
  {
    if results[i].None? {
      AssembleNone(results, i, GameRowsFn(round2), false);
      return rows, id;
    }
    var a := results[i].value;
    nextId := id + 1;
    var acpl := round2((a.avgCplWhite + a.avgCplBlack) / 2.0);
    next := AppendGame(rows, nextId, a, acpl);
    assert NextId(results[..i], false) == nextId;
    GameRowsAt(round2, nextId, a);
    ConcatAssoc(rows, MoveRows(nextId, a, acpl), [Separator(nextId)]);
    AssembleSome(results, i, GameRowsFn(round2), false, rows, MoveRows(nextId, a, acpl) + [Separator(nextId)]);
  }

  /** Every data row and every separator has as many fields as the header. */
  lemma RowWidths(results: seq<Option<Analysis>>, round2: real -> real)
    ensures forall k :: 0 <= k < |Assemble(results, GameRowsFn(round2), false)| ==>
      |Assemble(results, GameRowsFn(round2), false)[k]| == |Header|
  {
    forall id: nat, a: Analysis, k | 0 <= k < |GameRowsFn(round2)(id, a)|
      ensures |GameRowsFn(round2)(id, a)[k]| in {12}
    {
    }
    AssembleWidths(results, GameRowsFn(round2), false, {12});
  }

  /**
   * With moves numbered 1, 2, ... as the analyzer numbers them, only a
   * game's first row carries its names, ratings, year, opening, variation
   * and ACPL; every row carries the GameID, and the separator carries the
   * GameID of the next successful game.
   */
  lemma MetadataOnFirstRow(round2: real -> real, id: nat, a: Analysis, k: nat)
    requires forall j :: 0 <= j < |a.moves| ==> a.moves[j].moveNumber == j + 1
    requires k < |a.moves|
    ensures GameRows(round2, id, a)[k][0] == Int(id)
    ensures k > 0 ==> forall f :: 1 <= f <= 8 ==> GameRows(round2, id, a)[k][f] == Empty
    ensures k == 0 ==> GameRows(round2, id, a)[k][8] == Num(Acpl(a, round2))
    ensures Last(GameRows(round2, id, a)) == Separator(id) && Separator(id)[0] == Int(id + 1)
  {
  }
}
