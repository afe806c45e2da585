/**
 * The CSV writer of chess_attempt_2/test.py. Its analysis loop is the one
 * modelled by `Attempt3Analyzer.AnalyzeGame`; results arrive in completion
 * order (`imap_unordered`), and the GameID counter advances for failed
 * analyses too, so GameIDs are positions in completion order. Rows have the
 * nine header fields, and so does each separator.
 */
module Attempt2Test {
  import opened Base
  import opened Chess
  import opened Records
  import opened Attempt3Analyzer
  import opened Text

  const Header: seq<string> := ["GameID", "WhiteElo", "BlackElo", "Opening", "Variation", "ACPL",
                                "MoveNumber", "Move", "CPL"]

  function Acpl(a: Analysis, round2: real -> real): real
  {
    round2((a.avgCplWhite + a.avgCplBlack) / 2.0)
  }

  function DataRow(id: nat, a: Analysis, acpl: real, m: CplMove): seq<Field>
  {
    var n := m.moveNumber;
    [Int(id), OnFirst(n, Str(Blank(a.info.whiteElo))), OnFirst(n, Str(Blank(a.info.blackElo))),
     OnFirst(n, Str(a.info.opening)), OnFirst(n, Str(a.info.variation)), OnFirst(n, Num(acpl)),
     Int(n), Str(m.move), Int(m.cpl)]
  }

  function Separator(id: nat): seq<Field>
  {
    [Int(id + 1), Empty, Empty, Empty, Empty, Empty, Empty, Empty, Empty]
  }

  function MoveRows(id: nat, a: Analysis, acpl: real): (rows: seq<seq<Field>>)
    ensures |rows| == |a.moves|
  {
    seq(|a.moves|, k requires 0 <= k < |a.moves| => DataRow(id, a, acpl, a.moves[k]))
  }

  function GameRows(round2: real -> real, id: nat, a: Analysis): seq<seq<Field>>
  {
    MoveRows(id, a, Acpl(a, round2)) + [Separator(id)]
  }

  function GameRowsFn(round2: real -> real): (nat, Analysis) -> seq<seq<Field>>
  {
    (id: nat, a: Analysis) => GameRows(round2, id, a)
  }

  lemma GameRowsAt(round2: real -> real, id: nat, a: Analysis)
    ensures GameRowsFn(round2)(id, a) == MoveRows(id, a, Acpl(a, round2)) + [Separator(id)]
  {
  }

  method AppendGame(rows: seq<seq<Field>>, id: nat, a: Analysis, acpl: real) returns (out: seq<seq<Field>>)
    ensures out == rows + MoveRows(id, a, acpl) + [Separator(id)]
  {
    out := rows;
    var j := 0;
    while j < |a.moves|
      invariant 0 <= j <= |a.moves|
      invariant out == rows + MoveRows(id, a, acpl)[..j]
    {
      assert MoveRows(id, a, acpl)[..j + 1] == MoveRows(id, a, acpl)[..j] + [DataRow(id, a, acpl, a.moves[j])];
      out := out + [DataRow(id, a, acpl, a.moves[j])];
      j := j + 1;
    }
    assert MoveRows(id, a, acpl)[..j] == MoveRows(id, a, acpl);
    out := out + [Separator(id)];
  }

  /** `completed` lists the results in the order the pool delivered them. */
  method BuildRows(completed: seq<Option<Analysis>>, round2: real -> real) returns (rows: seq<seq<Field>>)
    ensures rows == Assemble(completed, GameRowsFn(round2), true)
  {
    rows := [];
    var currentGameId := 0;
    var i := 0;
    while i < |completed|
      invariant 0 <= i <= |completed|
      invariant currentGameId == i
      invariant rows == Assemble(completed[..i], GameRowsFn(round2), true)
    {
      currentGameId := currentGameId + 1;
      rows := AddResult(rows, currentGameId, completed, i, round2);
      i := i + 1;
    }
    assert completed[..|completed|] == completed;
  }

  /** One round of the loop: every result advances the GameID; a successful one adds its rows. */
  method AddResult(rows: seq<seq<Field>>, id: nat, completed: seq<Option<Analysis>>, i: nat, round2: real -> real)
    returns (next: seq<seq<Field>>)
    requires i < |completed| && id == i + 1 && rows == Assemble(completed[..i], GameRowsFn(round2), true)
    ensures next == Assemble(completed[..i + 1], GameRowsFn(round2), true)
  {
    if completed[i].None? {
      AssembleNone(completed, i, GameRowsFn(round2), true);
      return rows;
    }
    var a := completed[i].value;
    var acpl := round2((a.avgCplWhite + a.avgCplBlack) / 2.0);
    next := AppendGame(rows, id, a, acpl);
    assert NextId(completed[..i], true) == id;
    GameRowsAt(round2, id, a);
    ConcatAssoc(rows, MoveRows(id, a, acpl), [Separator(id)]);
    AssembleSome(completed, i, GameRowsFn(round2), true, rows, MoveRows(id, a, acpl) + [Separator(id)]);
  }

  /** Every data row and every separator has as many fields as the header. */
  lemma RowWidths(completed: seq<Option<Analysis>>, round2: real -> real)
    ensures forall k :: 0 <= k < |Assemble(completed, GameRowsFn(round2), true)| ==>
      |Assemble(completed, GameRowsFn(round2), true)[k]| == |Header|
  {
    forall id: nat, a: Analysis, k | 0 <= k < |GameRowsFn(round2)(id, a)|
      ensures |GameRowsFn(round2)(id, a)[k]| in {9}
    {
    }
    AssembleWidths(completed, GameRowsFn(round2), true, {9});
  }

  /**
   * A failed analysis writes no rows but still uses up a GameID: the rows of
   * the result delivered at position i carry GameID i + 1.
   */
  lemma {:induction false} FailuresUseIds(completed: seq<Option<Analysis>>, round2: real -> real, i: nat)
    requires i < |completed| && completed[i].Some? && |completed[i].value.moves| > 0
    ensures Assemble(completed[..i + 1], GameRowsFn(round2), true)
         == Assemble(completed[..i], GameRowsFn(round2), true) + GameRows(round2, i + 1, completed[i].value)
    ensures GameRows(round2, i + 1, completed[i].value)[0][0] == Int(i + 1)
  {
    AssembleStep(completed, i, GameRowsFn(round2), true);
  }
}
