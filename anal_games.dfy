/**
 * The record scanner of data_analysis/anal_games.py. An analysed-games table
 * is a flat list of rows, one per move, where consecutive rows of a game share
 * its GameID. `read_game` is a cursor: from a start row it consumes the
 * maximal run of rows with the start row's GameID. It collects those rows'
 * moves and evaluations, and takes every other field from the start row. A
 * game whose start row lacks either FIDE id is rejected, but its run is still
 * consumed. The outer scan skips one row after every run.
 */
module AnalGames {
  import opened Base
  import FunctionsAnal

  /** The per-game columns, read from a game's first row only. */
  datatype Meta = Meta(
    whiteName: string, blackName: string, whiteElo: string, blackElo: string,
    year: string, opening: string, variation: string, result: string)

  /**
   * One table row. A NaN cell is `None`: a separator row has no GameID, and a
   * bot has no FIDE id. An evaluation cell holds the text the analyzer wrote.
   */
  datatype Row = Row(
    gameId: Option<int>, whiteFideId: Option<real>, blackFideId: Option<real>,
    meta: Meta, move: string, evaluation: Option<Token>)

  /** The game dictionary as the configured functions see it: everything except `LineEnd`. */
  datatype GameDraft = GameDraft(
    gameId: Option<int>, meta: Meta, whiteFideId: real, blackFideId: real, lineStart: nat,
    moves: seq<string>, evaluations: seq<Option<real>>, features: map<string, Option<real>>)

  datatype Game = Game(draft: GameDraft, lineEnd: nat)

  /** A configured function: its `__name__` and what it computes from the game (or the exception it raises). */
  datatype Feature = Feature(name: string, apply: GameDraft -> Result<Option<real>>)

  /** What one `read_game` call returns: the index it stopped at and the game, or None for a rejected one. */
  datatype Step = Step(next: nat, game: Option<Game>)

  /** `data.loc[ind, "GameID"] == gameid`: NaN equals nothing, not even NaN. */
  predicate SameGame(id: Option<int>, start: Option<int>)
  {
    id.Some? && start.Some? && id.value == start.value
  }

  /** `np.isnan` on either FIDE id of the start row. */
  predicate Rejected(row: Row)
  {
    row.whiteFideId.None? || row.blackFideId.None?
  }

  /** The index where the run of rows with GameID `id` that starts at `i` ends. */
  function RunEnd(data: seq<Row>, i: nat, id: Option<int>): (end: nat)
    requires i <= |data|
    decreases |data| - i
    ensures i <= end <= |data|
  {
    if i < |data| && SameGame(data[i].gameId, id) then RunEnd(data, i + 1, id) else i
  }

  /** The run ends at the first row past `i` with another GameID (or at the end), and every row before it has `id`. */
  lemma {:induction false} RunEndSpec(data: seq<Row>, i: nat, id: Option<int>)
    requires i <= |data|
    decreases |data| - i
    ensures forall k :: i <= k < RunEnd(data, i, id) ==> SameGame(data[k].gameId, id)
    ensures RunEnd(data, i, id) < |data| ==> !SameGame(data[RunEnd(data, i, id)].gameId, id)
  {
    if i < |data| && SameGame(data[i].gameId, id) {
      RunEndSpec(data, i + 1, id);
    }
  }

  /**
   * One evaluation cell: a number keeps its value (NaN stays NaN); text that
   * is not a number gives -7 if it starts with '-', 7 if it starts with 'M',
   * and is dropped otherwise (`None`).
   */
  function ConvertToken(cell: Option<Token>, parseFloat: string -> Option<real>): (r: Option<Option<real>>)
    ensures cell.Some? && parseFloat(cell.value).None? && cell.value[0] != '-' && cell.value[0] != 'M' <==> r.None?
  {
    match cell
    case None => Some(None)
    case Some(t) =>
      match parseFloat(t)
      case Some(v) => Some(Some(v))
      case None => if t[0] == '-' then Some(Some(-7.0)) else if t[0] == 'M' then Some(Some(7.0)) else None
  }

  /** The evaluations collected from a run of rows, in row order. */
  function Evaluations(rows: seq<Row>, parseFloat: string -> Option<real>): (evals: seq<Option<real>>)
    ensures |evals| <= |rows|
  {
    if rows == [] then []
    else
      var init := Evaluations(rows[..|rows| - 1], parseFloat);
      match ConvertToken(rows[|rows| - 1].evaluation, parseFloat)
      case Some(v) => init + [v]
      case None => init
  }

  /** Only the dropped cells shorten the evaluations: a run without them has one evaluation per move. */
  lemma {:induction false} EvaluationsComplete(rows: seq<Row>, parseFloat: string -> Option<real>)
    requires forall k :: 0 <= k < |rows| ==> ConvertToken(rows[k].evaluation, parseFloat).Some?
    ensures |Evaluations(rows, parseFloat)| == |rows|
    ensures forall k :: 0 <= k < |rows| ==> Evaluations(rows, parseFloat)[k] == ConvertToken(rows[k].evaluation, parseFloat).value
  {
    if rows != [] {
      EvaluationsComplete(rows[..|rows| - 1], parseFloat);
    }
  }

  function MoveOf(r: Row): string { r.move }

  function Moves(rows: seq<Row>): (moves: seq<string>)
    ensures |moves| == |rows|
    ensures forall k :: 0 <= k < |rows| ==> moves[k] == rows[k].move
  {
    seq(|rows|, k requires 0 <= k < |rows| => rows[k].move)
  }

  /** The game an accepted start row and its run describe, before the functions run. */
  function Draft(data: seq<Row>, start: nat, end: nat, parseFloat: string -> Option<real>): GameDraft
    requires start <= end <= |data| && start < |data| && !Rejected(data[start])
  {
    var first := data[start];
    GameDraft(first.gameId, first.meta, first.whiteFideId.value, first.blackFideId.value, start,
              Moves(data[start..end]), Evaluations(data[start..end], parseFloat), map[])
  }

  /** The functions applied in list order, each seeing the results of those before it. */
  function ApplyAll(g: GameDraft, fs: seq<Feature>): Result<GameDraft>
    decreases |fs|
  {
    if fs == [] then Ok(g)
    else
      match fs[0].apply(g)
      case Err(e) => Err(e)
      case Ok(v) => ApplyAll(g.(features := g.features[fs[0].name := v]), fs[1..])
  }

  /** Applying the functions changes only their results: each name becomes a key, and nothing else moves. */
  lemma {:induction false} ApplyAllKeeps(g: GameDraft, fs: seq<Feature>)
    decreases |fs|
    ensures ApplyAll(g, fs).Ok? ==> ApplyAll(g, fs).value.(features := map[]) == g.(features := map[])
    ensures ApplyAll(g, fs).Ok? ==>
      ApplyAll(g, fs).value.features.Keys == g.features.Keys + set k | 0 <= k < |fs| :: fs[k].name
  {
    if fs != [] {
      match fs[0].apply(g)
      case Err(_) =>
      case Ok(v) =>
        var g1 := g.(features := g.features[fs[0].name := v]);
        ApplyAllKeeps(g1, fs[1..]);
        var names := set k | 0 <= k < |fs| :: fs[k].name;
        var rest := set k | 0 <= k < |fs[1..]| :: fs[1..][k].name;
        assert names == {fs[0].name} + rest by {
          forall x | x in names ensures x in {fs[0].name} + rest {
            var k :| 0 <= k < |fs| && fs[k].name == x;
            if k > 0 { assert fs[1..][k - 1].name == x; }
          }
        }
    }
  }

  /** The functions' loop: `game[function.__name__] = function(game)` in list order. */
  method ApplyFunctions(g: GameDraft, functions: seq<Feature>) returns (r: Result<GameDraft>)
    ensures r == ApplyAll(g, functions)
  {
    var cur := g;
    for i := 0 to |functions|
      invariant ApplyAll(cur, functions[i..]) == ApplyAll(g, functions)
    {
      assert functions[i..][1..] == functions[i + 1..];
      var v := functions[i].apply(cur);
      if v.Err? {
        return Err(v.error);
      }
      cur := cur.(features := cur.features[functions[i].name := v.value]);
    }
    r := Ok(cur);
  }

  /** What `read_game` returns for an accepted game whose run is `data[start..end]`. */
  function Accepted(data: seq<Row>, start: nat, end: nat, functions: seq<Feature>,
                    parseFloat: string -> Option<real>): Result<Step>
    requires start <= end <= |data| && start < |data| && !Rejected(data[start])
  {
    match ApplyAll(Draft(data, start, end, parseFloat), functions)
    case Err(e) => Err(e)
    case Ok(d) => Ok(Step(end, Some(Game(d, end))))
  }

  /**
   * `read_game(data, ind, functions)`. The cursor stops where the start row's
   * run ends. A rejected game is None, and its run is consumed all the same;
   * an accepted game carries the run's moves and evaluations, and is returned
   * only if no configured function raises.
   */
  method ReadGame(data: seq<Row>, ind: nat, functions: seq<Feature>, parseFloat: string -> Option<real>)
    returns (r: Result<Step>)
    requires ind < |data|
    ensures Rejected(data[ind]) ==> r == Ok(Step(RunEnd(data, ind, data[ind].gameId), None))
    ensures !Rejected(data[ind]) ==>
      r == Accepted(data, ind, RunEnd(data, ind, data[ind].gameId), functions, parseFloat)
  {
    var start := ind;
    var gameId := data[ind].gameId;
    var used := !Rejected(data[ind]);
    var first := data[ind];
    var moves: seq<string> := [];
    var evals: seq<Option<real>> := [];
    var i := ind;
    RunEndSpec(data, ind, gameId);
    while i < |data| && SameGame(data[i].gameId, gameId)
      invariant start <= i <= RunEnd(data, start, gameId)
      invariant RunEnd(data, i, gameId) == RunEnd(data, start, gameId)
      invariant moves == Moves(data[start..i])
      invariant evals == Evaluations(data[start..i], parseFloat)
      decreases |data| - i
    {
      RunGrows(data, start, i, parseFloat);
      moves := moves + [data[i].move];
      var v := ConvertToken(data[i].evaluation, parseFloat);
      if v.Some? {
        evals := evals + [v.value];
      }
      i := i + 1;
    }
    if !used {
      return Ok(Step(i, None));
    }
    var draft := GameDraft(gameId, first.meta, first.whiteFideId.value, first.blackFideId.value, start, moves, evals, map[]);
    var applied := ApplyFunctions(draft, functions);
    if applied.Err? {
      return Err(applied.error);
    }
    r := Ok(Step(i, Some(Game(applied.value, i))));
  }

  /** Taking one more row of the run appends its move, and its evaluation unless the cell is dropped. */
  lemma RunGrows(data: seq<Row>, start: nat, i: nat, parseFloat: string -> Option<real>)
    requires start <= i < |data|
    ensures Moves(data[start..i + 1]) == Moves(data[start..i]) + [data[i].move]
    ensures Evaluations(data[start..i + 1], parseFloat) ==
      match ConvertToken(data[i].evaluation, parseFloat)
      case Some(v) => Evaluations(data[start..i], parseFloat) + [v]
      case None => Evaluations(data[start..i], parseFloat)
  {
    assert data[start..i + 1][..i - start] == data[start..i];
  }

  /** An accepted game has one move per row of its run and at most that many evaluations. */
  lemma AcceptedShape(data: seq<Row>, start: nat, functions: seq<Feature>, parseFloat: string -> Option<real>)
    requires start < |data| && !Rejected(data[start])
    ensures var end := RunEnd(data, start, data[start].gameId);
      var r := Accepted(data, start, end, functions, parseFloat);
      r.Ok? ==> (r.value.game.Some? && r.value.next == end &&
        var g := r.value.game.value;
        g.lineEnd == end && g.draft.lineStart == start &&
        |g.draft.moves| == end - start && |g.draft.evaluations| <= |g.draft.moves| &&
        g.draft.meta == data[start].meta && g.draft.gameId == data[start].gameId)
  {
    var end := RunEnd(data, start, data[start].gameId);
    RunEndSpec(data, start, data[start].gameId);
    ApplyAllKeeps(Draft(data, start, end, parseFloat), functions);
  }

  /** A successful `read_game` from `ind` ends its run no earlier than `ind`, and any game it returns was read from `ind`. */
  lemma StepShape(data: seq<Row>, ind: nat, functions: seq<Feature>, parseFloat: string -> Option<real>, step: Step)
    requires ind < |data|
    requires Rejected(data[ind]) ==> Ok(step) == Ok(Step(RunEnd(data, ind, data[ind].gameId), None))
    requires !Rejected(data[ind]) ==> Ok(step) == Accepted(data, ind, RunEnd(data, ind, data[ind].gameId), functions, parseFloat)
    ensures ind <= step.next
    ensures step.game.Some? ==>
      ReadFrom(data, step.game.value) && step.game.value.draft.lineStart == ind && step.game.value.lineEnd == step.next
  {
    if !Rejected(data[ind]) {
      AcceptedShape(data, ind, functions, parseFloat);
    }
  }

  /** `g` is the accepted game whose run starts at its `LineStart` row of `data`, with one move per row of the run. */
  predicate ReadFrom(data: seq<Row>, g: Game)
  {
    g.draft.lineStart < |data| && !Rejected(data[g.draft.lineStart]) &&
    g.lineEnd == RunEnd(data, g.draft.lineStart, data[g.draft.lineStart].gameId) &&
    |g.draft.moves| == g.lineEnd - g.draft.lineStart
  }

  /** `read_game` as a function: the step the cursor takes from row `ind`. */
  function ReadStep(data: seq<Row>, ind: nat, functions: seq<Feature>, parseFloat: string -> Option<real>): (r: Result<Step>)
    requires ind < |data|
    ensures r.Ok? ==> ind <= r.value.next <= |data|
  {
    var end := RunEnd(data, ind, data[ind].gameId);
    if Rejected(data[ind]) then Ok(Step(end, None)) else Accepted(data, ind, end, functions, parseFloat)
  }

  /** The games found before a later part of the scan, put in front of what that part returns (an error stays an error). */
  function Prepend(games: seq<Game>, rest: Result<seq<Game>>): Result<seq<Game>>
  {
    match rest
    case Err(e) => Err(e)
    case Ok(gs) => Ok(games + gs)
  }

  /**
   * The outer scan from row `ind`: read a game, skip one row, go on. A
   * rejected game contributes nothing, an accepted one is returned, and the
   * first configured function that raises ends the scan with its error.
   */
  function Scan(data: seq<Row>, ind: nat, functions: seq<Feature>, parseFloat: string -> Option<real>): Result<seq<Game>>
    decreases |data| - ind
  {
    if ind >= |data| then Ok([])
    else
      match ReadStep(data, ind, functions, parseFloat)
      case Err(e) => Err(e)
      case Ok(s) => Prepend(if s.game.Some? then [s.game.value] else [], Scan(data, s.next + 1, functions, parseFloat))
  }

  /** A scan that succeeds returns games read from their own start rows at or after `ind`, in table order, with runs that do not overlap. */
  lemma ScanShape(data: seq<Row>, ind: nat, functions: seq<Feature>, parseFloat: string -> Option<real>)
    ensures var r := Scan(data, ind, functions, parseFloat);
      r.Ok? ==> (forall k :: 0 <= k < |r.value| ==> ReadFrom(data, r.value[k]) && ind <= r.value[k].draft.lineStart) &&
                (forall k :: 0 <= k < |r.value| - 1 ==> r.value[k].lineEnd < r.value[k + 1].draft.lineStart)
  {
    ScanStarts(data, ind, functions, parseFloat);
    ScanOrdered(data, ind, functions, parseFloat);
  }

  /** One step of the scan: what the step at `ind` finds, in front of the scan after its run. */
  lemma ScanUnfold(data: seq<Row>, ind: nat, functions: seq<Feature>, parseFloat: string -> Option<real>)
    requires ind < |data| && ReadStep(data, ind, functions, parseFloat).Ok?
    ensures var s := ReadStep(data, ind, functions, parseFloat).value;
      Scan(data, ind, functions, parseFloat) ==
        Prepend(if s.game.Some? then [s.game.value] else [], Scan(data, s.next + 1, functions, parseFloat))
  {
  }

  lemma {:induction false} ScanStarts(data: seq<Row>, ind: nat, functions: seq<Feature>, parseFloat: string -> Option<real>)
    decreases |data| - ind
    ensures var r := Scan(data, ind, functions, parseFloat);
      r.Ok? ==> forall k :: 0 <= k < |r.value| ==> ReadFrom(data, r.value[k]) && ind <= r.value[k].draft.lineStart
  {
    if ind < |data| && ReadStep(data, ind, functions, parseFloat).Ok? {
      var s := ReadStep(data, ind, functions, parseFloat).value;
      ScanUnfold(data, ind, functions, parseFloat);
      var rest := Scan(data, s.next + 1, functions, parseFloat);
      if rest.Ok? {
        StepShape(data, ind, functions, parseFloat, s);
        ScanStarts(data, s.next + 1, functions, parseFloat);
        StartsCons(data, if s.game.Some? then [s.game.value] else [], rest.value, ind);
      }
    }
  }

  /** Games read from their own start rows at or after `ind` stay so when joined. */
  lemma StartsCons(data: seq<Row>, front: seq<Game>, rest: seq<Game>, ind: nat)
    requires forall k :: 0 <= k < |front| ==> ReadFrom(data, front[k]) && ind <= front[k].draft.lineStart
    requires forall k :: 0 <= k < |rest| ==> ReadFrom(data, rest[k]) && ind <= rest[k].draft.lineStart
    ensures var gs := front + rest; forall k :: 0 <= k < |gs| ==> ReadFrom(data, gs[k]) && ind <= gs[k].draft.lineStart
  {
    var gs := front + rest;
    forall k | 0 <= k < |gs| ensures ReadFrom(data, gs[k]) && ind <= gs[k].draft.lineStart {
      if k >= |front| { assert gs[k] == rest[k - |front|]; }
    }
  }

  /** The game a step finds ends on the row the step stops at. */
  lemma StepEnd(data: seq<Row>, ind: nat, functions: seq<Feature>, parseFloat: string -> Option<real>)
    requires ind < |data| && ReadStep(data, ind, functions, parseFloat).Ok?
    ensures var s := ReadStep(data, ind, functions, parseFloat).value;
      s.game.Some? ==> s.game.value.lineEnd == s.next
  {
    StepShape(data, ind, functions, parseFloat, ReadStep(data, ind, functions, parseFloat).value);
  }

  /** The first game a scan from `ind` returns starts at or after `ind`. */
  lemma ScanFirstStart(data: seq<Row>, ind: nat, functions: seq<Feature>, parseFloat: string -> Option<real>)
    ensures var r := Scan(data, ind, functions, parseFloat);
      r.Ok? && |r.value| > 0 ==> ind <= r.value[0].draft.lineStart
  {
    ScanStarts(data, ind, functions, parseFloat);
  }

  lemma {:induction false} ScanOrdered(data: seq<Row>, ind: nat, functions: seq<Feature>, parseFloat: string -> Option<real>)
    decreases |data| - ind
    ensures var r := Scan(data, ind, functions, parseFloat);
      r.Ok? ==> forall k :: 0 <= k < |r.value| - 1 ==> r.value[k].lineEnd < r.value[k + 1].draft.lineStart
  {
    if ind < |data| && ReadStep(data, ind, functions, parseFloat).Ok? {
      var s := ReadStep(data, ind, functions, parseFloat).value;
      ScanUnfold(data, ind, functions, parseFloat);
      var rest := Scan(data, s.next + 1, functions, parseFloat);
      if rest.Ok? {
        StepEnd(data, ind, functions, parseFloat);
        ScanFirstStart(data, s.next + 1, functions, parseFloat);
        ScanOrdered(data, s.next + 1, functions, parseFloat);
        OrderedCons(if s.game.Some? then [s.game.value] else [], rest.value, s.next);
      }
    }
  }

  /** Putting at most one game that ends on row `next` before games that start after `next` keeps non-overlapping runs in order. */
  lemma OrderedCons(front: seq<Game>, rest: seq<Game>, next: nat)
    requires |front| <= 1 && (|front| == 1 ==> front[0].lineEnd == next)
    requires |rest| > 0 ==> next < rest[0].draft.lineStart
    requires forall k :: 0 <= k < |rest| - 1 ==> rest[k].lineEnd < rest[k + 1].draft.lineStart
    ensures var gs := front + rest; forall k :: 0 <= k < |gs| - 1 ==> gs[k].lineEnd < gs[k + 1].draft.lineStart
  {
    var gs := front + rest;
    forall k | 0 <= k < |gs| - 1 ensures gs[k].lineEnd < gs[k + 1].draft.lineStart {
      if k >= |front| {
        assert gs[k] == rest[k - |front|] && gs[k + 1] == rest[k + 1 - |front|];
      } else {
        assert gs[k] == front[0] && gs[k + 1] == rest[0];
      }
    }
  }

  /** Configured functions that never raise make every accepted game's feature pass succeed. */
  lemma {:induction false} ApplyAllTotal(g: GameDraft, fs: seq<Feature>)
    requires forall k, d :: 0 <= k < |fs| ==> fs[k].apply(d).Ok?
    decreases |fs|
    ensures ApplyAll(g, fs).Ok?
  {
    if fs != [] {
      assert fs[0].apply(g).Ok?;
      var g1 := g.(features := g.features[fs[0].name := fs[0].apply(g).value]);
      forall k, d | 0 <= k < |fs[1..]| ensures fs[1..][k].apply(d).Ok? {
        assert fs[1..][k] == fs[k + 1];
      }
      ApplyAllTotal(g1, fs[1..]);
    }
  }

  /** The scan can only fail by a configured function raising: with functions that never raise it always succeeds. */
  lemma {:induction false} ScanTotal(data: seq<Row>, ind: nat, functions: seq<Feature>, parseFloat: string -> Option<real>)
    requires forall k, d :: 0 <= k < |functions| ==> functions[k].apply(d).Ok?
    decreases |data| - ind
    ensures Scan(data, ind, functions, parseFloat).Ok?
  {
    if ind < |data| {
      if !Rejected(data[ind]) {
        ApplyAllTotal(Draft(data, ind, RunEnd(data, ind, data[ind].gameId), parseFloat), functions);
      }
      var s := ReadStep(data, ind, functions, parseFloat).value;
      ScanTotal(data, s.next + 1, functions, parseFloat);
    }
  }

  /** A table whose every start row lacks a FIDE id yields no games: each rejected run is skipped. */
  lemma {:induction false} ScanAllRejected(data: seq<Row>, ind: nat, functions: seq<Feature>, parseFloat: string -> Option<real>)
    requires forall k :: 0 <= k < |data| ==> Rejected(data[k])
    decreases |data| - ind
    ensures Scan(data, ind, functions, parseFloat) == Ok([])
  {
    if ind < |data| {
      var s := ReadStep(data, ind, functions, parseFloat).value;
      assert s.game == None;
      ScanAllRejected(data, s.next + 1, functions, parseFloat);
      PrependNone(Ok([]));
    }
  }

  /**
   * The outer scan of one file: read a game, skip one row, repeat until the
   * end of the table. The `+ 1` makes every round advance, so the scan ends.
   */
  method ScanFile(data: seq<Row>, functions: seq<Feature>, parseFloat: string -> Option<real>)
    returns (r: Result<seq<Game>>)
    ensures r == Scan(data, 0, functions, parseFloat)
  {
    var games: seq<Game> := [];
    var ind := 0;
    PrependNone(Scan(data, 0, functions, parseFloat));
    while ind < |data|
      invariant Prepend(games, Scan(data, ind, functions, parseFloat)) == Scan(data, 0, functions, parseFloat)
      decreases |data| - ind
    {
      var step := ReadGame(data, ind, functions, parseFloat);
      assert step == ReadStep(data, ind, functions, parseFloat);
      if step.Err? {
        assert Scan(data, ind, functions, parseFloat) == Err(step.error);
        return Err(step.error);
      }
      var next := step.value.next;
      var found: seq<Game> := if step.value.game.Some? then [step.value.game.value] else [];
      ScanUnfold(data, ind, functions, parseFloat);
      PrependAssoc(games, found, Scan(data, next + 1, functions, parseFloat));
      games := games + found;
      ind := next + 1;
    }
    assert Scan(data, ind, functions, parseFloat) == Ok([]);
    assert games + [] == games;
    r := Ok(games);
  }

  lemma PrependNone(rest: Result<seq<Game>>)
    ensures Prepend([], rest) == rest
  {
    if rest.Ok? {
      assert [] + rest.value == rest.value;
    }
  }

  lemma PrependAssoc(a: seq<Game>, b: seq<Game>, rest: Result<seq<Game>>)
    ensures Prepend(a, Prepend(b, rest)) == Prepend(a + b, rest)
  {
    if rest.Ok? {
      assert a + (b + rest.value) == (a + b) + rest.value;
    }
  }

  /** The functions the outer scan configures, in its order. */
  const StandardFunctions: seq<Feature> := [
    Feature("MovesWhite", (g: GameDraft) => Ok(Some(FunctionsAnal.ParityCount(|g.moves|, 0) as real))),
    Feature("MovesBlack", (g: GameDraft) => Ok(Some(FunctionsAnal.ParityCount(|g.moves|, 1) as real))),
    Feature("WhiteAvgEvaluation", (g: GameDraft) => FunctionsAnal.SideMean(|g.moves|, g.evaluations, 0)),
    Feature("BlackAvgEvaluation", (g: GameDraft) => FunctionsAnal.SideMean(|g.moves|, g.evaluations, 1))
  ]
}
