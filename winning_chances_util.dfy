/**
 * data_analysis/winning_chances_util.py: the outcome-table builder. Games
 * are binned by evaluation and move number, the (win, draw, loss) counts of
 * every bin are turned into percentages, under-sampled bins are repaired in
 * place, and the tables are written one file per move bin with interval
 * labels that the reader parses back. `WinChanceIncrease` turns one game's
 * evaluations into signed per-ply win- and loss-chance changes.
 *
 * Floating-point formatting and parsing (`str(float)`, `float(str)`) and
 * `np.round(x, 2)` are parameters.
 */
module WinningChancesUtil {
  import opened Base
  import opened Text

  // ------------------------------------------------------------ outcomes

  /** A game's Result value: a string, a list whose first element is used, or a value that cannot be indexed (NaN). */
  datatype ResultArg = Text(s: string) | Items(items: seq<string>) | Unindexable

  datatype Outcome = Win | Draw | Loss

  /** The text that is classified: the string itself or the first element; indexing an empty list or a number raises. */
  function ResultText(r: ResultArg): (t: Result<string>)
    ensures t.Err? <==> r.Unindexable? || (r.Items? && r.items == [])
    ensures r.Text? ==> t == Ok(r.s)
    ensures r.Items? && r.items != [] ==> t == Ok(r.items[0])
  {
    match r
    case Text(s) => Ok(s)
    case Items(items) => if items == [] then Err("IndexError") else Ok(items[0])
    case Unindexable => Err("TypeError")
  }

  /** `get_outcome`: White's outcome for "1-0", "0-1" and "1/2-1/2", None for every other result. */
  function GetOutcome(r: ResultArg): (o: Result<Option<Outcome>>)
    ensures o.Err? <==> ResultText(r).Err?
    ensures o.Ok? && o.value.Some? ==> ResultText(r).value in {"1-0", "0-1", "1/2-1/2"}
  {
    match ResultText(r)
    case Err(e) => Err(e)
    case Ok(t) =>
      if t == "1-0" then Ok(Some(Win))
      else if t == "0-1" then Ok(Some(Loss))
      else if t == "1/2-1/2" then Ok(Some(Draw))
      else Ok(None)
  }

  /** The table row of an outcome in this file: win 0, draw 1, loss 2. */
  function OutcomeIndex(o: Outcome): (i: nat)
    ensures i < 3
  {
    match o
    case Win => 0
    case Draw => 1
    case Loss => 2
  }

  /** `get_outcome_num`: 0 for "1-0", 1 for "1/2-1/2", 2 for "0-1", None otherwise. */
  function GetOutcomeNum(r: ResultArg): (n: Result<Option<nat>>)
    ensures n.Err? <==> ResultText(r).Err?
    ensures n.Ok? && n.value.Some? ==> n.value.value < 3
  {
    match ResultText(r)
    case Err(e) => Err(e)
    case Ok(t) =>
      if t == "1-0" then Ok(Some(0))
      else if t == "0-1" then Ok(Some(2))
      else if t == "1/2-1/2" then Ok(Some(1))
      else Ok(None)
  }

  /** The two classifiers agree: the number is the row of the named outcome, and both reject the same results. */
  lemma OutcomeNumAgrees(r: ResultArg)
    ensures GetOutcomeNum(r) == match GetOutcome(r)
      case Err(e) => Err(e)
      case Ok(None) => Ok(None)
      case Ok(Some(o)) => Ok(Some(OutcomeIndex(o)))
  {
  }

  /** The three row numbers belong to exactly the three decisive-or-drawn result texts, one each. */
  lemma OutcomeNumInverse(r: ResultArg, i: nat)
    ensures GetOutcomeNum(r) == Ok(Some(i)) <==>
      ResultText(r) == Ok(if i == 0 then "1-0" else if i == 1 then "1/2-1/2" else "0-1") && i < 3
  {
  }

  // ------------------------------------------------------------ interval labels

  /** An edge of `[-inf] + list(intervals) + [inf]`. */
  datatype Edge = NegInf | Fin(x: real) | PosInf

  function Edges(intervals: seq<real>): (edges: seq<Edge>)
    ensures |edges| == |intervals| + 2
  {
    [NegInf] + seq(|intervals|, k requires 0 <= k < |intervals| => Fin(intervals[k])) + [PosInf]
  }

  /** How an edge prints in an f-string: numpy's own text for a number, "inf"/"-inf" for the infinities. */
  function ShowEdge(e: Edge, show: real -> string): string
  {
    match e
    case NegInf => "-inf"
    case Fin(x) => show(x)
    case PosInf => "inf"
  }

  /** The label of the bin between two consecutive edges. */
  function Label(lower: Edge, upper: Edge, show: real -> string): string
  {
    if lower.NegInf? then "(-∞, " + ShowEdge(upper, show) + "]"
    else if upper.PosInf? then "(" + ShowEdge(lower, show) + ", ∞)"
    else "(" + ShowEdge(lower, show) + ", " + ShowEdge(upper, show) + "]"
  }

  function Labels(intervals: seq<real>, show: real -> string): (labels: seq<string>)
    ensures |labels| == |intervals| + 1
  {
    var edges := Edges(intervals);
    seq(|intervals| + 1, i requires 0 <= i < |intervals| + 1 => Label(edges[i], edges[i + 1], show))
  }

  /** The label loop of `compute_winning_chance_table`. */
  method BuildLabels(intervals: seq<real>, show: real -> string) returns (labels: seq<string>)
    ensures labels == Labels(intervals, show)
  {
    var edges := Edges(intervals);
    labels := [];
    var i := 0;
    while i < |edges| - 1
      invariant 0 <= i <= |edges| - 1
      invariant labels == Labels(intervals, show)[..i]
    {
      var lbl := Label(edges[i], edges[i + 1], show);
      assert Labels(intervals, show)[..i + 1] == labels + [lbl];
      labels := labels + [lbl];
      i := i + 1;
    }
    assert labels == Labels(intervals, show)[..i];
  }

  /** `float(lbl.split(',')[1][:-1])`; `parse` is `float`, None where it raises. */
  function UpperEdge(lbl: string, parse: string -> Option<real>): Result<real>
  {
    var pieces := Split(lbl, ',');
    if |pieces| < 2 then Err("IndexError")
    else
      var top := pieces[1];
      if top == [] then Err("ValueError")
      else match parse(top[..|top| - 1])
        case None => Err("ValueError")
        case Some(x) => Ok(x)
  }

  /** The upper edges read from a list of labels, failing at the first that does not parse. */
  function ParseUpperEdges(labels: seq<string>, parse: string -> Option<real>): (r: Result<seq<real>>)
    ensures r.Ok? ==> |r.value| == |labels|
  {
    if labels == [] then Ok([])
    else
      match ParseUpperEdges(labels[..|labels| - 1], parse)
      case Err(e) => Err(e)
      case Ok(init) =>
        match UpperEdge(labels[|labels| - 1], parse)
        case Err(e) => Err(e)
        case Ok(x) => Ok(init + [x])
  }

  /** `read_winning_tables`: the upper edges of every label but the last. */
  function UpperEdges(labels: seq<string>, parse: string -> Option<real>): (r: Result<seq<real>>)
    ensures r.Ok? ==> |r.value| == Max(|labels| - 1, 0)
  {
    if labels == [] then Ok([]) else ParseUpperEdges(labels[..|labels| - 1], parse)
  }

  /** The head before the first comma of label `i`, when its upper edge is finite. */
  function LabelHead(intervals: seq<real>, i: nat, show: real -> string): string
    requires i < |intervals|
  {
    if i == 0 then "(-∞" else "(" + show(intervals[i - 1])
  }

  lemma LabelShape(intervals: seq<real>, i: nat, show: real -> string)
    requires i < |intervals|
    ensures Labels(intervals, show)[i] == LabelHead(intervals, i, show) + [','] + (" " + show(intervals[i]) + "]")
  {
    var edges := Edges(intervals);
    assert edges[i + 1] == Fin(intervals[i]);
    if i == 0 {
      assert edges[i] == NegInf;
    } else {
      assert edges[i] == Fin(intervals[i - 1]);
    }
  }

  /** Each label with a finite upper edge reads back as that edge. */
  lemma UpperEdgeOfLabel(intervals: seq<real>, i: nat, show: real -> string, parse: string -> Option<real>)
    requires i < |intervals|
    requires forall k :: 0 <= k < |intervals| ==> ',' !in show(intervals[k])
    requires forall k :: 0 <= k < |intervals| ==> parse(" " + show(intervals[k])) == Some(intervals[k])
    ensures UpperEdge(Labels(intervals, show)[i], parse) == Ok(intervals[i])
  {
    var u := intervals[i];
    var head := LabelHead(intervals, i, show);
    assert ',' !in head by {
      if i > 0 {
        assert ',' !in show(intervals[i - 1]);
      }
    }
    var top := " " + show(u) + "]";
    LabelShape(intervals, i, show);
    SplitAt(head, ',', top);
    assert ',' !in top;
    SplitNoSep(top, ',');
    assert Split(Labels(intervals, show)[i], ',')[1] == top;
    assert top[..|top| - 1] == " " + show(u);
  }

  /** Labels that each read back as an edge read back, as a list, as those edges. */
  lemma {:induction false} ParsePrefix(labels: seq<string>, edges: seq<real>, m: nat, parse: string -> Option<real>)
    requires m <= |labels| && m <= |edges|
    requires forall k :: 0 <= k < m ==> UpperEdge(labels[k], parse) == Ok(edges[k])
    ensures ParseUpperEdges(labels[..m], parse) == Ok(edges[..m])
  {
    if m > 0 {
      ParsePrefix(labels, edges, m - 1, parse);
      var pre := labels[..m];
      assert pre[..m - 1] == labels[..m - 1];
      assert pre[m - 1] == labels[m - 1];
      assert edges[..m] == edges[..m - 1] + [edges[m - 1]];
    }
  }

  /**
   * The reader recovers the finite edges from the labels, whenever the
   * printed edges hold no comma and `float` reads `" " + str(x)` back as `x`.
   */
  lemma LabelsRoundTrip(intervals: seq<real>, show: real -> string, parse: string -> Option<real>)
    requires forall k :: 0 <= k < |intervals| ==> ',' !in show(intervals[k])
    requires forall k :: 0 <= k < |intervals| ==> parse(" " + show(intervals[k])) == Some(intervals[k])
    ensures UpperEdges(Labels(intervals, show), parse) == Ok(intervals)
  {
    var labels := Labels(intervals, show);
    forall k | 0 <= k < |intervals| ensures UpperEdge(labels[k], parse) == Ok(intervals[k]) {
      UpperEdgeOfLabel(intervals, k, show, parse);
    }
    ParsePrefix(labels, intervals, |intervals|, parse);
    assert Labels(intervals, show)[..|Labels(intervals, show)| - 1] == Labels(intervals, show)[..|intervals|];
    assert intervals[..|intervals|] == intervals;
  }

  // ------------------------------------------------------------ file names

  /** The first move of the next bin, as text, or nothing for the last bin. */
  function NextStart(movebins: seq<nat>, i: nat): string
    requires i < |movebins|
  {
    if i < |movebins| - 1 then NatToString(movebins[i + 1]) else ""
  }

  /** The table file of move bin `i`: `winning_chances_<start>-<next start>.csv`, the last one `winning_chances_<start>-.csv`. */
  function TableName(movebins: seq<nat>, i: nat): string
    requires i < |movebins|
  {
    "winning_chances_" + NatToString(movebins[i]) + "-" + NextStart(movebins, i) + ".csv"
  }

  /** The files `read_winning_tables` opens, in order. */
  function TableFiles(dir: string, movebins: Option<seq<nat>>): (files: seq<string>)
    ensures movebins.None? ==> |files| == 1
    ensures movebins.Some? ==> |files| == |movebins.value|
  {
    match movebins
    case None => [PathJoin(dir, "winning_chances_all.csv")]
    case Some(mb) => seq(|mb|, i requires 0 <= i < |mb| => PathJoin(dir, TableName(mb, i)))
  }

  /** `int(filename.split('_')[-1].split('-')[0])` with `filename = file.split('/')[-1].split('.')[0]`. */
  function BinStart(file: string): Option<nat>
  {
    var filename := Split(Basename(file), '.')[0];
    ParseNat(Split(Last(Split(filename, '_')), '-')[0])
  }

  lemma DigitsHoldNoPunctuation(s: string)
    requires AllDigits(s)
    ensures '/' !in s && '.' !in s && '_' !in s && '-' !in s
  {
    assert forall k :: 0 <= k < |s| ==> IsDigit(s[k]);
  }

  /** The pieces of a table name: the digits of the bin start and of the next one. */
  lemma TableNameShape(movebins: seq<nat>, i: nat)
    requires i < |movebins|
    ensures var a, rest := NatToString(movebins[i]), NextStart(movebins, i);
      var tail := a + ['-'] + rest;
      var stem := "winning_chances" + ['_'] + tail;
      TableName(movebins, i) == stem + ['.'] + "csv"
      && '/' !in stem + ['.'] + "csv" && '.' !in stem && '_' !in tail && '-' !in a
  {
    var a, rest := NatToString(movebins[i]), NextStart(movebins, i);
    DigitsHoldNoPunctuation(a);
    if i < |movebins| - 1 {
      DigitsHoldNoPunctuation(rest);
    }
    var tail := a + ['-'] + rest;
    var stem := "winning_chances" + ['_'] + tail;
    assert "winning_chances_" + a + "-" + rest + ".csv" == stem + ['.'] + "csv";
  }

  /** Reading a table file's name back gives the first move of its bin. */
  lemma BinStartRoundTrip(dir: string, movebins: seq<nat>, i: nat)
    requires i < |movebins|
    ensures BinStart(PathJoin(dir, TableName(movebins, i))) == Some(movebins[i])
  {
    var a, rest := NatToString(movebins[i]), NextStart(movebins, i);
    var tail := a + ['-'] + rest;
    var stem := "winning_chances" + ['_'] + tail;
    TableNameShape(movebins, i);
    BasenameJoin(dir, TableName(movebins, i));
    SplitAt(stem, '.', "csv");
    LastSplitAfterSep("winning_chances", '_', tail);
    SplitAt(a, '-', rest);
    ParseNatToString(movebins[i]);
  }

  // ------------------------------------------------------------ mistake percentage

  /** `value > 0`, which is False for NaN. */
  predicate Positive(v: Option<real>)
  {
    v.Some? && v.value > 0.0
  }

  function CountPositive(col: seq<Option<real>>): (n: nat)
    ensures n <= |col|
  {
    if col == [] then 0 else CountPositive(col[..|col| - 1]) + (if Positive(col[|col| - 1]) then 1 else 0)
  }

  /** All rows count exactly when all are positive, none exactly when none is. */
  lemma {:induction false} CountPositiveExtremes(col: seq<Option<real>>)
    ensures CountPositive(col) == |col| <==> forall k :: 0 <= k < |col| ==> Positive(col[k])
    ensures CountPositive(col) == 0 <==> forall k :: 0 <= k < |col| ==> !Positive(col[k])
  {
    if col != [] {
      var init := col[..|col| - 1];
      CountPositiveExtremes(init);
      assert forall k :: 0 <= k < |init| ==> init[k] == col[k];
    }
  }

  /** A share of `n` out of `rows`, in percent, lies in [0, 100] and reaches either end only with none or all. */
  lemma ShareBounds(n: nat, rows: nat)
    requires 0 < rows && n <= rows
    ensures var p := (n as real / rows as real) * 100.0;
      0.0 <= p <= 100.0 && (p == 100.0 <==> n == rows) && (p == 0.0 <==> n == 0)
  {
    var q := n as real / rows as real;
    assert q * rows as real == n as real;
    assert q <= 1.0;
    if q == 1.0 {
      assert n as real == rows as real;
    }
  }

  /**
   * `calculate_mistake_percentage`: the share, in percent, of summary rows
   * whose count in the given interval column is positive (a NaN count is
   * not). A missing column raises ValueError, an empty table
   * ZeroDivisionError.
   */
  function MistakePercentage(columns: map<string, seq<Option<real>>>, rows: nat, lbl: string): (r: Result<real>)
    requires forall c :: c in columns ==> |columns[c]| == rows
    ensures r.Err? <==> lbl !in columns || rows == 0
    ensures r.Ok? ==> 0.0 <= r.value <= 100.0
    ensures r.Ok? ==> (r.value == 100.0 <==> forall k :: 0 <= k < rows ==> Positive(columns[lbl][k]))
    ensures r.Ok? ==> (r.value == 0.0 <==> forall k :: 0 <= k < rows ==> !Positive(columns[lbl][k]))
  {
    if lbl !in columns then Err("ValueError")
    else if rows == 0 then Err("ZeroDivisionError")
    else
      var col := columns[lbl];
      CountPositiveExtremes(col);
      var n := CountPositive(col);
      ShareBounds(n, rows);
      Ok((n as real / rows as real) * 100.0)
  }

  // ------------------------------------------------------------ counting

  /** A game handed to the table builder: its Result, its number of moves, and one evaluation per move (None for NaN). */
  datatype TableGame = TableGame(result: ResultArg, moves: nat, evaluations: seq<Option<real>>)

  /** `np.digitize(j, movebins)` on increasing starts: how many bin starts are at most `j`. */
  function StartsUpTo(j: nat, movebins: seq<nat>): (c: nat)
    ensures c <= |movebins|
  {
    CountLE(j as real, AsReals(movebins))
  }

  /** The move axis of the tensors: one column for 'all', otherwise one more than the bin starts. */
  function MoveColumns(movebins: Option<seq<nat>>): nat
  {
    match movebins
    case None => 1
    case Some(mb) => |mb| + 1
  }

  /** The move column of ply `j`: `digitize(j, movebins) - 1`, where -1 indexes the last column. */
  function MoveBin(j: nat, movebins: Option<seq<nat>>): (m: nat)
    ensures m < MoveColumns(movebins)
  {
    match movebins
    case None => 0
    case Some(mb) =>
      var d := StartsUpTo(j, mb);
      if d == 0 then |mb| else d - 1
  }

  /** A ply at or past the first start is counted past at least one start. */
  lemma StartsUpToFirst(j: nat, movebins: seq<nat>)
    requires |movebins| > 0 && movebins[0] <= j
    ensures StartsUpTo(j, movebins) >= 1
  {
    CountLEFirst(j as real, AsReals(movebins));
  }

  /** When the bin starts begin at 0, no ply lands in the extra last column (the one -1 would index). */
  lemma MoveBinNotWrapped(j: nat, movebins: seq<nat>)
    requires |movebins| > 0 && movebins[0] == 0
    ensures MoveBin(j, Some(movebins)) < |movebins|
  {
    StartsUpToFirst(j, movebins);
  }

  /** `np.digitize(evaluation, bins=intervals, right=True)`. */
  function EvalBin(x: Option<real>, intervals: seq<real>): (e: nat)
    ensures e <= |intervals|
  {
    DigitizeRight(x, intervals)
  }

  /** The game makes the builder raise: its Result cannot be classified, or it has fewer evaluations than moves. */
  predicate Raises(g: Option<TableGame>)
  {
    g.Some? &&
    (GetOutcomeNum(g.value.result).Err? ||
     (GetOutcomeNum(g.value.result).value.Some? && g.value.moves > |g.value.evaluations|))
  }

  /** The outcome row a non-raising game counts in, or None when it is rejected or has no decisive-or-drawn result. */
  function AcceptedRow(g: Option<TableGame>): (o: Option<nat>)
    requires !Raises(g)
    ensures o.Some? ==> o.value < 3 && g.Some? && g.value.moves <= |g.value.evaluations|
  {
    if g.None? then None else GetOutcomeNum(g.value.result).value
  }

  /** How many of the first `n` plies of a game fall into evaluation bin `e` and move column `m`. */
  function HitsIn(g: TableGame, e: nat, m: nat, n: nat, intervals: seq<real>, movebins: Option<seq<nat>>): (h: nat)
    requires n <= |g.evaluations|
    ensures h <= n
  {
    if n == 0 then 0
    else
      var hit := EvalBin(g.evaluations[n - 1], intervals) == e && MoveBin(n - 1, movebins) == m;
      HitsIn(g, e, m, n - 1, intervals, movebins) + (if hit then 1 else 0)
  }

  /** The plies of accepted games with outcome row `o` in cell (e, m). */
  function Hits(games: seq<Option<TableGame>>, o: nat, e: nat, m: nat, intervals: seq<real>, movebins: Option<seq<nat>>): nat
    requires forall k :: 0 <= k < |games| ==> !Raises(games[k])
  {
    if games == [] then 0
    else
      var g := games[|games| - 1];
      Hits(games[..|games| - 1], o, e, m, intervals, movebins)
        + (match AcceptedRow(g)
           case None => 0
           case Some(row) => if row == o then HitsIn(g.value, e, m, g.value.moves, intervals, movebins) else 0)
  }

  /** The plies of accepted games, whatever their outcome, in cell (e, m). */
  function Total(games: seq<Option<TableGame>>, e: nat, m: nat, intervals: seq<real>, movebins: Option<seq<nat>>): nat
    requires forall k :: 0 <= k < |games| ==> !Raises(games[k])
  {
    if games == [] then 0
    else
      var g := games[|games| - 1];
      Total(games[..|games| - 1], e, m, intervals, movebins)
        + (match AcceptedRow(g)
           case None => 0
           case Some(_) => HitsIn(g.value, e, m, g.value.moves, intervals, movebins))
  }

  /** What one more game adds to a cell's outcome counts and to its count. */
  function GameHits(g: Option<TableGame>, o: nat, e: nat, m: nat, intervals: seq<real>, movebins: Option<seq<nat>>): nat
    requires !Raises(g)
  {
    match AcceptedRow(g)
    case None => 0
    case Some(row) => if row == o then HitsIn(g.value, e, m, g.value.moves, intervals, movebins) else 0
  }

  function GameTotal(g: Option<TableGame>, e: nat, m: nat, intervals: seq<real>, movebins: Option<seq<nat>>): nat
    requires !Raises(g)
  {
    match AcceptedRow(g)
    case None => 0
    case Some(_) => HitsIn(g.value, e, m, g.value.moves, intervals, movebins)
  }

  lemma HitsStep(games: seq<Option<TableGame>>, i: nat, o: nat, e: nat, m: nat, intervals: seq<real>, movebins: Option<seq<nat>>)
    requires i < |games| && forall k :: 0 <= k <= i ==> !Raises(games[k])
    ensures Hits(games[..i + 1], o, e, m, intervals, movebins)
      == Hits(games[..i], o, e, m, intervals, movebins) + GameHits(games[i], o, e, m, intervals, movebins)
    ensures Total(games[..i + 1], e, m, intervals, movebins)
      == Total(games[..i], e, m, intervals, movebins) + GameTotal(games[i], e, m, intervals, movebins)
  {
    assert games[..i + 1][..i] == games[..i];
  }

  /** Before normalisation the three outcome counts of a cell add up to the cell's count. */
  lemma {:induction false} HitsSum(games: seq<Option<TableGame>>, e: nat, m: nat, intervals: seq<real>, movebins: Option<seq<nat>>)
    requires forall k :: 0 <= k < |games| ==> !Raises(games[k])
    ensures Hits(games, 0, e, m, intervals, movebins) + Hits(games, 1, e, m, intervals, movebins)
      + Hits(games, 2, e, m, intervals, movebins) == Total(games, e, m, intervals, movebins)
  {
    if games != [] {
      HitsSum(games[..|games| - 1], e, m, intervals, movebins);
    }
  }

  /** The tensors' shapes: (3, bins + 1, move columns) outcomes and (bins + 1, move columns) counts. */
  predicate Shaped(win: array3<real>, count: array2<real>, intervals: seq<real>, movebins: Option<seq<nat>>)
  {
    win.Length0 == 3 && win.Length1 == |intervals| + 1 && win.Length2 == MoveColumns(movebins)
    && count.Length0 == |intervals| + 1 && count.Length1 == MoveColumns(movebins)
  }

  /** The inner loop over one accepted game's plies: each increments one outcome cell and its count cell. */
  method AddGame(win: array3<real>, count: array2<real>, g: TableGame, o: nat, intervals: seq<real>,
                 movebins: Option<seq<nat>>)
    requires Shaped(win, count, intervals, movebins) && o < 3 && g.moves <= |g.evaluations|
    modifies win, count
    ensures forall r, e, m :: 0 <= r < 3 && 0 <= e < win.Length1 && 0 <= m < win.Length2 ==>
      win[r, e, m] == old(win[r, e, m]) + (if r == o then HitsIn(g, e, m, g.moves, intervals, movebins) as real else 0.0)
    ensures forall e, m :: 0 <= e < count.Length0 && 0 <= m < count.Length1 ==>
      count[e, m] == old(count[e, m]) + HitsIn(g, e, m, g.moves, intervals, movebins) as real
  {
    var j := 0;
    while j < g.moves
      invariant 0 <= j <= g.moves
      invariant forall r, e, m :: 0 <= r < 3 && 0 <= e < win.Length1 && 0 <= m < win.Length2 ==>
        win[r, e, m] == old(win[r, e, m]) + (if r == o then HitsIn(g, e, m, j, intervals, movebins) as real else 0.0)
      invariant forall e, m :: 0 <= e < count.Length0 && 0 <= m < count.Length1 ==>
        count[e, m] == old(count[e, m]) + HitsIn(g, e, m, j, intervals, movebins) as real
    {
      var eBin := EvalBin(g.evaluations[j], intervals);
      var mBin := MoveBin(j, movebins);
      win[o, eBin, mBin] := win[o, eBin, mBin] + 1.0;
      count[eBin, mBin] := count[eBin, mBin] + 1.0;
      j := j + 1;
    }
  }

  /** One game of the counting loop: `ok` is false where it makes the loop raise, otherwise its plies are counted. */
  method CountGame(win: array3<real>, count: array2<real>, g: Option<TableGame>, intervals: seq<real>,
                   movebins: Option<seq<nat>>)
    returns (ok: bool)
    requires Shaped(win, count, intervals, movebins)
    modifies win, count
    ensures ok <==> !Raises(g)
    ensures ok ==> forall r, e, m :: 0 <= r < 3 && 0 <= e < win.Length1 && 0 <= m < win.Length2 ==>
      win[r, e, m] == old(win[r, e, m]) + GameHits(g, r, e, m, intervals, movebins) as real
    ensures ok ==> forall e, m :: 0 <= e < count.Length0 && 0 <= m < count.Length1 ==>
      count[e, m] == old(count[e, m]) + GameTotal(g, e, m, intervals, movebins) as real
  {
    if g.None? {
      // the game was rejected by the reader
      return true;
    }
    var row := GetOutcomeNum(g.value.result);
    if row.Err? {
      return false;
    }
    if row.value.None? {
      return true;
    }
    if g.value.moves > |g.value.evaluations| {
      // `game['Evaluation'][j]` raises IndexError
      return false;
    }
    AddGame(win, count, g.value, row.value.value, intervals, movebins);
    return true;
  }

  /** The counting loops of `compute_winning_chance_table`; `ok` is false where a game makes them raise. */
  method Tally(games: seq<Option<TableGame>>, intervals: seq<real>, movebins: Option<seq<nat>>)
    returns (ok: bool, win: array3<real>, count: array2<real>)
    ensures fresh(win) && fresh(count) && Shaped(win, count, intervals, movebins)
    ensures ok <==> forall k :: 0 <= k < |games| ==> !Raises(games[k])
    ensures ok ==> forall r, e, m :: 0 <= r < 3 && 0 <= e < win.Length1 && 0 <= m < win.Length2 ==>
      win[r, e, m] == Hits(games, r, e, m, intervals, movebins) as real
    ensures ok ==> forall e, m :: 0 <= e < count.Length0 && 0 <= m < count.Length1 ==>
      count[e, m] == Total(games, e, m, intervals, movebins) as real
  {
    win := new real[3, |intervals| + 1, MoveColumns(movebins)]((r, e, m) => 0.0);
    count := new real[|intervals| + 1, MoveColumns(movebins)]((e, m) => 0.0);
    var i := 0;
    while i < |games|
      invariant 0 <= i <= |games|
      invariant Shaped(win, count, intervals, movebins)
      invariant forall k :: 0 <= k < i ==> !Raises(games[k])
      invariant forall r, e, m :: 0 <= r < 3 && 0 <= e < win.Length1 && 0 <= m < win.Length2 ==>
        win[r, e, m] == Hits(games[..i], r, e, m, intervals, movebins) as real
      invariant forall e, m :: 0 <= e < count.Length0 && 0 <= m < count.Length1 ==>
        count[e, m] == Total(games[..i], e, m, intervals, movebins) as real
    {
      label before:
      var counted := CountGame(win, count, games[i], intervals, movebins);
      if !counted {
        return false, win, count;
      }
      forall r, e, m | 0 <= r < 3 && 0 <= e < win.Length1 && 0 <= m < win.Length2
        ensures win[r, e, m] == Hits(games[..i + 1], r, e, m, intervals, movebins) as real
      {
        HitsStep(games, i, r, e, m, intervals, movebins);
        assert win[r, e, m] == old@before(win[r, e, m]) + GameHits(games[i], r, e, m, intervals, movebins) as real;
      }
      forall e, m | 0 <= e < count.Length0 && 0 <= m < count.Length1
        ensures count[e, m] == Total(games[..i + 1], e, m, intervals, movebins) as real
      {
        HitsStep(games, i, 0, e, m, intervals, movebins);
        assert count[e, m] == old@before(count[e, m]) + GameTotal(games[i], e, m, intervals, movebins) as real;
      }
      i := i + 1;
    }
    assert games[..i] == games;
    ok := true;
  }

  /**
   * `np.divide(win, count, where=count > 0) * 100`: cells with a positive
   * count become percentages; without an `out=` array the other cells are
   * left uninitialised, here whatever `leftover` says.
   */
  method Normalise(win: array3<real>, count: array2<real>, leftover: (nat, nat, nat) -> real)
    requires win.Length1 == count.Length0 && win.Length2 == count.Length1
    modifies win
    ensures forall r, e, m :: 0 <= r < win.Length0 && 0 <= e < win.Length1 && 0 <= m < win.Length2 ==>
      win[r, e, m] == if count[e, m] > 0.0 then old(win[r, e, m]) / count[e, m] * 100.0 else leftover(r, e, m)
  {
    forall r, e, m | 0 <= r < win.Length0 && 0 <= e < win.Length1 && 0 <= m < win.Length2 {
      win[r, e, m] := if count[e, m] > 0.0 then win[r, e, m] / count[e, m] * 100.0 else leftover(r, e, m);
    }
  }

  /** Three counts that add up to a positive total become percentages that add up to 100. */
  lemma PercentagesSum(a: real, b: real, c: real, total: real)
    requires total > 0.0 && a + b + c == total
    ensures a / total * 100.0 + b / total * 100.0 + c / total * 100.0 == 100.0
  {
    assert a / total + b / total + c / total == (a + b + c) / total;
  }

  // ------------------------------------------------------------ smoothing

  /** A bin with more games than this is trusted. */
  const NMin: real := 100.0

  /** Three rows (win, draw, loss) of `n` columns. */
  predicate Rows3(rows: seq<seq<real>>, n: nat)
  {
    |rows| == 3 && |rows[0]| == n && |rows[1]| == n && |rows[2]| == n
  }

  function SetColumn(rows: seq<seq<real>>, k: nat, w: real, d: real, l: real): (out: seq<seq<real>>)
    requires |rows| == 3 && Rows3(rows, |rows[0]|) && k < |rows[0]|
    ensures Rows3(out, |rows[0]|)
  {
    [rows[0][k := w], rows[1][k := d], rows[2][k := l]]
  }

  /** The counts after the end bins are forced: an under-sampled first bin, then last bin, gets NMin + 1. */
  function ForceCount(count: seq<real>): (c: seq<real>)
    requires |count| > 0
    ensures |c| == |count| && c[0] > NMin && c[|c| - 1] > NMin
    ensures forall k :: 0 <= k < |c| ==> c[k] == if count[k] > NMin then count[k] else if k == 0 || k == |c| - 1 then NMin + 1.0 else count[k]
  {
    var c0 := if count[0] <= NMin then count[0 := NMin + 1.0] else count;
    if c0[|c0| - 1] <= NMin then c0[|c0| - 1 := NMin + 1.0] else c0
  }

  /**
   * The values after the end bins are forced: an under-sampled first bin
   * becomes (0, 5, 95), and then, judged on the updated counts, an
   * under-sampled last bin becomes (95, 5, 0).
   */
  function ForceEnds(rows: seq<seq<real>>, count: seq<real>): (out: seq<seq<real>>)
    requires |count| > 0 && Rows3(rows, |count|)
    ensures Rows3(out, |count|)
  {
    var n := |count|;
    var c0 := if count[0] <= NMin then count[0 := NMin + 1.0] else count;
    var r0 := if count[0] <= NMin then SetColumn(rows, 0, 0.0, 5.0, 95.0) else rows;
    if c0[n - 1] <= NMin then SetColumn(r0, n - 1, 95.0, 5.0, 0.0) else r0
  }

  /** The trusted columns among the first `n`, in increasing order: `np.where(count > nmin)`. */
  function Trusted(count: seq<real>, n: nat): (t: seq<nat>)
    requires n <= |count|
    ensures forall i :: 0 <= i < |t| ==> t[i] < n && count[t[i]] > NMin
    ensures forall i, j :: 0 <= i < j < |t| ==> t[i] < t[j]
    ensures forall k :: 0 <= k < n && count[k] > NMin ==> k in t
    ensures |t| <= n
  {
    if n == 0 then []
    else
      var t0 := Trusted(count, n - 1);
      if count[n - 1] > NMin then t0 + [n - 1] else t0
  }

  /** The x-coordinates of the columns: `[bins[0]] + bins`, so the first value appears twice. */
  function Knots(bins: seq<real>): (xs: seq<real>)
    requires |bins| > 0
    ensures |xs| == |bins| + 1 && xs[0] == bins[0] && forall k :: 1 <= k < |xs| ==> xs[k] == bins[k - 1]
  {
    [bins[0]] + bins
  }

  /** `a[idx]` for an index array. */
  function Pick(a: seq<real>, idx: seq<nat>): (out: seq<real>)
    requires forall i :: 0 <= i < |idx| ==> idx[i] < |a|
    ensures |out| == |idx| && forall i :: 0 <= i < |idx| ==> out[i] == a[idx[i]]
  {
    seq(|idx|, i requires 0 <= i < |idx| => a[idx[i]])
  }

  lemma KnotsSorted(bins: seq<real>)
    requires |bins| > 0 && Sorted(bins)
    ensures Sorted(Knots(bins))
  {
  }

  lemma PickSorted(xs: seq<real>, idx: seq<nat>)
    requires Sorted(xs)
    requires forall i :: 0 <= i < |idx| ==> idx[i] < |xs|
    requires forall i, j :: 0 <= i < j < |idx| ==> idx[i] < idx[j]
    ensures Sorted(Pick(xs, idx))
  {
  }

  /** Row `j` after interpolating every column from the trusted ones. */
  function InterpRow(row: seq<real>, t: seq<nat>, bins: seq<real>): (out: seq<real>)
    requires |bins| > 0 && Sorted(bins) && |row| == |bins| + 1 && |t| > 0
    requires forall i :: 0 <= i < |t| ==> t[i] < |row|
    requires forall i, j :: 0 <= i < j < |t| ==> t[i] < t[j]
    ensures |out| == |row|
  {
    var xs := Knots(bins);
    KnotsSorted(bins);
    PickSorted(xs, t);
    seq(|row|, k requires 0 <= k < |row| => Interp(xs[k], Pick(xs, t), Pick(row, t)))
  }

  /** `smooth_lines` on one move column: the values and the counts (which the caller sees changed, through the alias). */
  function SmoothRows(rows: seq<seq<real>>, count: seq<real>, bins: seq<real>): (out: seq<seq<real>>)
    requires |bins| > 0 && Sorted(bins) && |count| == |bins| + 1 && Rows3(rows, |count|)
    ensures Rows3(out, |count|)
  {
    var c1 := ForceCount(count);
    var r1 := ForceEnds(rows, count);
    var t := Trusted(c1, |c1|);
    // `t` always holds column 0 (see NoFallback), so the source's branch for
    // "no trusted bin" never runs and is not part of this function
    if |t| < |c1| then
      [InterpRow(r1[0], t, bins), InterpRow(r1[1], t, bins), InterpRow(r1[2], t, bins)]
    else r1
  }

  /** The forced counts and values agree: a column forced to NMin + 1 holds the forced values. */
  lemma ForceAgrees(rows: seq<seq<real>>, count: seq<real>, k: nat)
    requires |count| > 0 && Rows3(rows, |count|) && k < |count|
    ensures var out, c := ForceEnds(rows, count), ForceCount(count);
      if count[k] > NMin then out[0][k] == rows[0][k] && out[1][k] == rows[1][k] && out[2][k] == rows[2][k]
      else if k == 0 then out[0][k] == 0.0 && out[1][k] == 5.0 && out[2][k] == 95.0
      else if k == |count| - 1 then out[0][k] == 95.0 && out[1][k] == 5.0 && out[2][k] == 0.0
      else out[0][k] == rows[0][k] && out[1][k] == rows[1][k] && out[2][k] == rows[2][k]
  {
  }

  /** Both end bins always end up trusted, so the all-under-sampled fallback never runs. */
  lemma NoFallback(count: seq<real>)
    requires |count| > 0
    ensures |Trusted(ForceCount(count), |count|)| > 0
  {
    assert 0 in Trusted(ForceCount(count), |count|);
  }

  /**
   * Smoothing keeps every column summing to 100 when every trusted column
   * did: forced columns do, and interpolation between columns that sum to
   * 100 gives columns that sum to 100.
   */
  lemma SmoothSums(rows: seq<seq<real>>, count: seq<real>, bins: seq<real>)
    requires |bins| > 0 && Sorted(bins) && |count| == |bins| + 1 && Rows3(rows, |count|)
    requires forall k :: 0 <= k < |count| && count[k] > NMin ==> rows[0][k] + rows[1][k] + rows[2][k] == 100.0
    ensures var out := SmoothRows(rows, count, bins);
      forall k :: 0 <= k < |count| ==> out[0][k] + out[1][k] + out[2][k] == 100.0
  {
    var c1 := ForceCount(count);
    var r1 := ForceEnds(rows, count);
    var t := Trusted(c1, |c1|);
    NoFallback(count);
    forall k | 0 <= k < |count| && c1[k] > NMin
      ensures r1[0][k] + r1[1][k] + r1[2][k] == 100.0
    {
      ForceAgrees(rows, count, k);
    }
    if |t| < |c1| {
      var xs := Knots(bins);
      KnotsSorted(bins);
      PickSorted(xs, t);
      forall k | 0 <= k < |count|
        ensures SmoothRows(rows, count, bins)[0][k] + SmoothRows(rows, count, bins)[1][k]
          + SmoothRows(rows, count, bins)[2][k] == 100.0
      {
        InterpSum(xs[k], Pick(xs, t), Pick(r1[0], t), Pick(r1[1], t), Pick(r1[2], t), 100.0);
      }
    } else {
      forall k | 0 <= k < |count| ensures c1[k] > NMin {
        TrustedFull(c1, t, k);
      }
    }
  }

  /** When every column is listed as trusted, each one is. */
  lemma TrustedFull(c: seq<real>, t: seq<nat>, k: nat)
    requires t == Trusted(c, |c|) && |t| >= |c| && k < |c|
    ensures c[k] > NMin
  {
    TrustedCount(c, |c|);
  }

  /** The trusted list is as long as the number of columns only when all of them are trusted. */
  lemma {:induction false} TrustedCount(c: seq<real>, n: nat)
    requires n <= |c|
    ensures |Trusted(c, n)| == n ==> forall k :: 0 <= k < n ==> c[k] > NMin
  {
    if n > 0 {
      TrustedCount(c, n - 1);
    }
  }

  /** Values that agree on the trusted columns still agree there after the ends are forced. */
  lemma ForceEndsAgree(rows: seq<seq<real>>, other: seq<seq<real>>, count: seq<real>)
    requires |count| > 0 && Rows3(rows, |count|) && Rows3(other, |count|)
    requires forall j, k :: 0 <= j < 3 && 0 <= k < |count| && count[k] > NMin ==> rows[j][k] == other[j][k]
    ensures var c1, r1, o1 := ForceCount(count), ForceEnds(rows, count), ForceEnds(other, count);
      forall j, k :: 0 <= j < 3 && 0 <= k < |count| && c1[k] > NMin ==> r1[j][k] == o1[j][k]
  {
    var c1, r1, o1 := ForceCount(count), ForceEnds(rows, count), ForceEnds(other, count);
    forall k | 0 <= k < |count| && c1[k] > NMin
      ensures r1[0][k] == o1[0][k] && r1[1][k] == o1[1][k] && r1[2][k] == o1[2][k]
    {
      ForceAgrees(rows, count, k);
      ForceAgrees(other, count, k);
    }
  }

  /** Three rows of equal width that agree cell by cell are equal. */
  lemma Rows3Equal(a: seq<seq<real>>, b: seq<seq<real>>, n: nat)
    requires Rows3(a, n) && Rows3(b, n)
    requires forall j, k :: 0 <= j < 3 && 0 <= k < n ==> a[j][k] == b[j][k]
    ensures a == b
  {
    assert a[0] == b[0] && a[1] == b[1] && a[2] == b[2];
  }

  /** Rows that agree on every trusted column, when every column is trusted, are equal. */
  lemma AgreeEverywhere(a: seq<seq<real>>, b: seq<seq<real>>, c: seq<real>)
    requires Rows3(a, |c|) && Rows3(b, |c|) && forall k :: 0 <= k < |c| ==> c[k] > NMin
    requires forall j, k :: 0 <= j < 3 && 0 <= k < |c| && c[k] > NMin ==> a[j][k] == b[j][k]
    ensures a == b
  {
    forall j, k | 0 <= j < 3 && 0 <= k < |c| ensures a[j][k] == b[j][k] {
      assert c[k] > NMin;
    }
    Rows3Equal(a, b, |c|);
  }

  /** When the trusted list covers every column, each forced count is trusted. */
  lemma AllTrusted(count: seq<real>)
    requires |count| > 0 && |Trusted(ForceCount(count), |count|)| >= |count|
    ensures forall k :: 0 <= k < |count| ==> ForceCount(count)[k] > NMin
  {
    var c1 := ForceCount(count);
    forall k | 0 <= k < |count| ensures c1[k] > NMin {
      TrustedFull(c1, Trusted(c1, |c1|), k);
    }
  }

  /** When every column is trusted after forcing, values that agree on the trusted columns are forced alike. */
  lemma AllTrustedAgree(rows: seq<seq<real>>, other: seq<seq<real>>, count: seq<real>)
    requires |count| > 0 && Rows3(rows, |count|) && Rows3(other, |count|)
    requires forall j, k :: 0 <= j < 3 && 0 <= k < |count| && count[k] > NMin ==> rows[j][k] == other[j][k]
    requires forall k :: 0 <= k < |count| ==> ForceCount(count)[k] > NMin
    ensures ForceEnds(rows, count) == ForceEnds(other, count)
  {
    ForceEndsAgree(rows, other, count);
    AgreeEverywhere(ForceEnds(rows, count), ForceEnds(other, count), ForceCount(count));
  }

  /**
   * The repaired values do not depend on what the under-sampled columns
   * held: values that agree on the trusted columns smooth to the same
   * output (so the uninitialised cells left by the normalisation never show).
   */
  lemma SmoothIgnoresUntrusted(rows: seq<seq<real>>, other: seq<seq<real>>, count: seq<real>, bins: seq<real>)
    requires |bins| > 0 && Sorted(bins) && |count| == |bins| + 1 && Rows3(rows, |count|) && Rows3(other, |count|)
    requires forall j, k :: 0 <= j < 3 && 0 <= k < |count| && count[k] > NMin ==> rows[j][k] == other[j][k]
    ensures SmoothRows(rows, count, bins) == SmoothRows(other, count, bins)
  {
    var c1 := ForceCount(count);
    var r1, o1 := ForceEnds(rows, count), ForceEnds(other, count);
    var t := Trusted(c1, |c1|);
    if |t| < |c1| {
      ForceEndsAgree(rows, other, count);
      assert Pick(r1[0], t) == Pick(o1[0], t);
      assert Pick(r1[1], t) == Pick(o1[1], t);
      assert Pick(r1[2], t) == Pick(o1[2], t);
    } else {
      AllTrusted(count);
      AllTrustedAgree(rows, other, count);
    }
  }

  // ------------------------------------------------------------ the tables

  /** The values of move column `m`: rows win, draw, loss over the evaluation bins. */
  function Slice(win: array3<real>, m: nat): (rows: seq<seq<real>>)
    requires win.Length0 == 3 && m < win.Length2
    reads win
    ensures Rows3(rows, win.Length1)
    ensures forall j, e :: 0 <= j < 3 && 0 <= e < win.Length1 ==> rows[j][e] == win[j, e, m]
  {
    [seq(win.Length1, e requires 0 <= e < win.Length1 reads win => win[0, e, m]),
     seq(win.Length1, e requires 0 <= e < win.Length1 reads win => win[1, e, m]),
     seq(win.Length1, e requires 0 <= e < win.Length1 reads win => win[2, e, m])]
  }

  /** The counts of move column `m`. */
  function Column(count: array2<real>, m: nat): (c: seq<real>)
    requires m < count.Length1
    reads count
    ensures |c| == count.Length0 && forall e :: 0 <= e < count.Length0 ==> c[e] == count[e, m]
  {
    seq(count.Length0, e requires 0 <= e < count.Length0 reads count => count[e, m])
  }

  /** Value `v` of row `j` in column `e` of `n` after forcing, given the column's count before. */
  function ForcedValue(v: real, j: nat, e: nat, n: nat, c: real): real
    requires j < 3
  {
    if c > NMin then v
    else if e == 0 then [0.0, 5.0, 95.0][j]
    else if e == n - 1 then [95.0, 5.0, 0.0][j]
    else v
  }

  /** A column's count after forcing, given its count before. */
  function ForcedCount(c: real, e: nat, n: nat): real
  {
    if c > NMin then c else if e == 0 || e == n - 1 then NMin + 1.0 else c
  }

  /** Cell by cell, the forced rows and counts are what `ForceEnds` and `ForceCount` give. */
  lemma ForcedCells(rows0: seq<seq<real>>, c0: seq<real>, rows: seq<seq<real>>, c: seq<real>)
    requires |c0| > 0 && |c| == |c0| && Rows3(rows0, |c0|) && Rows3(rows, |c0|)
    requires forall e :: 0 <= e < |c0| ==> c[e] == ForcedCount(c0[e], e, |c0|)
    requires forall j, e :: 0 <= j < 3 && 0 <= e < |c0| ==> rows[j][e] == ForcedValue(rows0[j][e], j, e, |c0|, c0[e])
    ensures rows == ForceEnds(rows0, c0) && c == ForceCount(c0)
  {
    forall k | 0 <= k < |c0| ensures rows[0][k] == ForceEnds(rows0, c0)[0][k] && rows[1][k] == ForceEnds(rows0, c0)[1][k]
      && rows[2][k] == ForceEnds(rows0, c0)[2][k]
    {
      ForceAgrees(rows0, c0, k);
      assert rows[0][k] == ForcedValue(rows0[0][k], 0, k, |c0|, c0[k]);
      assert rows[1][k] == ForcedValue(rows0[1][k], 1, k, |c0|, c0[k]);
      assert rows[2][k] == ForcedValue(rows0[2][k], 2, k, |c0|, c0[k]);
    }
    Rows3Equal(rows, ForceEnds(rows0, c0), |c0|);
  }

  /** The first half of `smooth_lines` on move column `m`: the end bins are forced, in the counts too. */
  method ForceSlice(win: array3<real>, count: array2<real>, m: nat)
    requires win.Length0 == 3 && win.Length1 > 0 && count.Length0 == win.Length1 && m < win.Length2 && m < count.Length1
    modifies win, count
    ensures forall j, e :: 0 <= j < 3 && 0 <= e < win.Length1 ==>
      win[j, e, m] == ForcedValue(old(win[j, e, m]), j, e, win.Length1, old(count[e, m]))
    ensures forall e :: 0 <= e < count.Length0 ==> count[e, m] == ForcedCount(old(count[e, m]), e, count.Length0)
    ensures forall j, e, m' :: 0 <= j < 3 && 0 <= e < win.Length1 && 0 <= m' < win.Length2 && m' != m ==>
      win[j, e, m'] == old(win[j, e, m'])
    ensures forall e, m' :: 0 <= e < count.Length0 && 0 <= m' < count.Length1 && m' != m ==>
      count[e, m'] == old(count[e, m'])
  {
    var n := count.Length0;
    if count[0, m] <= NMin {
      count[0, m] := NMin + 1.0;
      win[0, 0, m], win[1, 0, m], win[2, 0, m] := 0.0, 5.0, 95.0;
    }
    if count[n - 1, m] <= NMin {
      count[n - 1, m] := NMin + 1.0;
      win[0, n - 1, m], win[1, n - 1, m], win[2, n - 1, m] := 95.0, 5.0, 0.0;
    }
  }

  /**
   * `smooth_lines(winchance_array[:, :, m], count_games[:, m], bins)`: both
   * arguments are views, so the forcing and the interpolation change move
   * column `m` of the caller's tensors and nothing else.
   */
  method SmoothSlice(win: array3<real>, count: array2<real>, m: nat, bins: seq<real>)
    requires win.Length0 == 3 && |bins| > 0 && Sorted(bins) && win.Length1 == |bins| + 1
    requires count.Length0 == win.Length1 && m < win.Length2 && m < count.Length1
    modifies win, count
    ensures Slice(win, m) == SmoothRows(old(Slice(win, m)), old(Column(count, m)), bins)
    ensures Column(count, m) == ForceCount(old(Column(count, m)))
    ensures forall j, e, m' :: 0 <= j < 3 && 0 <= e < win.Length1 && 0 <= m' < win.Length2 && m' != m ==>
      win[j, e, m'] == old(win[j, e, m'])
    ensures forall e, m' :: 0 <= e < count.Length0 && 0 <= m' < count.Length1 && m' != m ==>
      count[e, m'] == old(count[e, m'])
  {
    ghost var rows0, c0 := Slice(win, m), Column(count, m);
    ForceSlice(win, count, m);
    var n := count.Length0;
    var c := Column(count, m);
    var r := Slice(win, m);
    ForcedCells(rows0, c0, r, c);
    var t := Trusted(c, n);
    NoFallback(c0);
    if |t| < n {
      var out := [InterpRow(r[0], t, bins), InterpRow(r[1], t, bins), InterpRow(r[2], t, bins)];
      SetSlice(win, m, out);
      Rows3Equal(Slice(win, m), out, n);
    }
  }

  /** `winchance_array[j, :] = ...` for the three rows of move column `m`. */
  method SetSlice(win: array3<real>, m: nat, rows: seq<seq<real>>)
    requires win.Length0 == 3 && m < win.Length2 && Rows3(rows, win.Length1)
    modifies win
    ensures forall j, e :: 0 <= j < 3 && 0 <= e < win.Length1 ==> win[j, e, m] == rows[j][e]
    ensures forall j, e, m' :: 0 <= j < 3 && 0 <= e < win.Length1 && 0 <= m' < win.Length2 && m' != m ==>
      win[j, e, m'] == old(win[j, e, m'])
  {
    forall j, e | 0 <= j < 3 && 0 <= e < win.Length1 {
      win[j, e, m] := rows[j][e];
    }
  }

  /** One written table, column by column: Interval, WinningChance, DrawingChance, LosingChance, TotalGames. */
  datatype Table = Table(interval: seq<string>, winning: seq<real>, drawing: seq<real>, losing: seq<real>,
                         totalGames: seq<real>)

  /** A table and the file it is saved to. */
  datatype Written = Written(file: string, table: Table)

  /** How many tables are written: one for 'all', otherwise one per bin start (the extra last move column is never written). */
  function TableCount(movebins: Option<seq<nat>>): (n: nat)
    ensures n == |TableFiles("", movebins)|
    ensures n <= MoveColumns(movebins)
  {
    match movebins
    case None => 1
    case Some(mb) => |mb|
  }

  /** The bins after `np.round(intervals, decimals=2)`. */
  function Rounded(intervals: seq<real>, round2: real -> real): (r: seq<real>)
    ensures |r| == |intervals| && forall k :: 0 <= k < |r| ==> r[k] == round2(intervals[k])
  {
    seq(|intervals|, k requires 0 <= k < |intervals| => round2(intervals[k]))
  }

  /** A normalised cell: the percentage of the cell's plies with outcome row `r`, or the uninitialised value. */
  function Percent(games: seq<Option<TableGame>>, r: nat, e: nat, m: nat, intervals: seq<real>,
                   movebins: Option<seq<nat>>, leftover: (nat, nat, nat) -> real): real
    requires forall k :: 0 <= k < |games| ==> !Raises(games[k])
  {
    var total := Total(games, e, m, intervals, movebins) as real;
    if total > 0.0 then Hits(games, r, e, m, intervals, movebins) as real / total * 100.0 else leftover(r, e, m)
  }

  /** Move column `m` after normalisation. */
  function PercentRows(games: seq<Option<TableGame>>, m: nat, intervals: seq<real>, movebins: Option<seq<nat>>,
                       leftover: (nat, nat, nat) -> real): (rows: seq<seq<real>>)
    requires forall k :: 0 <= k < |games| ==> !Raises(games[k])
    ensures Rows3(rows, |intervals| + 1)
    ensures forall j, e :: 0 <= j < 3 && 0 <= e <= |intervals| ==>
      rows[j][e] == Percent(games, j, e, m, intervals, movebins, leftover)
  {
    var n := |intervals| + 1;
    [seq(n, e requires 0 <= e < n => Percent(games, 0, e, m, intervals, movebins, leftover)),
     seq(n, e requires 0 <= e < n => Percent(games, 1, e, m, intervals, movebins, leftover)),
     seq(n, e requires 0 <= e < n => Percent(games, 2, e, m, intervals, movebins, leftover))]
  }

  /** The counts of move column `m`. */
  function Totals(games: seq<Option<TableGame>>, m: nat, intervals: seq<real>, movebins: Option<seq<nat>>): (c: seq<real>)
    requires forall k :: 0 <= k < |games| ==> !Raises(games[k])
    ensures |c| == |intervals| + 1
    ensures forall e :: 0 <= e <= |intervals| ==> c[e] == Total(games, e, m, intervals, movebins) as real
  {
    seq(|intervals| + 1, e requires 0 <= e <= |intervals| => Total(games, e, m, intervals, movebins) as real)
  }

  /** The table of one move column's values and counts: smoothed (with the forced counts under TotalGames) or as they are. */
  function ColumnTable(rows: seq<seq<real>>, c: seq<real>, bins: seq<real>, smooth: bool, labels: seq<string>): Table
    requires |c| == |bins| + 1 && Rows3(rows, |c|) && Sorted(bins) && (smooth ==> |bins| > 0)
  {
    if smooth then
      var s := SmoothRows(rows, c, bins);
      Table(labels, s[0], s[1], s[2], ForceCount(c))
    else Table(labels, rows[0], rows[1], rows[2], c)
  }

  /** The table of move column `m` of the counted games. */
  function OutTable(games: seq<Option<TableGame>>, m: nat, intervals: seq<real>, movebins: Option<seq<nat>>,
                    smooth: bool, show: real -> string, leftover: (nat, nat, nat) -> real): Table
    requires forall k :: 0 <= k < |games| ==> !Raises(games[k])
    requires Sorted(intervals) && (smooth ==> |intervals| > 0)
  {
    ColumnTable(PercentRows(games, m, intervals, movebins, leftover), Totals(games, m, intervals, movebins),
                intervals, smooth, Labels(intervals, show))
  }

  /** The tables in move-bin order, each with the file it is saved to. */
  function Tabulated(games: seq<Option<TableGame>>, intervals: seq<real>, movebins: Option<seq<nat>>,
                     outdir: string, smooth: bool, show: real -> string,
                     leftover: (nat, nat, nat) -> real): (ws: seq<Written>)
    requires forall k :: 0 <= k < |games| ==> !Raises(games[k])
    requires Sorted(intervals) && (smooth && TableCount(movebins) > 0 ==> |intervals| > 0)
    ensures |ws| == TableCount(movebins)
    ensures forall i :: 0 <= i < |ws| ==> ws[i].file == TableFiles(outdir, movebins)[i]
  {
    seq(TableCount(movebins), i requires 0 <= i < TableCount(movebins) =>
      Written(TableFiles(outdir, movebins)[i], OutTable(games, i, intervals, movebins, smooth, show, leftover)))
  }

  /**
   * What `compute_winning_chance_table` returns (and saves): an error when a
   * game makes the counting raise, or when smoothing is asked for with no
   * interval edges (`bins[0]` raises IndexError) and some table is due.
   */
  function WinningChanceTables(games: seq<Option<TableGame>>, intervals: seq<real>, movebins: Option<seq<nat>>,
                               outdir: string, smooth: bool, show: real -> string,
                               leftover: (nat, nat, nat) -> real): (r: Result<seq<Written>>)
    requires Sorted(intervals)
    ensures r.Ok? ==> |r.value| == TableCount(movebins)
  {
    if exists k :: 0 <= k < |games| && Raises(games[k]) then Err("counting raises")
    else if smooth && intervals == [] && TableCount(movebins) > 0 then Err("IndexError")
    else Ok(Tabulated(games, intervals, movebins, outdir, smooth, show, leftover))
  }

  /** The counting loops followed by the normalisation: every cell holds its percentage, or the uninitialised value. */
  method CountAndNormalise(games: seq<Option<TableGame>>, bins: seq<real>, movebins: Option<seq<nat>>,
                           leftover: (nat, nat, nat) -> real)
    returns (ok: bool, win: array3<real>, count: array2<real>)
    ensures fresh(win) && fresh(count) && Shaped(win, count, bins, movebins)
    ensures ok <==> forall k :: 0 <= k < |games| ==> !Raises(games[k])
    ensures ok ==> forall j, e, m :: 0 <= j < 3 && 0 <= e < win.Length1 && 0 <= m < win.Length2 ==>
      win[j, e, m] == Percent(games, j, e, m, bins, movebins, leftover)
    ensures ok ==> forall e, m :: 0 <= e < count.Length0 && 0 <= m < count.Length1 ==>
      count[e, m] == Total(games, e, m, bins, movebins) as real
  {
    ok, win, count := Tally(games, bins, movebins);
    if ok {
      label counted:
      Normalise(win, count, leftover);
      forall j, e, m | 0 <= j < 3 && 0 <= e < win.Length1 && 0 <= m < win.Length2
        ensures win[j, e, m] == Percent(games, j, e, m, bins, movebins, leftover)
      {
        assert old@counted(win[j, e, m]) == Hits(games, j, e, m, bins, movebins) as real;
      }
    }
  }

  /** Every move column of the tensors, as values. */
  function Columns(win: array3<real>, count: array2<real>): (cols: seq<(seq<seq<real>>, seq<real>)>)
    requires win.Length0 == 3 && win.Length2 == count.Length1
    reads win, count
    ensures |cols| == win.Length2
    ensures forall m :: 0 <= m < |cols| ==> cols[m] == (Slice(win, m), Column(count, m))
  {
    seq(win.Length2, m requires 0 <= m < win.Length2 reads win, count => (Slice(win, m), Column(count, m)))
  }

  /** The tables the output loop writes from the given move columns. */
  function TablesOf(cols: seq<(seq<seq<real>>, seq<real>)>, bins: seq<real>, files: seq<string>, smooth: bool,
                    labels: seq<string>): (ws: seq<Written>)
    requires |files| <= |cols| && Sorted(bins) && (smooth && |files| > 0 ==> |bins| > 0)
    requires forall m :: 0 <= m < |cols| ==> |cols[m].1| == |bins| + 1 && Rows3(cols[m].0, |bins| + 1)
    ensures |ws| == |files|
  {
    seq(|files|, i requires 0 <= i < |files| => Written(files[i], ColumnTable(cols[i].0, cols[i].1, bins, smooth, labels)))
  }

  /** One pass of the output loop: smooth move column `m` when asked to, and read its table off the tensors. */
  method EmitTable(win: array3<real>, count: array2<real>, m: nat, bins: seq<real>, smooth: bool,
                   labels: seq<string>, file: string)
    returns (w: Written)
    requires win.Length0 == 3 && Sorted(bins) && (smooth ==> |bins| > 0)
    requires win.Length1 == |bins| + 1 && count.Length0 == win.Length1 && m < win.Length2 && m < count.Length1
    modifies win, count
    ensures w == Written(file, ColumnTable(old(Slice(win, m)), old(Column(count, m)), bins, smooth, labels))
    ensures forall j, e, m' :: 0 <= j < 3 && 0 <= e < win.Length1 && 0 <= m' < win.Length2 && m' != m ==>
      win[j, e, m'] == old(win[j, e, m'])
    ensures forall e, m' :: 0 <= e < count.Length0 && 0 <= m' < count.Length1 && m' != m ==>
      count[e, m'] == old(count[e, m'])
  {
    if smooth {
      SmoothSlice(win, count, m, bins);
    }
    var rows := Slice(win, m);
    w := Written(file, Table(labels, rows[0], rows[1], rows[2], Column(count, m)));
  }

  /** The output loop over the move bins. */
  method EmitTables(win: array3<real>, count: array2<real>, bins: seq<real>, files: seq<string>, smooth: bool,
                    labels: seq<string>)
    returns (out: seq<Written>)
    requires win.Length0 == 3 && Sorted(bins) && (smooth && |files| > 0 ==> |bins| > 0)
    requires win.Length1 == |bins| + 1 && count.Length0 == win.Length1 && win.Length2 == count.Length1
    requires |files| <= win.Length2
    modifies win, count
    ensures out == TablesOf(old(Columns(win, count)), bins, files, smooth, labels)
  {
    ghost var cols := Columns(win, count);
    ghost var tables := TablesOf(cols, bins, files, smooth, labels);
    out := [];
    for i := 0 to |files|
      invariant out == tables[..i]
      invariant forall j, e, m :: 0 <= j < 3 && 0 <= e < win.Length1 && i <= m < win.Length2 ==>
        win[j, e, m] == old(win[j, e, m])
      invariant forall e, m :: 0 <= e < count.Length0 && i <= m < count.Length1 ==> count[e, m] == old(count[e, m])
    {
      Rows3Equal(Slice(win, i), cols[i].0, win.Length1);
      assert Column(count, i) == cols[i].1;
      var w := EmitTable(win, count, i, bins, smooth, labels, files[i]);
      assert tables[..i + 1] == tables[..i] + [w];
      out := out + [w];
    }
    assert out == tables;
  }

  /** The tables read off freshly normalised tensors are the specified ones. */
  lemma TablesOfCounted(win: array3<real>, count: array2<real>, games: seq<Option<TableGame>>, bins: seq<real>,
                        movebins: Option<seq<nat>>, outdir: string, smooth: bool, show: real -> string,
                        leftover: (nat, nat, nat) -> real)
    requires forall k :: 0 <= k < |games| ==> !Raises(games[k])
    requires Sorted(bins) && (smooth && TableCount(movebins) > 0 ==> |bins| > 0)
    requires Shaped(win, count, bins, movebins)
    requires forall j, e, m :: 0 <= j < 3 && 0 <= e < win.Length1 && 0 <= m < win.Length2 ==>
      win[j, e, m] == Percent(games, j, e, m, bins, movebins, leftover)
    requires forall e, m :: 0 <= e < count.Length0 && 0 <= m < count.Length1 ==>
      count[e, m] == Total(games, e, m, bins, movebins) as real
    ensures TablesOf(Columns(win, count), bins, TableFiles(outdir, movebins), smooth, Labels(bins, show))
      == Tabulated(games, bins, movebins, outdir, smooth, show, leftover)
  {
    var files := TableFiles(outdir, movebins);
    var out := TablesOf(Columns(win, count), bins, files, smooth, Labels(bins, show));
    var spec := Tabulated(games, bins, movebins, outdir, smooth, show, leftover);
    forall m | 0 <= m < |files| ensures out[m] == spec[m] {
      ColumnCounted(win, count, games, bins, movebins, leftover, m);
    }
  }

  /** Move column `m` of freshly normalised tensors holds the specified percentages and totals. */
  lemma ColumnCounted(win: array3<real>, count: array2<real>, games: seq<Option<TableGame>>, bins: seq<real>,
                      movebins: Option<seq<nat>>, leftover: (nat, nat, nat) -> real, m: nat)
    requires forall k :: 0 <= k < |games| ==> !Raises(games[k])
    requires Shaped(win, count, bins, movebins) && m < win.Length2
    requires forall j, e, n :: 0 <= j < 3 && 0 <= e < win.Length1 && 0 <= n < win.Length2 ==>
      win[j, e, n] == Percent(games, j, e, n, bins, movebins, leftover)
    requires forall e, n :: 0 <= e < count.Length0 && 0 <= n < count.Length1 ==>
      count[e, n] == Total(games, e, n, bins, movebins) as real
    ensures Slice(win, m) == PercentRows(games, m, bins, movebins, leftover)
    ensures Column(count, m) == Totals(games, m, bins, movebins)
  {
    Rows3Equal(Slice(win, m), PercentRows(games, m, bins, movebins, leftover), |bins| + 1);
  }

  /** `compute_winning_chance_table`: count, normalise, label, then smooth and save one table per move bin. */
  method ComputeWinningChanceTable(games: seq<Option<TableGame>>, intervals: seq<real>, round2: real -> real,
                                   movebins: Option<seq<nat>>, outdir: string, smooth: bool,
                                   show: real -> string, leftover: (nat, nat, nat) -> real)
    returns (r: Result<seq<Written>>)
    requires Sorted(Rounded(intervals, round2))
    ensures r == WinningChanceTables(games, Rounded(intervals, round2), movebins, outdir, smooth, show, leftover)
  {
    var bins := Rounded(intervals, round2);
    var ok, win, count := CountAndNormalise(games, bins, movebins, leftover);
    if !ok {
      return Err("counting raises");
    }
    var labels := BuildLabels(bins, show);
    if smooth && bins == [] && TableCount(movebins) > 0 {
      return Err("IndexError");
    }
    TablesOfCounted(win, count, games, bins, movebins, outdir, smooth, show, leftover);
    var out := EmitTables(win, count, bins, TableFiles(outdir, movebins), smooth, labels);
    return Ok(out);
  }

  // ------------------------------------------------------------ what the tables promise

  /** A cell with a positive count holds percentages that add up to 100. */
  lemma PercentSums(games: seq<Option<TableGame>>, e: nat, m: nat, intervals: seq<real>, movebins: Option<seq<nat>>,
                    leftover: (nat, nat, nat) -> real)
    requires forall k :: 0 <= k < |games| ==> !Raises(games[k])
    requires Total(games, e, m, intervals, movebins) > 0
    ensures Percent(games, 0, e, m, intervals, movebins, leftover) + Percent(games, 1, e, m, intervals, movebins, leftover)
      + Percent(games, 2, e, m, intervals, movebins, leftover) == 100.0
  {
    HitsSum(games, e, m, intervals, movebins);
    PercentagesSum(Hits(games, 0, e, m, intervals, movebins) as real, Hits(games, 1, e, m, intervals, movebins) as real,
                   Hits(games, 2, e, m, intervals, movebins) as real, Total(games, e, m, intervals, movebins) as real);
  }

  /** The column table promises: its widths, its TotalGames column, and rows adding up to 100. */
  lemma ColumnTableRows(rows: seq<seq<real>>, c: seq<real>, bins: seq<real>, smooth: bool, labels: seq<string>, e: nat)
    requires |c| == |bins| + 1 && Rows3(rows, |c|) && Sorted(bins) && (smooth ==> |bins| > 0) && e < |c|
    requires forall k :: 0 <= k < |c| && c[k] > 0.0 ==> rows[0][k] + rows[1][k] + rows[2][k] == 100.0
    ensures var t := ColumnTable(rows, c, bins, smooth, labels);
      t.interval == labels
      && |t.winning| == |t.drawing| == |t.losing| == |t.totalGames| == |c|
      && t.totalGames[e] == (if smooth then ForcedCount(c[e], e, |c|) else c[e])
      && (smooth || c[e] > 0.0 ==> t.winning[e] + t.drawing[e] + t.losing[e] == 100.0)
  {
    if smooth {
      SmoothSums(rows, c, bins);
    }
  }

  /**
   * Every table has one row per interval label; its TotalGames column is the
   * count of the bin, except that smoothing shows NMin + 1 at under-sampled
   * end bins; and its three chances add up to 100 in every row when it is
   * smoothed, and in every row with games when it is not.
   */
  lemma TableRows(games: seq<Option<TableGame>>, intervals: seq<real>, movebins: Option<seq<nat>>, outdir: string,
                  smooth: bool, show: real -> string, leftover: (nat, nat, nat) -> real, i: nat, e: nat)
    requires Sorted(intervals)
    requires WinningChanceTables(games, intervals, movebins, outdir, smooth, show, leftover).Ok?
    requires i < TableCount(movebins) && e <= |intervals|
    ensures var w := WinningChanceTables(games, intervals, movebins, outdir, smooth, show, leftover).value[i];
      var t := w.table;
      var n := Total(games, e, i, intervals, movebins) as real;
      w.file == TableFiles(outdir, movebins)[i]
      && t.interval == Labels(intervals, show)
      && |t.winning| == |t.drawing| == |t.losing| == |t.totalGames| == |intervals| + 1
      && t.totalGames[e] == (if smooth then ForcedCount(n, e, |intervals| + 1) else n)
      && (smooth || n > 0.0 ==> t.winning[e] + t.drawing[e] + t.losing[e] == 100.0)
  {
    var rows, c := PercentRows(games, i, intervals, movebins, leftover), Totals(games, i, intervals, movebins);
    forall k | 0 <= k < |c| && c[k] > 0.0 ensures rows[0][k] + rows[1][k] + rows[2][k] == 100.0 {
      PercentSums(games, k, i, intervals, movebins, leftover);
    }
    assert WinningChanceTables(games, intervals, movebins, outdir, smooth, show, leftover).value[i].table
      == ColumnTable(rows, c, intervals, smooth, Labels(intervals, show));
    ColumnTableRows(rows, c, intervals, smooth, Labels(intervals, show), e);
  }

  // ------------------------------------------------------------ win-chance changes

  /** What `read_winning_tables` hands to `WinChanceIncrease`, with the move-count window: one row per move bin. */
  datatype ChanceTables = ChanceTables(mvMin: int, mvMax: int, binsMoves: seq<nat>, binsEval: seq<real>,
                                       winchances: seq<seq<real>>, losechances: seq<seq<real>>)

  /** Python's `s[i]`: a negative index counts from the end, anything else outside raises IndexError. */
  function PyIndex<T>(s: seq<T>, i: int): (r: Result<T>)
    ensures r.Ok? <==> -|s| <= i < |s|
    ensures 0 <= i < |s| ==> r == Ok(s[i])
    ensures -|s| <= i < 0 ==> r == Ok(s[|s| + i])
  {
    if 0 <= i < |s| then Ok(s[i]) else if -|s| <= i < 0 then Ok(s[|s| + i]) else Err("IndexError")
  }

  /** `table[row, col]`. */
  function Cell(table: seq<seq<real>>, row: int, col: int): Result<real>
  {
    match PyIndex(table, row)
    case Err(e) => Err(e)
    case Ok(r) => PyIndex(r, col)
  }

  /** The table row of ply `i`: 0 with a single table, otherwise `digitize(i, bins_moves) - 1` (-1 is the last row). */
  function MoveRow(t: ChanceTables, i: nat): (row: int)
    ensures -1 <= row
  {
    if |t.winchances| == 1 then 0 else StartsUpTo(i, t.binsMoves) - 1
  }

  /** The win and loss chances looked up for the evaluation after ply `i`. */
  function ChanceAt(t: ChanceTables, evaluations: seq<Option<real>>, i: nat): Result<(real, real)>
  {
    if i >= |evaluations| then Err("IndexError")
    else
      var col := DigitizeRight(evaluations[i], t.binsEval);
      var row := MoveRow(t, i);
      match Cell(t.winchances, row, col)
      case Err(e) => Err(e)
      case Ok(w) =>
        match Cell(t.losechances, row, col)
        case Err(e) => Err(e)
        case Ok(l) => Ok((w, l))
  }

  /** The chances of the first `n` plies, or the error of the first lookup that raises. */
  function Chances(t: ChanceTables, evaluations: seq<Option<real>>, n: nat): (r: Result<seq<(real, real)>>)
    ensures r.Ok? ==> |r.value| == n
  {
    if n == 0 then Ok([])
    else
      match Chances(t, evaluations, n - 1)
      case Err(e) => Err(e)
      case Ok(init) =>
        match ChanceAt(t, evaluations, n - 1)
        case Err(e) => Err(e)
        case Ok(c) => Ok(init + [c])
  }

  /** The chances of `n` plies are found exactly when every ply's lookup succeeds, and then they are those lookups. */
  lemma {:induction false} ChancesLookups(t: ChanceTables, evaluations: seq<Option<real>>, n: nat)
    ensures Chances(t, evaluations, n).Ok? <==> forall i :: 0 <= i < n ==> ChanceAt(t, evaluations, i).Ok?
    ensures Chances(t, evaluations, n).Ok? ==>
      forall i :: 0 <= i < n ==> Chances(t, evaluations, n).value[i] == ChanceAt(t, evaluations, i).value
  {
    if n > 0 {
      ChancesLookups(t, evaluations, n - 1);
    }
  }

  /** Once a lookup raises, the loop over any longer game raises the same error. */
  lemma {:induction false} ChancesStop(t: ChanceTables, evaluations: seq<Option<real>>, i: nat, n: nat)
    requires i < n && Chances(t, evaluations, i).Ok? && ChanceAt(t, evaluations, i).Err?
    ensures Chances(t, evaluations, n) == Err(ChanceAt(t, evaluations, i).error)
  {
    if n > i + 1 {
      ChancesStop(t, evaluations, i, n - 1);
    }
  }

  /** An output key: `side + '_' + kind + '_' + str(k)`. */
  function Key(side: string, kind: string, k: nat): string
  {
    side + "_" + kind + "_" + NatToString(k)
  }

  /** The WCL and LCL keys of a move differ. */
  lemma KindsDiffer(side: string, k: nat)
    ensures Key(side, "WCL", k) != Key(side, "LCL", k)
  {
    assert Key(side, "WCL", k)[|side| + 1] == 'W';
    assert Key(side, "LCL", k)[|side| + 1] == 'L';
  }

  /** The player who made ply `i`. */
  function Mover(i: nat): string
  {
    if i % 2 == 0 then "White" else "Black"
  }

  /** The dictionary after the loop has handled plies 1 .. n-1: each puts the signed changes under its mover's move number. */
  function Deltas(ch: seq<(real, real)>, n: nat): map<string, real>
    requires n <= 1 || n <= |ch|
  {
    if n <= 1 then map[Key("White", "WCL", 0) := 0.0, Key("White", "LCL", 0) := 0.0]
    else
      var i := n - 1;
      Deltas(ch, i)[Key(Mover(i), "WCL", i / 2) := ch[i].0 - ch[i - 1].0][Key(Mover(i), "LCL", i / 2) := ch[i].1 - ch[i - 1].1]
  }

  /** What `WinChanceIncrease` returns: None outside the move window, otherwise the changes, unless a lookup raises. */
  function Increase(t: ChanceTables, moves: nat, evaluations: seq<Option<real>>): Result<Option<map<string, real>>>
  {
    if moves < t.mvMin || moves >= t.mvMax then Ok(None)
    else
      match Chances(t, evaluations, moves)
      case Err(e) => Err(e)
      case Ok(ch) => Ok(Some(Deltas(ch, moves)))
  }

  /** The lookup loop: `failure` is the error of the first ply whose lookup raises. */
  method LookUpChances(t: ChanceTables, evaluations: seq<Option<real>>, n: nat)
    returns (failure: Option<string>, winchance: array<real>, losechance: array<real>)
    ensures fresh(winchance) && fresh(losechance) && winchance.Length == n && losechance.Length == n
    ensures failure.Some? <==> Chances(t, evaluations, n).Err?
    ensures failure.Some? ==> Chances(t, evaluations, n) == Err(failure.value)
    ensures failure.None? ==> forall k :: 0 <= k < n ==>
      winchance[k] == Chances(t, evaluations, n).value[k].0 && losechance[k] == Chances(t, evaluations, n).value[k].1
  {
    winchance := new real[n];
    losechance := new real[n];
    ghost var ch: seq<(real, real)> := [];
    for i := 0 to n
      invariant Chances(t, evaluations, i) == Ok(ch)
      invariant forall k :: 0 <= k < i ==> winchance[k] == ch[k].0 && losechance[k] == ch[k].1
    {
      var c := ChanceAt(t, evaluations, i);
      if c.Err? {
        ChancesStop(t, evaluations, i, n);
        return Some(c.error), winchance, losechance;
      }
      winchance[i], losechance[i] := c.value.0, c.value.1;
      ch := ch + [c.value];
    }
    return None, winchance, losechance;
  }

  /** An even ply after the first adds White's two entries. */
  lemma DeltasWhite(ch: seq<(real, real)>, i: nat)
    requires 1 <= i < |ch| && i % 2 == 0
    ensures Deltas(ch, i + 1) == Deltas(ch, i)[Key("White", "WCL", i / 2) := ch[i].0 - ch[i - 1].0][Key("White", "LCL", i / 2) := ch[i].1 - ch[i - 1].1]
  {
  }

  /** An odd ply adds Black's two entries; the order of the two writes does not matter. */
  lemma DeltasBlack(ch: seq<(real, real)>, i: nat)
    requires 1 <= i < |ch| && i % 2 == 1
    ensures Deltas(ch, i + 1) == Deltas(ch, i)[Key("Black", "LCL", i / 2) := ch[i].1 - ch[i - 1].1][Key("Black", "WCL", i / 2) := ch[i].0 - ch[i - 1].0]
  {
    KindsDiffer("Black", i / 2);
  }

  /** The differences between consecutive plies and the dictionary built from them. */
  method DeltaDict(winchance: array<real>, losechance: array<real>, ghost ch: seq<(real, real)>)
    returns (out: map<string, real>)
    requires losechance.Length == winchance.Length == |ch|
    requires forall k :: 0 <= k < |ch| ==> winchance[k] == ch[k].0 && losechance[k] == ch[k].1
    ensures out == Deltas(ch, |ch|)
  {
    var moves := winchance.Length;
    var windiff := Differences(winchance);
    var losediff := Differences(losechance);
    out := map[Key("White", "WCL", 0) := 0.0, Key("White", "LCL", 0) := 0.0];
    var i := 1;
    while i < moves
      invariant 1 <= i && (i <= moves || i == 1) && moves == |ch|
      invariant out == Deltas(ch, i)
    {
      var w, l := windiff[i - 1], losediff[i - 1];
      assert w == ch[i].0 - ch[i - 1].0 && l == ch[i].1 - ch[i - 1].1;
      if i % 2 == 0 {
        out := out[Key("White", "WCL", i / 2) := w];
        out := out[Key("White", "LCL", i / 2) := l];
        DeltasWhite(ch, i);
      } else {
        out := out[Key("Black", "LCL", i / 2) := l];
        out := out[Key("Black", "WCL", i / 2) := w];
        DeltasBlack(ch, i);
      }
      i := i + 1;
    }
  }

  /** `a[1:] - a[:-1]`: the change from each entry to the next. */
  method Differences(a: array<real>) returns (d: seq<real>)
    ensures |d| == if a.Length == 0 then 0 else a.Length - 1
    ensures forall k :: 0 <= k < |d| ==> d[k] == a[k + 1] - a[k]
  {
    var diff := new real[if a.Length == 0 then 0 else a.Length - 1];
    forall k | 0 <= k < diff.Length {
      diff[k] := a[k + 1] - a[k];
    }
    d := diff[..];
  }

  /** `WinChanceIncrease(game, additional_inputs)` for a game of `moves` moves. */
  method WinChanceIncrease(t: ChanceTables, moves: nat, evaluations: seq<Option<real>>)
    returns (r: Result<Option<map<string, real>>>)
    ensures r == Increase(t, moves, evaluations)
  {
    if moves < t.mvMin || moves >= t.mvMax {
      return Ok(None);
    }
    var failure, winchance, losechance := LookUpChances(t, evaluations, moves);
    if failure.Some? {
      return Err(failure.value);
    }
    var out := DeltaDict(winchance, losechance, Chances(t, evaluations, moves).value);
    return Ok(Some(out));
  }

  /** Keys with sides of one length and kinds of one length are equal only when side, kind and number agree. */
  lemma KeyInjective(s1: string, k1: string, a: nat, s2: string, k2: string, b: nat)
    requires |s1| == |s2| && |k1| == |k2|
    ensures Key(s1, k1, a) == Key(s2, k2, b) ==> s1 == s2 && k1 == k2 && a == b
  {
    var x, y := Key(s1, k1, a), Key(s2, k2, b);
    assert x[..|s1|] == s1 && y[..|s2|] == s2;
    assert x[|s1| + 1..|s1| + 1 + |k1|] == k1 && y[|s2| + 1..|s2| + 1 + |k2|] == k2;
    assert x[|s1| + |k1| + 2..] == NatToString(a) && y[|s2| + |k2| + 2..] == NatToString(b);
    if NatToString(a) == NatToString(b) {
      NatToStringInjective(a, b);
    }
  }

  /** Different plies write different keys. */
  lemma PlyKeysDiffer(i: nat, j: nat, kind1: string, kind2: string)
    requires i != j && |kind1| == |kind2|
    ensures Key(Mover(i), kind1, i / 2) != Key(Mover(j), kind2, j / 2)
  {
    KeyInjective(Mover(i), kind1, i / 2, Mover(j), kind2, j / 2);
    assert Mover(i) == Mover(j) ==> i % 2 == j % 2;
  }

  /** `k` is one of the two keys ply `i` writes. */
  predicate KeyOfPly(k: string, i: nat)
  {
    k == Key(Mover(i), "WCL", i / 2) || k == Key(Mover(i), "LCL", i / 2)
  }

  /** Every key of the dictionary is the WCL or LCL key of one of the handled plies (ply 0 standing for the first move). */
  lemma {:induction false} DeltasKeys(ch: seq<(real, real)>, n: nat)
    requires n <= 1 || n <= |ch|
    ensures forall k :: k in Deltas(ch, n) ==> exists i :: 0 <= i < Max(n, 1) && KeyOfPly(k, i)
  {
    if n <= 1 {
      forall k | k in Deltas(ch, n)
        ensures exists i :: 0 <= i < Max(n, 1) && KeyOfPly(k, i)
      {
        assert KeyOfPly(k, 0);
      }
    } else {
      var j := n - 1;
      var m := Deltas(ch, j);
      DeltasKeys(ch, j);
      forall k | k in Deltas(ch, n)
        ensures exists i :: 0 <= i < Max(n, 1) && KeyOfPly(k, i)
      {
        InUpdates(m, Key(Mover(j), "WCL", j / 2), ch[j].0 - ch[j - 1].0, Key(Mover(j), "LCL", j / 2), ch[j].1 - ch[j - 1].1, k);
        if !KeyOfPly(k, j) {
          var i :| 0 <= i < Max(j, 1) && KeyOfPly(k, i);
          assert 0 <= i < Max(n, 1);
        }
      }
    }
  }

  /** A key of a twice-updated map is one of the two written or was there before. */
  lemma InUpdates(m: map<string, real>, k1: string, v1: real, k2: string, v2: real, k: string)
    ensures k in m[k1 := v1][k2 := v2] ==> k == k1 || k == k2 || k in m
  {
  }

  /** Ply 0 stands for White's first move, which has no change. */
  lemma {:induction false} DeltasFirst(ch: seq<(real, real)>, n: nat)
    requires n <= 1 || n <= |ch|
    ensures Key("White", "WCL", 0) in Deltas(ch, n) && Deltas(ch, n)[Key("White", "WCL", 0)] == 0.0
    ensures Key("White", "LCL", 0) in Deltas(ch, n) && Deltas(ch, n)[Key("White", "LCL", 0)] == 0.0
  {
    if n > 1 {
      var j := n - 1;
      DeltasFirst(ch, j);
      FirstKeysUntouched(j, "WCL");
      FirstKeysUntouched(j, "LCL");
      UpdatesKeep(Deltas(ch, j), Key(Mover(j), "WCL", j / 2), ch[j].0 - ch[j - 1].0,
        Key(Mover(j), "LCL", j / 2), ch[j].1 - ch[j - 1].1, Key("White", "WCL", 0));
      UpdatesKeep(Deltas(ch, j), Key(Mover(j), "WCL", j / 2), ch[j].0 - ch[j - 1].0,
        Key(Mover(j), "LCL", j / 2), ch[j].1 - ch[j - 1].1, Key("White", "LCL", 0));
    } else {
      KindsDiffer("White", 0);
    }
  }

  /** Two writes to other keys leave an entry as it was. */
  lemma UpdatesKeep(m: map<string, real>, k1: string, v1: real, k2: string, v2: real, k: string)
    requires k in m && k != k1 && k != k2
    ensures k in m[k1 := v1][k2 := v2] && m[k1 := v1][k2 := v2][k] == m[k]
  {
  }

  /** A later ply never writes the keys of the first move. */
  lemma FirstKeysUntouched(j: nat, kind: string)
    requires 1 <= j && |kind| == 3
    ensures Key("White", "WCL", 0) != Key(Mover(j), kind, j / 2)
    ensures Key("White", "LCL", 0) != Key(Mover(j), kind, j / 2)
  {
    PlyKeysDiffer(0, j, "WCL", kind);
    PlyKeysDiffer(0, j, "LCL", kind);
  }

  /** Ply `i` of the handled ones leaves the change of the win and loss chances it caused under its mover's move number. */
  lemma {:induction false} DeltasEntries(ch: seq<(real, real)>, n: nat, i: nat)
    requires n <= |ch| && 1 <= i < n
    ensures Key(Mover(i), "WCL", i / 2) in Deltas(ch, n) && Deltas(ch, n)[Key(Mover(i), "WCL", i / 2)] == ch[i].0 - ch[i - 1].0
    ensures Key(Mover(i), "LCL", i / 2) in Deltas(ch, n) && Deltas(ch, n)[Key(Mover(i), "LCL", i / 2)] == ch[i].1 - ch[i - 1].1
  {
    var j := n - 1;
    if i == j {
      KindsDiffer(Mover(i), i / 2);
    } else {
      DeltasEntries(ch, n - 1, i);
      PlyKeysDiffer(i, j, "WCL", "WCL");
      PlyKeysDiffer(i, j, "WCL", "LCL");
      PlyKeysDiffer(i, j, "LCL", "WCL");
      PlyKeysDiffer(i, j, "LCL", "LCL");
    }
  }

  /** Each ply adds two new keys: the dictionary has one WCL and one LCL entry per ply. */
  lemma {:induction false} DeltasSize(ch: seq<(real, real)>, n: nat)
    requires n <= 1 || n <= |ch|
    ensures |Deltas(ch, n)| == 2 * Max(n, 1)
  {
    if n <= 1 {
      KindsDiffer("White", 0);
    } else {
      var j := n - 1;
      var m := Deltas(ch, j);
      DeltasSize(ch, j);
      DeltasKeys(ch, j);
      NewPlyKey(ch, j, "WCL");
      NewPlyKey(ch, j, "LCL");
      KindsDiffer(Mover(j), j / 2);
      assert Key(Mover(j), "LCL", j / 2) !in m[Key(Mover(j), "WCL", j / 2) := ch[j].0 - ch[j - 1].0];
    }
  }

  /** The keys of ply `j` are not yet in the dictionary of the plies before it. */
  lemma NewPlyKey(ch: seq<(real, real)>, j: nat, kind: string)
    requires 1 <= j < |ch| && |kind| == 3
    requires forall k :: k in Deltas(ch, j) ==> exists i :: 0 <= i < Max(j, 1) && KeyOfPly(k, i)
    ensures Key(Mover(j), kind, j / 2) !in Deltas(ch, j)
  {
    var k := Key(Mover(j), kind, j / 2);
    if k in Deltas(ch, j) {
      var i :| 0 <= i < Max(j, 1) && KeyOfPly(k, i);
      PlyKeysDiffer(j, i, kind, "WCL");
      PlyKeysDiffer(j, i, kind, "LCL");
      assert false;
    }
  }

  /** Outside the move window the game is skipped; within it the game raises exactly when the lookup of some ply raises. */
  lemma IncreaseOutcome(t: ChanceTables, moves: nat, evaluations: seq<Option<real>>)
    ensures Increase(t, moves, evaluations) == Ok(None) <==> moves < t.mvMin || moves >= t.mvMax
    ensures Increase(t, moves, evaluations).Err? <==>
      t.mvMin <= moves < t.mvMax && exists i :: 0 <= i < moves && ChanceAt(t, evaluations, i).Err?
  {
    ChancesLookups(t, evaluations, moves);
  }

  /** In a game that is kept, ply `i` leaves under its mover's move number the changes between the chances looked up after plies `i - 1` and `i`. */
  lemma IncreaseEntries(t: ChanceTables, moves: nat, evaluations: seq<Option<real>>, m: map<string, real>, i: nat)
    requires Increase(t, moves, evaluations) == Ok(Some(m)) && 1 <= i < moves
    ensures ChanceAt(t, evaluations, i).Ok? && ChanceAt(t, evaluations, i - 1).Ok?
    ensures Key(Mover(i), "WCL", i / 2) in m &&
      m[Key(Mover(i), "WCL", i / 2)] == ChanceAt(t, evaluations, i).value.0 - ChanceAt(t, evaluations, i - 1).value.0
    ensures Key(Mover(i), "LCL", i / 2) in m &&
      m[Key(Mover(i), "LCL", i / 2)] == ChanceAt(t, evaluations, i).value.1 - ChanceAt(t, evaluations, i - 1).value.1
  {
    ChancesLookups(t, evaluations, moves);
    DeltasEntries(Chances(t, evaluations, moves).value, moves, i);
  }
}
