/**
 * chess_attempt_3/main.py: per PGN file, read the games, analyze them in a
 * worker pool, and write one CSV whose rows carry 13 fields (both sides'
 * ACPL) and whose per-game separator carries 12; then the driver that maps
 * each listed PGN file to `<outdir>/<stem>_analyzed.csv`.
 */
module Attempt3Main {
  import opened Base
  import opened Text
  import opened Records
  import opened Attempt3Analyzer

  const MaxWorkers: nat := 18

  /** `min(cpu_count(), len(pgn_strings), max_workers)`. */
  function NumWorkers(cpus: nat, games: nat): (n: nat)
    ensures n <= cpus && n <= games && n <= MaxWorkers
    ensures n == cpus || n == games || n == MaxWorkers
    ensures cpus >= 1 && games >= 1 ==> n >= 1
  {
    Min(Min(cpus, games), MaxWorkers)
  }

  const Header: seq<string> := ["GameID", "WhiteName", "WhiteElo", "BlackName", "BlackElo", "Year", "Opening",
                                "Variation", "Average_CPL_White", "Average_CPL_Black", "MoveNumber", "Move", "CPL"]

  function DataRow(id: nat, a: Analysis, m: CplMove): seq<Field>
  {
    var n := m.moveNumber;
    [Int(id), OnFirst(n, Str(Blank(a.info.whiteName))), OnFirst(n, Str(Blank(a.info.whiteElo))),
     OnFirst(n, Str(Blank(a.info.blackName))), OnFirst(n, Str(Blank(a.info.blackElo))),
     OnFirst(n, Str(Blank(a.info.year))), OnFirst(n, Str(a.info.opening)), OnFirst(n, Str(a.info.variation)),
     OnFirst(n, Num(a.avgCplWhite)), OnFirst(n, Num(a.avgCplBlack)), Int(n), Str(m.move), Int(m.cpl)]
  }

  /** The row after each game: the next GameID and eleven empty fields, one field short of the header. */
  function Separator(id: nat): seq<Field>
  {
    [Int(id + 1), Empty, Empty, Empty, Empty, Empty, Empty, Empty, Empty, Empty, Empty, Empty]
  }

  function MoveRows(id: nat, a: Analysis): (rows: seq<seq<Field>>)
    ensures |rows| == |a.moves|
  {
    seq(|a.moves|, k requires 0 <= k < |a.moves| => DataRow(id, a, a.moves[k]))
  }

  function GameRows(id: nat, a: Analysis): seq<seq<Field>>
  {
    MoveRows(id, a) + [Separator(id)]
  }

  const GameRowsFn: (nat, Analysis) -> seq<seq<Field>> := (id: nat, a: Analysis) => GameRows(id, a)

  method AppendGame(rows: seq<seq<Field>>, id: nat, a: Analysis) returns (out: seq<seq<Field>>)
    ensures out == rows + MoveRows(id, a) + [Separator(id)]
  {
    out := rows;
    var j := 0;
    while j < |a.moves|
      invariant 0 <= j <= |a.moves|
      invariant out == rows + MoveRows(id, a)[..j]
    {
      assert MoveRows(id, a)[..j + 1] == MoveRows(id, a)[..j] + [DataRow(id, a, a.moves[j])];
      out := out + [DataRow(id, a, a.moves[j])];
      j := j + 1;
    }
    assert MoveRows(id, a)[..j] == MoveRows(id, a);
    out := out + [Separator(id)];
  }

  method BuildRows(results: seq<Option<Analysis>>) returns (rows: seq<seq<Field>>)
    ensures rows == Assemble(results, GameRowsFn, false)
  {
    rows := [];
    var currentGameId := 0;
    var i := 0;
    while i < |results|
      invariant 0 <= i <= |results|
      invariant currentGameId == Successes(results[..i])
      invariant rows == Assemble(results[..i], GameRowsFn, false)
    {
      rows, currentGameId := AddResult(rows, currentGameId, results, i);
      i := i + 1;
    }
    assert results[..|results|] == results;
  }

  /** One round of the loop: a successful analysis gets the next GameID and adds its rows. */
  method AddResult(rows: seq<seq<Field>>, id: nat, results: seq<Option<Analysis>>, i: nat)
    returns (next: seq<seq<Field>>, nextId: nat)
    requires i < |results| && id == Successes(results[..i])
    requires rows == Assemble(results[..i], GameRowsFn, false)
    ensures nextId == Successes(results[..i + 1])
    ensures next == Assemble(results[..i + 1], GameRowsFn, false)
  {
    if results[i].None? {
      AssembleNone(results, i, GameRowsFn, false);
      return rows, id;
    }
    var a := results[i].value;
    nextId := id + 1;
    next := AppendGame(rows, nextId, a);
    assert NextId(results[..i], false) == nextId;
    assert GameRowsFn(nextId, a) == MoveRows(nextId, a) + [Separator(nextId)];
    ConcatAssoc(rows, MoveRows(nextId, a), [Separator(nextId)]);
    AssembleSome(results, i, GameRowsFn, false, rows, MoveRows(nextId, a) + [Separator(nextId)]);
  }

  /** Data rows are as wide as the header; separators are one field narrower. */
  lemma RowWidths(results: seq<Option<Analysis>>)
    ensures forall k :: 0 <= k < |Assemble(results, GameRowsFn, false)| ==>
      |Assemble(results, GameRowsFn, false)[k]| in {|Header|, |Header| - 1}
  {
    forall id: nat, a: Analysis, k | 0 <= k < |GameRowsFn(id, a)|
      ensures |GameRowsFn(id, a)[k]| in {13, 12}
    {
    }
    AssembleWidths(results, GameRowsFn, false, {13, 12});
  }

  /** Why a file produced no CSV, or the table that was written (header row first). */
  datatype FileOutcome = ReadError | NoGames | PoolError | WriteError | Written(table: seq<seq<Field>>)

  function HeaderRow(): (row: seq<Field>)
    ensures |row| == |Header| && forall k :: 0 <= k < |row| ==> row[k] == Str(Header[k])
  {
    seq(|Header|, k requires 0 <= k < |Header| => Str(Header[k]))
  }

  /**
   * One call of `analyze_pgn_file_parallel`. `games` is None when reading
   * the file raises; `analyze` is the worker's result for one exported game;
   * `poolFails` and `writeOk` say whether the pool and the CSV write raise.
   */
  function AnalyzeFile(games: Option<seq<string>>, analyze: string -> Option<Analysis>,
                       poolFails: bool, writeOk: bool): (o: FileOutcome)
    ensures o.Written? <==> games.Some? && games.value != [] && !poolFails && writeOk
    ensures o.Written? ==> o.table == [HeaderRow()] + Assemble(
      seq(|games.value|, i requires 0 <= i < |games.value| => analyze(games.value[i])), GameRowsFn, false)
  {
    match games
    case None => ReadError
    case Some(pgns) =>
      if pgns == [] then NoGames
      else if poolFails then PoolError
      else if !writeOk then WriteError
      else
        var results := seq(|pgns|, i requires 0 <= i < |pgns| => analyze(pgns[i]));
        Written([HeaderRow()] + Assemble(results, GameRowsFn, false))
  }

  /** `os.path.join(outdir, splitext(basename(pgn))[0] + "_analyzed.csv")`. */
  function OutputPath(outdir: string, pgn: string): string
  {
    PathJoin(outdir, Stem(Basename(pgn)) + "_analyzed.csv")
  }

  datatype Job = Job(pgn: string, output: string)

  /** The analyses `process_specific_pgn_files` starts: every listed file that exists, in order. */
  function Jobs(files: seq<string>, present: set<string>, outdir: string): seq<Job>
  {
    if files == [] then []
    else
      var init := files[..|files| - 1];
      var f := files[|files| - 1];
      Jobs(init, present, outdir) + (if f in present then [Job(f, OutputPath(outdir, f))] else [])
  }

  method ProcessFiles(files: seq<string>, present: set<string>, outdir: string) returns (jobs: seq<Job>)
    ensures jobs == Jobs(files, present, outdir)
  {
    jobs := [];
    var i := 0;
    while i < |files|
      invariant 0 <= i <= |files|
      invariant jobs == Jobs(files[..i], present, outdir)
    {
      assert files[..i + 1][..i] == files[..i];
      var f := files[i];
      if f in present {
        jobs := jobs + [Job(f, OutputPath(outdir, f))];
      }
      i := i + 1;
    }
    assert files[..i] == files;
  }

  /** The CSV for a PGN file is named after its stem and sits directly in the output directory. */
  lemma OutputName(outdir: string, pgn: string)
    ensures Basename(OutputPath(outdir, pgn)) == Stem(Basename(pgn)) + "_analyzed.csv"
  {
    var name := Stem(Basename(pgn));
    BasenameNoSlash(pgn);
    StemPrefix(Basename(pgn));
    assert forall k :: 0 <= k < |name| ==> name[k] == Basename(pgn)[k];
    assert '/' !in name + "_analyzed.csv";
    BasenameJoin(outdir, name + "_analyzed.csv");
  }

  /** Two PGN files write the same CSV exactly when their stems agree. */
  lemma OutputCollision(outdir: string, p: string, q: string)
    ensures OutputPath(outdir, p) == OutputPath(outdir, q) <==> Stem(Basename(p)) == Stem(Basename(q))
  {
    if OutputPath(outdir, p) == OutputPath(outdir, q) {
      OutputName(outdir, p);
      OutputName(outdir, q);
      var a, b := Stem(Basename(p)), Stem(Basename(q));
      assert a + "_analyzed.csv" == b + "_analyzed.csv";
      assert |a| == |b|;
      assert a == (a + "_analyzed.csv")[..|a|];
    }
  }

  /** Every job is a listed file that exists, and every listed existing file gets a job. */
  lemma {:induction false} JobsCoverPresent(files: seq<string>, present: set<string>, outdir: string)
    ensures forall j :: j in Jobs(files, present, outdir) ==> j.pgn in files && j.pgn in present && j.output == OutputPath(outdir, j.pgn)
    ensures forall f :: f in files && f in present ==> Job(f, OutputPath(outdir, f)) in Jobs(files, present, outdir)
  {
    if files != [] {
      var init := files[..|files| - 1];
      JobsCoverPresent(init, present, outdir);
      assert files == init + [files[|files| - 1]];
    }
  }
}
