/**
 * chess_attempt_5/main.py: per PGN file, the 14-column CSV of per-move
 * evaluations (with names, ratings, FIDE ids, year, opening, variation and
 * result on each game's first row) and the driver that skips PGN files whose
 * CSV `<outdir>/<stem>_<depth>_analyzed.csv` already exists, so that a
 * re-run only retries what produced no output.
 */
module Attempt5Main {
  import opened Base
  import opened Chess
  import opened Text
  import opened Records
  import opened Attempt5Analyzer

  const MaxWorkers: nat := 10

  /** `min(cpu_count(), len(pgn_strings), max_workers)`. */
  function NumWorkers(cpus: nat, games: nat): (n: nat)
    ensures n <= cpus && n <= games && n <= MaxWorkers
    ensures n == cpus || n == games || n == MaxWorkers
    ensures cpus >= 1 && games >= 1 ==> n >= 1
  {
    Min(Min(cpus, games), MaxWorkers)
  }

  const Header: seq<string> := ["GameID", "WhiteName", "WhiteElo", "BlackName", "BlackElo", "WhiteFideId",
                                "BlackFideId", "Year", "Opening", "Variation", "Result", "MoveNumber", "Move",
                                "Evaluation"]

  /** The evaluation cell: a mate text such as "M3" or a pawn value. */
  function EvalField(e: EvalValue): Field
  {
    match e
    case MateText(t) => Str(t)
    case Pawns(p) => Num(p)
  }

  /**
   * A move's row. The analyzer's results carry no FIDE ids, so
   * `result.get(..., "")` always yields empty text in those two columns.
   */
  function DataRow(id: nat, a: Analysis, m: MoveRecord): seq<Field>
  {
    var n := m.moveNumber;
    [Int(id), OnFirst(n, Str(Blank(a.info.whiteName))), OnFirst(n, Str(Blank(a.info.whiteElo))),
     OnFirst(n, Str(Blank(a.info.blackName))), OnFirst(n, Str(Blank(a.info.blackElo))),
     Empty, Empty, OnFirst(n, Str(Blank(a.info.year))), OnFirst(n, Str(a.info.opening)),
     OnFirst(n, Str(a.info.variation)), OnFirst(n, Str(Blank(a.result))), Int(n), Str(m.move), EvalField(m.evaluation)]
  }

  /** `[""] * 12`: the row after each game. */
  function Separator(): (row: seq<Field>)
    ensures |row| == 12 && forall k :: 0 <= k < |row| ==> row[k] == Empty
  {
    seq(12, k => Empty)
  }

  function MoveRows(id: nat, a: Analysis): (rows: seq<seq<Field>>)
    ensures |rows| == |a.moves|
  {
    seq(|a.moves|, k requires 0 <= k < |a.moves| => DataRow(id, a, a.moves[k]))
  }

  function GameRows(id: nat, a: Analysis): seq<seq<Field>>
  {
    MoveRows(id, a) + [Separator()]
  }

  const GameRowsFn: (nat, Analysis) -> seq<seq<Field>> := (id: nat, a: Analysis) => GameRows(id, a)

  method AppendGame(rows: seq<seq<Field>>, id: nat, a: Analysis) returns (out: seq<seq<Field>>)
    ensures out == rows + MoveRows(id, a) + [Separator()]
  {
    out := rows;
    var j := 0;
    while j < |a.moves|
      invariant 0 <= j <= |a.moves|
      invariant out == rows + MoveRows(id, a)[..j]
    {
      assert MoveRows(id, a)[..j + 1] == MoveRows(id, a)[..j] + [DataRow(id, a, a.moves[j])];
      out := out + [DataRow(id, a, a.moves[j])];
      j := j + 1;
    }
    assert MoveRows(id, a)[..j] == MoveRows(id, a);
    out := out + [Separator()];
  }

  method BuildRows(results: seq<Option<Analysis>>) returns (rows: seq<seq<Field>>)
    ensures rows == Assemble(results, GameRowsFn, false)
  {
    rows := [];
    var currentGameId := 0;
    var i := 0;
    while i < |results|
      invariant 0 <= i <= |results|
      invariant currentGameId == Successes(results[..i])
      invariant rows == Assemble(results[..i], GameRowsFn, false)
    {
      rows, currentGameId := AddResult(rows, currentGameId, results, i);
      i := i + 1;
    }
    assert results[..|results|] == results;
  }

  /** One round of the loop: a successful analysis gets the next GameID and adds its rows. */
  method AddResult(rows: seq<seq<Field>>, id: nat, results: seq<Option<Analysis>>, i: nat)
    returns (next: seq<seq<Field>>, nextId: nat)
    requires i < |results| && id == Successes(results[..i])
    requires rows == Assemble(results[..i], GameRowsFn, false)
    ensures nextId == Successes(results[..i + 1])
    ensures next == Assemble(results[..i + 1], GameRowsFn, false)
  {
    if results[i].None? {
      AssembleNone(results, i, GameRowsFn, false);
      return rows, id;
    }
    var a := results[i].value;
    nextId := id + 1;
    next := AppendGame(rows, nextId, a);
    assert NextId(results[..i], false) == nextId;
    assert GameRowsFn(nextId, a) == MoveRows(nextId, a) + [Separator()];
    ConcatAssoc(rows, MoveRows(nextId, a), [Separator()]);
    AssembleSome(results, i, GameRowsFn, false, rows, MoveRows(nextId, a) + [Separator()]);
  }

  /** Data rows are as wide as the header; the all-empty separators have 12 fields. */
  lemma RowWidths(results: seq<Option<Analysis>>)
    ensures forall k :: 0 <= k < |Assemble(results, GameRowsFn, false)| ==>
      |Assemble(results, GameRowsFn, false)[k]| in {|Header|, 12}
  {
    forall id: nat, a: Analysis, k | 0 <= k < |GameRowsFn(id, a)|
      ensures |GameRowsFn(id, a)[k]| in {14, 12}
    {
    }
    AssembleWidths(results, GameRowsFn, false, {14, 12});
  }

  /**
   * With moves numbered 1, 2, ... as the analyzer numbers them, a game's
   * result is written on its first row only, "Unknown" as empty text, and
   * the FIDE id columns stay empty.
   */
  lemma ResultOnFirstRow(id: nat, a: Analysis, k: nat)
    requires forall j :: 0 <= j < |a.moves| ==> a.moves[j].moveNumber == j + 1
    requires k < |a.moves|
    ensures GameRows(id, a)[k][10] == (if k == 0 && a.result != "Unknown" then Str(a.result) else Empty)
    ensures GameRows(id, a)[k][5] == Empty && GameRows(id, a)[k][6] == Empty
    ensures GameRows(id, a)[k][0] == Int(id) && GameRows(id, a)[k][11] == Int(k + 1)
  {
  }

  datatype FileOutcome = ReadError | NoGames | PoolError | WriteError | Written(table: seq<seq<Field>>)

  function HeaderRow(): (row: seq<Field>)
    ensures |row| == |Header| && forall k :: 0 <= k < |row| ==> row[k] == Str(Header[k])
  {
    seq(|Header|, k requires 0 <= k < |Header| => Str(Header[k]))
  }

  /**
   * One call of `analyze_pgn_file_parallel`. `games` is None when reading
   * the file raises; `analyze` is the worker's result for one exported game;
   * `poolFails` and `writeOk` say whether the pool and the CSV write raise.
   */
  function AnalyzeFile(games: Option<seq<string>>, analyze: string -> Option<Analysis>,
                       poolFails: bool, writeOk: bool): (o: FileOutcome)
    ensures o.Written? <==> games.Some? && games.value != [] && !poolFails && writeOk
    ensures o.Written? ==> o.table == [HeaderRow()] + Assemble(
      seq(|games.value|, i requires 0 <= i < |games.value| => analyze(games.value[i])), GameRowsFn, false)
  {
    match games
    case None => ReadError
    case Some(pgns) =>
      if pgns == [] then NoGames
      else if poolFails then PoolError
      else if !writeOk then WriteError
      else
        var results := seq(|pgns|, i requires 0 <= i < |pgns| => analyze(pgns[i]));
        Written([HeaderRow()] + Assemble(results, GameRowsFn, false))
  }

  /** `os.path.join(outdir, f"{splitext(basename(pgn))[0]}_{depth}_analyzed.csv")`. */
  function OutputPath(outdir: string, depth: nat, pgn: string): string
  {
    PathJoin(outdir, Stem(Basename(pgn)) + "_" + NatToString(depth) + "_analyzed.csv")
  }

  datatype Job = Job(pgn: string, output: string)

  /** The analyses started so far and the CSV files that exist. */
  datatype RunState = RunState(jobs: seq<Job>, outputs: set<string>)

  /**
   * One turn of the loop in `process_specific_pgn_files`: a missing PGN and
   * one whose CSV exists are skipped; otherwise the file is analyzed, and
   * `writes(pgn)` says whether that analysis wrote its CSV.
   */
  function Step(st: RunState, f: string, present: set<string>, outdir: string, depth: nat,
                writes: string -> bool): RunState
  {
    var out := OutputPath(outdir, depth, f);
    if f !in present || out in st.outputs then st
    else RunState(st.jobs + [Job(f, out)], if writes(f) then st.outputs + {out} else st.outputs)
  }

  function Run(files: seq<string>, present: set<string>, existing: set<string>, outdir: string, depth: nat,
               writes: string -> bool): RunState
  {
    if files == [] then RunState([], existing)
    else Step(Run(files[..|files| - 1], present, existing, outdir, depth, writes), files[|files| - 1],
              present, outdir, depth, writes)
  }

  method ProcessFiles(files: seq<string>, present: set<string>, existing: set<string>, outdir: string,
                      depth: nat, writes: string -> bool) returns (jobs: seq<Job>, outputs: set<string>)
    ensures RunState(jobs, outputs) == Run(files, present, existing, outdir, depth, writes)
  {
    jobs := [];
    outputs := existing;
    var i := 0;
    while i < |files|
      invariant 0 <= i <= |files|
      invariant RunState(jobs, outputs) == Run(files[..i], present, existing, outdir, depth, writes)
    {
      assert files[..i + 1][..i] == files[..i];
      var f := files[i];
      if f in present {
        var out := OutputPath(outdir, depth, f);
        if out !in outputs {
          jobs := jobs + [Job(f, out)];
          if writes(f) {
            outputs := outputs + {out};
          }
        }
      }
      i := i + 1;
    }
    assert files[..i] == files;
  }

  /** A run keeps every CSV that existed before it. */
  lemma {:induction false} RunKeepsExisting(files: seq<string>, present: set<string>, existing: set<string>,
                                            outdir: string, depth: nat, writes: string -> bool)
    ensures existing <= Run(files, present, existing, outdir, depth, writes).outputs
  {
    if files != [] {
      RunKeepsExisting(files[..|files| - 1], present, existing, outdir, depth, writes);
    }
  }

  /** A run analyzes only listed, present files whose CSV did not exist, each into its own CSV. */
  lemma {:induction false} RunJobsNew(files: seq<string>, present: set<string>, existing: set<string>,
                                      outdir: string, depth: nat, writes: string -> bool)
    ensures forall j :: j in Run(files, present, existing, outdir, depth, writes).jobs ==>
      j.pgn in files && j.pgn in present && j.output == OutputPath(outdir, depth, j.pgn) && j.output !in existing
  {
    if files != [] {
      var init := files[..|files| - 1];
      RunJobsNew(init, present, existing, outdir, depth, writes);
      RunKeepsExisting(init, present, existing, outdir, depth, writes);
      assert files == init + [files[|files| - 1]];
    }
  }

  /** After a run, every listed present file whose analysis writes has its CSV. */
  lemma {:induction false} RunWritesOutputs(files: seq<string>, present: set<string>, existing: set<string>,
                                            outdir: string, depth: nat, writes: string -> bool)
    ensures forall f :: f in files && f in present && writes(f) ==>
      OutputPath(outdir, depth, f) in Run(files, present, existing, outdir, depth, writes).outputs
  {
    if files != [] {
      var init := files[..|files| - 1];
      RunWritesOutputs(init, present, existing, outdir, depth, writes);
      assert files == init + [files[|files| - 1]];
    }
  }

  /** Every CSV after a run existed before or was written by one of its analyses. */
  lemma {:induction false} RunOutputsFromJobs(files: seq<string>, present: set<string>, existing: set<string>,
                                              outdir: string, depth: nat, writes: string -> bool)
    ensures forall o :: o in Run(files, present, existing, outdir, depth, writes).outputs ==>
      o in existing || exists j :: j in Run(files, present, existing, outdir, depth, writes).jobs && j.output == o
  {
    if files != [] {
      RunOutputsFromJobs(files[..|files| - 1], present, existing, outdir, depth, writes);
    }
  }

  /** Running the driver again over the same list only retries files whose analysis wrote no CSV. */
  lemma Rerun(files: seq<string>, present: set<string>, existing: set<string>, outdir: string, depth: nat,
              writes: string -> bool)
    ensures var first := Run(files, present, existing, outdir, depth, writes);
      forall j :: j in Run(files, present, first.outputs, outdir, depth, writes).jobs ==> !writes(j.pgn)
  {
    var first := Run(files, present, existing, outdir, depth, writes);
    RunWritesOutputs(files, present, existing, outdir, depth, writes);
    RunJobsNew(files, present, first.outputs, outdir, depth, writes);
  }

  /** When every analysis writes its CSV, a second run starts nothing. */
  lemma RerunIdle(files: seq<string>, present: set<string>, existing: set<string>, outdir: string, depth: nat,
                  writes: string -> bool)
    requires forall f :: writes(f)
    ensures var first := Run(files, present, existing, outdir, depth, writes);
      Run(files, present, first.outputs, outdir, depth, writes).jobs == []
  {
    RunWritesOutputs(files, present, existing, outdir, depth, writes);
    NothingLeft(files, present, Run(files, present, existing, outdir, depth, writes).outputs, outdir, depth, writes);
  }

  /** When the CSV of every listed existing file is there, the driver starts nothing and writes nothing. */
  lemma {:induction false} NothingLeft(files: seq<string>, present: set<string>, existing: set<string>,
                                       outdir: string, depth: nat, writes: string -> bool)
    requires forall f :: f in files && f in present ==> OutputPath(outdir, depth, f) in existing
    ensures Run(files, present, existing, outdir, depth, writes) == RunState([], existing)
  {
    if files != [] {
      var init := files[..|files| - 1];
      assert forall f :: f in init ==> f in files;
      NothingLeft(init, present, existing, outdir, depth, writes);
    }
  }

  /** The CSV is named after the PGN file's stem and the depth, directly in the output directory. */
  lemma OutputName(outdir: string, depth: nat, pgn: string)
    ensures Basename(OutputPath(outdir, depth, pgn)) == Stem(Basename(pgn)) + "_" + NatToString(depth) + "_analyzed.csv"
  {
    var name := Stem(Basename(pgn));
    var digits := NatToString(depth);
    var tail := "_analyzed.csv";
    BasenameNoSlash(pgn);
    StemPrefix(Basename(pgn));
    assert '/' !in name by {
      forall k | 0 <= k < |name| ensures name[k] != '/' {
        assert name[k] == Basename(pgn)[k];
      }
    }
    assert '/' !in digits by {
      forall k | 0 <= k < |digits| ensures digits[k] != '/' {
        assert IsDigit(digits[k]);
      }
    }
    assert '/' !in tail;
    var suffix := "_" + digits + tail;
    assert '/' !in suffix;
    BasenameJoin(outdir, name + suffix);
    ConcatAssoc(name, "_", digits);
    ConcatAssoc(name, "_" + digits, tail);
  }
}
