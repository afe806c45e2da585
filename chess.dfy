/**
 * What the game analyzers share: the engine's score (centipawns or a mate
 * count), the side to move at each ply of a game from the standard starting
 * position, the PGN header fields they read, the evaluation text written for
 * mate scores, and the two centipawn-loss rules used across the analyzers.
 */
module Chess {
  import opened Base
  import opened Text

  datatype Color = White | Black

  /** The side to move before ply `k` (0-based) of a game from the standard starting position. */
  function MoverAt(k: nat): Color
  {
    if k % 2 == 0 then White else Black
  }

  /** A python-chess score seen from one side: centipawns, or moves to mate (negative: being mated). */
  datatype Score = Cp(centipawns: int) | Mate(moves: int)

  /** One mainline move: its SAN text and whatever the engine answered for it. */
  datatype Ply<R> = Ply(san: string, reply: R)

  /** A game as `chess.pgn.read_game` returns it: its headers and its mainline. */
  datatype PgnGame<R> = PgnGame(headers: map<string, string>, plies: seq<Ply<R>>)

  /** `game.headers.get(key, "Unknown")`. */
  function HeaderOr(headers: map<string, string>, key: string): string
  {
    if key in headers then headers[key] else "Unknown"
  }

  /** The year column: the first four characters of a known date, or "Unknown". */
  function YearOf(date: string): (year: string)
    ensures year == "Unknown" || (|year| == 4 && StartsWith(date, year))
    ensures |date| >= 4 && date != "Unknown" ==> year == date[..4]
  {
    if date != "Unknown" && |date| >= 4 then date[..4] else "Unknown"
  }

  datatype GameInfo = GameInfo(
    whiteName: string, blackName: string, whiteElo: string, blackElo: string,
    opening: string, variation: string, year: string)

  function ReadInfo(headers: map<string, string>): GameInfo
  {
    GameInfo(HeaderOr(headers, "White"), HeaderOr(headers, "Black"),
             HeaderOr(headers, "WhiteElo"), HeaderOr(headers, "BlackElo"),
             HeaderOr(headers, "Opening"), HeaderOr(headers, "Variation"),
             YearOf(HeaderOr(headers, "Date")))
  }

  /** The evaluation written after a move: mate text, or pawns (centipawns / 100). */
  datatype EvalValue = MateText(text: string) | Pawns(pawns: real)

  /** White-perspective score as the analyzers write it: `M{m}` for m > 0, else `-M{|m|}`. */
  function FormatEvaluation(s: Score): EvalValue
  {
    match s
    case Mate(m) => if m > 0 then MateText("M" + NatToString(m)) else MateText("-M" + NatToString(Abs(m)))
    case Cp(c) => Pawns(c as real / 100.0)
  }

  /** Reads a mate text back: "M<digits>" is a mate for White, "-M<digits>" a mate for Black. */
  function ParseMateText(t: string): Option<int>
  {
    if StartsWith(t, "-M") then
      match ParseNat(t[2..]) case Some(n) => Some(-(n as int)) case None => None
    else if StartsWith(t, "M") then
      match ParseNat(t[1..]) case Some(n) => Some(n as int) case None => None
    else None
  }

  /** The mate text loses nothing: the mate count and its sign read back exactly. */
  lemma MateTextRoundTrip(m: int)
    ensures FormatEvaluation(Mate(m)).MateText?
    ensures ParseMateText(FormatEvaluation(Mate(m)).text) == Some(m)
  {
    var t := FormatEvaluation(Mate(m)).text;
    if m > 0 {
      assert t[1..] == NatToString(m);
      ParseNatToString(m);
      assert !StartsWith(t, "-M");
    } else {
      assert t[2..] == NatToString(Abs(m));
      ParseNatToString(Abs(m));
    }
  }

  /**
   * Centipawn loss when mates are set aside: 0 if either score is a mate,
   * otherwise the distance between the best and the played score.
   */
  function MateAwareCpl(best: Score, played: Score): (cpl: int)
    ensures cpl >= 0
    ensures best.Mate? || played.Mate? ==> cpl == 0
    ensures best.Cp? && played.Cp? ==> cpl == Abs(best.centipawns - played.centipawns)
  {
    if best.Mate? || played.Mate? then 0 else Abs(best.centipawns - played.centipawns)
  }

  /**
   * Centipawn loss from scores already converted with a mate score: the
   * distance between them when both exist, otherwise 0.
   */
  function ConvertedCpl(best: Option<int>, played: Option<int>): (cpl: int)
    ensures cpl >= 0
    ensures best.Some? && played.Some? ==> cpl == Abs(best.value - played.value)
  {
    if best.Some? && played.Some? then Abs(best.value - played.value) else 0
  }

  /** The CPL column of a list of per-move records, given as a projection. */
  function Column<T>(rows: seq<T>, f: T -> int): (col: seq<int>)
    ensures |col| == |rows|
    ensures forall k :: 0 <= k < |rows| ==> col[k] == f(rows[k])
  {
    seq(|rows|, k requires 0 <= k < |rows| => f(rows[k]))
  }

  lemma ColumnAppend<T>(rows: seq<T>, f: T -> int, x: T)
    ensures Column(rows + [x], f) == Column(rows, f) + [f(x)]
  {
  }

  /** `round(mean, 2) if values else 0`, with the rounding as a parameter. */
  function RoundedMean(values: seq<int>, round2: real -> real): real
  {
    if values == [] then 0.0 else round2(MeanInt(values))
  }

  /** `sum / len if values else 0`. */
  function PlainMean(values: seq<int>): real
  {
    if values == [] then 0.0 else MeanInt(values)
  }
}
