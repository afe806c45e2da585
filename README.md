# Guess-The-Elo, modelled in Dafny

Guess-The-Elo turns engine-analysed chess games into figures that a model
can use to estimate the players' ratings. This project models and verifies
the code that does that bookkeeping. It covers five groups of code:

- **Game analyzers.** These are `failed_attempt/chess6.py`,
  `failed_attempt/analysis.py`, `chess_attempt_2/*` and
  `chess_attempt_3..5/analyzer.py`.
  - A UCI engine scores every mainline move of a PGN game. The scripts turn
    those scores into a centipawn loss (CPL) per move and put it in a
    per-side list.
  - They also compute per-side averages and the evaluation after each move.
    `failed_attempt/analysis.py` adds a Lichess-style accuracy on top.
- **CSV writers.** These are the `analyze_pgn_file_parallel` /
  `process_specific_pgn_files` drivers of `chess_attempt_2`, `chess_attempt_3`
  and `chess_attempt_5`. They number the successful games and write one row
  per move, with the game's metadata only on its first row. After each game
  they write a separator row, and they choose the name of the output file.
- **Record scanner and per-game features.** These are
  `data_analysis/anal_games.py` and `data_analysis/functions_anal.py`. The
  scanner reads a flat table of analysed moves back into games. The
  features count each side's moves and average each side's evaluations.
- **Outcome tables.** These are `data_analysis/winning_chances.py` and
  `data_analysis/winning_chances_util.py`.
  - They count how often White wins, draws and loses from an evaluation
    interval and a move-number bin. They repair the under-sampled bins and
    write the tables with interval labels that are read back later.
  - From those tables they turn a game into signed per-ply win-chance and
    lose-chance changes (WCL / LCL).
- **Mistake histograms and accuracy.** These are
  `data_analysis/make_mistakes_table.py`, `old_files/make_mistakes_table.py`,
  `data_analysis/lichess_code.py` and `failed_attempt/utils.py`.
  - The histograms sort each move's mistake size into severity bins.
  - The accuracy code has a logistic win-percentage curve, volatility
    weights and per-move accuracies, and combines a weighted mean with a
    harmonic mean.

Each core source file has one module. Shared modules hold what several files
have in common:

- `Base`: Option/Result values, Python's `[::2]` and `[1::2]` slices, sums,
  clamps, and the searches that `numpy.digitize` and `numpy.interp` make.
- `Text`: `str(int)`, `int(str)`, `str.split` and the `os.path` forms.
- `Chess`: engine scores, the side to move, PGN headers, mate text and the
  CPL rules.
- `Records`: CSV fields and row assembly.
- `Means`: the bounds of weighted and harmonic means.

The following modelling conventions hold throughout:

- **The engine is an input.** A game is a sequence of plies, each with the
  engine's replies for that ply, or "analysis failed". Plies start from the
  standard position, so White moves at even plies. An uninitialised engine
  is a boolean parameter.
- **NaN and exceptions.** A pandas NaN is `None`. A Python exception that
  the code does not catch is `Err(<exception name>)`. An exception the code
  catches becomes the `None` result the code returns.
- **Floating point.** Numbers are Dafny `real`. `np.exp`, `np.std`,
  `round(x, 2)`, `str(float)` and `float(str)` are function parameters, so
  every clamp, branch and index property holds whatever those functions
  return.
- **Imperative form.** Every loop of the source is a Dafny `method` with a
  `while` or `for` loop. Each such method is proved equal to a
  specification function, and the lemmas about that function state the
  source's promises. The table builder of `winning_chances_util.py` and its
  smoother update arrays in place, as the source does.

Where the code and its documentation disagree, the model follows the code.
One case: `read_game` is documented as rejecting games without moves, but
its code accepts them, and so does `AnalGames.ReadGame`.

`chess_attempt_3/main.py` writes a 12-field separator under a 13-column
header (lines 141 and 150-164). The model reproduces this, and
`Attempt3Main.RowWidths` states it.

## Model

| member | source | states |
|---|---|---|
| FailedUtils.EvalToScore | failed_attempt/utils.py:6-19 | a mate scores ±100000 with the sign of the mate count (mate in 0 counts as losing); a centipawn score passes unchanged |
| FailedUtils.MateDominates | failed_attempt/utils.py:11-17 | a winning mate outranks, and a losing mate underranks, every centipawn score below 100000 in size |
| FailedUtils.WinningChances | failed_attempt/utils.py:21-29 | the win chance lies in [-1, 1] and equals the unclamped curve `2/(1+exp(m·cp)) - 1`: the clamp never changes it |
| FailedUtils.WinPercent | failed_attempt/utils.py:31-38 | the win percentage lies in [0, 100] and equals `50 + 50·winning_chances(cp)`: the clamp never changes it |
| FailedUtils.WinPercentSymmetric | failed_attempt/utils.py:21-38 | with an exponential for which exp(-x)·exp(x) = 1, the two sides' percentages add up to 100 |
| FailedUtils.AccuracyFromWinPercents | failed_attempt/utils.py:40-55 | the accuracy lies in [0, 100], and is exactly 100 when the win percentage did not drop |
| FailedUtils.AccuracyFalls | failed_attempt/utils.py:45-55 | with an increasing exponential, a larger drop never earns a higher accuracy |
| FailedUtils.HarmonicMean | failed_attempt/utils.py:57-65 | 0 for an empty list or one holding a zero; the only error is ZeroDivisionError |
| FailedUtils.HarmonicMeanBetween | failed_attempt/utils.py:62-65 | for data in [lo, hi] with lo > 0 the mean exists and lies in [lo, hi] |
| FailedUtils.HarmonicMeanAtMost | failed_attempt/utils.py:62-65 | for data in [0, hi] the mean exists and lies in [0, hi] |
| FailedUtils.HarmonicMeanRaises | failed_attempt/utils.py:62-65 | the zero guard misses reciprocals that cancel: [1, -1] raises ZeroDivisionError |
| Chess6.Loss | failed_attempt/chess6.py:82-111 | the loss is never negative; it is positive exactly when the played move scores worse for the mover than the best move, and then it is the size of the difference; it is the mover-side gap clamped at 0 |
| Chess6.PlayerScore | failed_attempt/chess6.py:113-117 | the mover-side score, oriented back to White's side, is the engine's White-side score: Black sees it negated |
| Chess6.Records | failed_attempt/chess6.py:128-134 | one record per ply in ply order, numbered from 1, with the loss in pawns and the mover-side win percentage |
| Chess6.Losses | failed_attempt/chess6.py:106-111 | one loss per ply, in ply order |
| Chess6.AnalyzeMoves | failed_attempt/chess6.py:63-144 | the move loop gives nothing when any move fails; otherwise every record, White's losses from the even plies and Black's from the odd plies |
| Chess6.OwnList | failed_attempt/chess6.py:80-126 | ply k's loss sits in its mover's list at position k / 2, and the two lists together hold one loss per ply |
| Chess6.Acpl | failed_attempt/chess6.py:148-157 | a side's average is missing exactly when that side has no losses |
| Chess6.AcplBounds | failed_attempt/chess6.py:149-157 | losses in [0, hi] centipawns give an average in [0, hi/100] pawns |
| Chess6.AcplMissing | failed_attempt/chess6.py:149-157 | White has no average exactly in a game without moves, Black exactly in a game of at most one move |
| Chess6.TypeErrorOnShortGames | failed_attempt/chess6.py:159-160 | as written, an analysed game raises TypeError exactly when it has fewer than two moves; otherwise the result is the corrected one |
| Chess6.OneMoveGameRaises | failed_attempt/chess6.py:159-160 | a concrete one-move game: the corrected analysis has no Black average and the code as written raises TypeError |
| Chess6.AnalyzeSingleGame | failed_attempt/chess6.py:37-169 | the whole function as written: nothing for a missing game, an engine that does not start or a failed move; ValueError for a bad Elo header; TypeError from the report of a short game |
| Chess6.AnalyzeSingleGameCorrected | failed_attempt/chess6.py:37-169 | the same function with a report that tolerates a missing average |
| Chess6.AnalyzeReporting | failed_attempt/chess6.py:42-169 | the shared body, switched between the two reports |
| FailedAnalysis.PlayerWinPercent | failed_attempt/analysis.py:94-100 | a move's win percentage from its mover's side lies in [0, 100] |
| FailedAnalysis.WinPercents | failed_attempt/analysis.py:44-103 | the history starts at 50 and gains one entry per move |
| FailedAnalysis.WinPercentsAt | failed_attempt/analysis.py:94-103 | history entry k + 1 is move k's win percentage from its mover's side |
| FailedAnalysis.Accuracies | failed_attempt/analysis.py:105-110 | one accuracy per move, each in [0, 100] |
| FailedAnalysis.AccuraciesAt | failed_attempt/analysis.py:106-107 | move k's accuracy compares history entry k with entry k + 1 |
| FailedAnalysis.Records | failed_attempt/analysis.py:120-126 | one record per move |
| FailedAnalysis.Colors | failed_attempt/analysis.py:60-111 | the colour list marks exactly the even plies as White's |
| FailedAnalysis.MovesStep | failed_attempt/analysis.py:50-131 | the lists after k + 1 moves are the lists after k moves extended by move k |
| FailedAnalysis.AnalyzeMoves | failed_attempt/analysis.py:50-136 | the move loop returns nothing at the first failed move, otherwise every list it fills, as the specification function gives them |
| FailedAnalysis.RecordMove | failed_attempt/analysis.py:82-126 | one loop body appends the move's loss to its mover's list and its win percentage, accuracy, colour and record to the others |
| FailedAnalysis.BaselineIsOpponentView | failed_attempt/analysis.py:94-107 | a move is compared with the previous move's win percentage from the previous mover's side, which is the opponent's side |
| FailedAnalysis.OpponentViewComplement | failed_attempt/analysis.py:94-107 | with a symmetric exponential, that opponent view is 100 minus the mover's own view of the same position |
| FailedAnalysis.WindowShape | failed_attempt/analysis.py:161-165 | every window holds between 2 and window size + 1 entries and ends with the entries just before and after its move |
| FailedAnalysis.WinPercentWindows | failed_attempt/analysis.py:161-165 | one window per history entry but the last; window i runs from max(0, i - size + 1) to i + 1 |
| FailedAnalysis.MoveWeights | failed_attempt/analysis.py:168-172 | each weight is its window's standard deviation clamped to [0.5, 12], so every weight lies in [0.5, 12] |
| FailedAnalysis.Weights | failed_attempt/analysis.py:161-172 | one weight per move, the clamped deviation of that move's window |
| FailedAnalysis.Pairs | failed_attempt/analysis.py:178-181 | pair i is move i's accuracy and weight |
| FailedAnalysis.SplitByColor | failed_attempt/analysis.py:178-185 | the grouping loop sends every pair to its mover's list, in move order |
| FailedAnalysis.PickParity | failed_attempt/analysis.py:178-185 | with alternating colours, White gets the pairs of the even moves and Black those of the odd moves |
| FailedAnalysis.PlayerAccuracy | failed_attempt/analysis.py:188-201 | a side without moves gets None; a side with moves gets a value unless the harmonic mean raises ZeroDivisionError |
| FailedAnalysis.PlayerAccuracyRange | failed_attempt/analysis.py:188-201 | accuracies in [0, 100] with non-negative weights give a side accuracy in [0, 100], and nothing raises |
| FailedAnalysis.SidesOf | failed_attempt/analysis.py:151-204 | after the loop nothing raises; White's accuracy is missing exactly in an empty game, Black's exactly in a game of at most one move; both lie in [0, 100] |
| FailedAnalysis.SideAccuracyMethod | failed_attempt/analysis.py:151-204 | the code after the move loop computes the specification's two side accuracies |
| FailedAnalysis.AnalyseAccuracyRange | failed_attempt/analysis.py:10-218 | the analysis never raises ZeroDivisionError, and both reported side accuracies lie in [0, 100] |
| FailedAnalysis.TypeErrorOnShortGames | failed_attempt/analysis.py:206-207 | as written, an analysed game raises TypeError exactly when it has fewer than two moves; otherwise the result is the corrected one |
| FailedAnalysis.OneMoveGameRaises | failed_attempt/analysis.py:206-207 | a concrete one-move game: the code as written raises TypeError, the corrected analysis returns a result |
| FailedAnalysis.AnalyzeSingleGame | failed_attempt/analysis.py:10-218 | the whole function as written: nothing for a missing game, an engine that does not start or a failed move; ValueError for a bad Elo header; TypeError from the report |
| FailedAnalysis.AnalyzeSingleGameCorrected | failed_attempt/analysis.py:10-218 | the same function with a report that tolerates missing values |
| FailedAnalysis.AnalyzeReporting | failed_attempt/analysis.py:14-218 | the shared body, switched between the two reports |
| LichessCode.CpToWinPercent | data_analysis/lichess_code.py:6-21 | the Lichess curve 50 + 50 * (2 / (1 + exp(-0.00368208 cp)) - 1) always lies in (0, 100] |
| LichessCode.SameCurveAsUtils | data_analysis/lichess_code.py:20 | on whole centipawns this is the curve of failed_attempt/utils.py |
| LichessCode.CurveSymmetric | data_analysis/lichess_code.py:20 | with an exponential that turns negation into a reciprocal, negating the score mirrors the percentage around 50 |
| LichessCode.GameWinPercents | data_analysis/lichess_code.py:49-53 | the game's win percentages, one per move, with the first prepended once more |
| LichessCode.WindowBounds | data_analysis/lichess_code.py:63-64 | window i always holds entries i - 1 and i, and never more than the window size |
| LichessCode.VolatilityWeights | data_analysis/lichess_code.py:44-73 | a game without rows fails with IndexError on `win_percents[0]`; otherwise one weight per move, each in [0.5, 12] |
| LichessCode.WindowHoldsMove | data_analysis/lichess_code.py:53-65 | each move's window holds the win percentages before and after that move |
| LichessCode.ComputeVolatilityWeights | data_analysis/lichess_code.py:49-73 | the loop over one game computes exactly the specification's weights |
| LichessCode.MoveAccuracy | data_analysis/lichess_code.py:112-115 | 103.1668 exp(-0.04354 d) - 3.1669 clipped to [0, 100] always lies in [0, 100] |
| LichessCode.AccuracyFalls | data_analysis/lichess_code.py:112-115 | with an increasing exponential, a larger drop never earns a higher accuracy |
| LichessCode.LastWinPercentIs | data_analysis/lichess_code.py:101 | the grouped shift is the win percentage of the latest earlier row of the same game; it is missing exactly when no earlier row belongs to that game |
| LichessCode.MoveAccuracies | data_analysis/lichess_code.py:85-116 | one set of columns per row, in frame order |
| LichessCode.FirstMoveOfGame | data_analysis/lichess_code.py:101-116 | the first row of a game compares the position with itself: a zero drop, so the accuracy is 103.1668 - 3.1669 when exp(0) = 1 |
| LichessCode.LaterMoveOfGame | data_analysis/lichess_code.py:101-106 | a later row compares with the latest earlier row of its own game, seen from this row's player's side |
| LichessCode.DropsOpposite | data_analysis/lichess_code.py:97-109 | for the same two positions, Black's drop is minus White's drop |
| LichessCode.BlackViewIsNegatedScore | data_analysis/lichess_code.py:97-98 | with a symmetric exponential, Black's view of a score is the curve at the negated score |
| LichessCode.ComputeMoveAccuracy | data_analysis/lichess_code.py:85-116 | the row-by-row assignments, with a map holding each game's latest win percentage, give exactly the specification's columns |
| LichessCode.NonZero | data_analysis/lichess_code.py:139 | no accuracy stays at zero; non-zero accuracies are kept; accuracies in [0, 100] end in (0, 100] |
| LichessCode.TotalAccuracyRange | data_analysis/lichess_code.py:133-150 | clipped accuracies with weights of at least 0.5 give a total accuracy that is defined and lies in [0, 100] |
| LichessCode.SummaryTable | data_analysis/lichess_code.py:236-266 | two rows per game: the game's White row at position 2i and its Black row at 2i + 1 |
| LichessCode.SummaryIsPermutation | data_analysis/lichess_code.py:252-266 | the summary holds exactly the rows of the concatenated White and Black frames |
| LichessCode.SummarySorted | data_analysis/lichess_code.py:263-266 | with game ids increasing, as grouping yields them, the summary is strictly sorted by (GameID, Player), White before Black |
| MakeMistakesTable.OutputNamesDistinct | data_analysis/make_mistakes_table.py:59-70 | two move blocks with the same flags write the same output file only when they are the same block (start and end) |
| MakeMistakesTable.OutputNameShape | data_analysis/make_mistakes_table.py:59-70 | an output name is the flag prefix, the start's digits, then `-` and the rest |
| MakeMistakesTable.RestInjective | data_analysis/make_mistakes_table.py:66-69 | what follows the start, `-end` or `-` alone, determines the end |
| MakeMistakesTable.ClassifyBrackets | data_analysis/make_mistakes_table.py:46-50 | with sorted edges, bin i gets exactly the sizes in [edge i, edge i + 1); a size below the first edge is skipped; from the last edge on, the labels run out |
| MakeMistakesTable.Bump | data_analysis/make_mistakes_table.py:50 | counting a row keeps its number of counters |
| MakeMistakesTable.BumpTotal | data_analysis/make_mistakes_table.py:43-50 | counting a row adds one to its total when the size falls in a bin, and nothing otherwise |
| MakeMistakesTable.FirstPast | data_analysis/make_mistakes_table.py:42-50 | the first row whose size runs past the labels: every row before it is countable |
| MakeMistakesTable.CountRows | data_analysis/make_mistakes_table.py:42-50 | the rows up to the given one are counted, in row order; the others are unchanged |
| MakeMistakesTable.Scan | data_analysis/make_mistakes_table.py:34-54 | the counters after the move scan; the scan ends at a missing move column or a size past the labels, keeping the counts made before the exception |
| MakeMistakesTable.Visited | data_analysis/make_mistakes_table.py:34-54 | the scan visits at most as many moves as the table has columns for |
| MakeMistakesTable.ScanTotals | data_analysis/make_mistakes_table.py:34-54 | every visited move adds at most one to a row's total, so no (row, move) pair counts twice |
| MakeMistakesTable.ScanFromZero | data_analysis/make_mistakes_table.py:31-54 | from zeroed counters, each counter ends at or below the number of visited moves |
| MakeMistakesTable.Zeros | data_analysis/make_mistakes_table.py:31-32 | one zero counter per label, on every row |
| MakeMistakesTable.MistakesByPlayer | data_analysis/make_mistakes_table.py:22-54 | zeroed counters, then the scan from `move_start`: exactly the specification's counters |
| MakeMistakesTable.CountMove | data_analysis/make_mistakes_table.py:40-52 | one move's pass over the rows raises exactly when some row runs past the labels, and counts the rows before that one |
| OldMakeMistakesTable.MistakeLabels | old_files/make_mistakes_table.py:10-13 | one "(a,b]" label per consecutive pair of edges |
| OldMakeMistakesTable.LabelRoundTrip | old_files/make_mistakes_table.py:12 | both edges can be read back from every label |
| OldMakeMistakesTable.SameInputAsLater | old_files/make_mistakes_table.py:18 | the block's input file is the training table of all moves that data_analysis/make_mistakes_table.py reads for the same block |
| OldMakeMistakesTable.SameOutputAsLater | old_files/make_mistakes_table.py:43 | the block's output file is the one data_analysis/make_mistakes_table.py writes for the same block and flags |
| OldMakeMistakesTable.OldScan | old_files/make_mistakes_table.py:26-40 | the counters after moves `move_start .. (i+5)//2 - 1`, or the KeyError or IndexError that ends the script |
| OldMakeMistakesTable.OldScanSucceeds | old_files/make_mistakes_table.py:26-40 | the block succeeds exactly when every one of its moves has its columns and no row's size reaches the last edge |
| OldMakeMistakesTable.OldScanTotals | old_files/make_mistakes_table.py:26-40 | without an exception, each row gains at most one count per move of the block |
| OldMakeMistakesTable.CountBlock | old_files/make_mistakes_table.py:17-40 | one block, zeroed counters and the move loop, computes exactly the specification's result |
| FunctionsAnal.ParityCountsPartition | data_analysis/functions_anal.py:16-42 | every move belongs to exactly one side, and White has as many moves as Black or one more |
| FunctionsAnal.NanSumAppend | data_analysis/functions_anal.py:10-31 | adding a value to a sum gives NaN as soon as either is NaN |
| FunctionsAnal.SideMean | data_analysis/functions_anal.py:3-35 | a side's mean evaluation can fail only with IndexError |
| FunctionsAnal.SideMeanRaises | data_analysis/functions_anal.py:7-31 | the mean raises IndexError exactly when one of the side's own indices below the number of moves has no evaluation |
| FunctionsAnal.SideMeanNoMoves | data_analysis/functions_anal.py:11-33 | a side without moves gets the -100 marker; White has none only in an empty game, Black only in a game of at most one move |
| FunctionsAnal.SideMeanBounds | data_analysis/functions_anal.py:3-35 | when the side's own evaluations all lie in [lo, hi], the mean is a number in [lo, hi] |
| FunctionsAnal.NanSumBounds | data_analysis/functions_anal.py:10-31 | without NaN, a sum of n values in [lo, hi] lies in [n lo, n hi] |
| FunctionsAnal.SideMeanDefined | data_analysis/functions_anal.py:7-31 | with at least as many evaluations as moves, neither mean raises |
| FunctionsAnal.MovesWhite | data_analysis/functions_anal.py:16-22 | White's move count is the number of even indices below the number of moves |
| FunctionsAnal.MovesBlack | data_analysis/functions_anal.py:37-42 | Black's move count is the number of odd indices below the number of moves |
| FunctionsAnal.SideAverage | data_analysis/functions_anal.py:3-35 | the loop shared by both averages computes exactly the specification's mean, IndexError included |
| FunctionsAnal.WhiteAvgEvaluation | data_analysis/functions_anal.py:3-14 | White's mean is the side mean over the even indices |
| FunctionsAnal.BlackAvgEvaluation | data_analysis/functions_anal.py:24-35 | Black's mean is the side mean over the odd indices |
| AnalGames.RunEnd | data_analysis/anal_games.py:49-59 | the run that starts at a row ends between that row and the end of the table |
| AnalGames.RunEndSpec | data_analysis/anal_games.py:49 | every row of the run has the start row's GameID, and the run stops at the first row with another one (NaN equals nothing) |
| AnalGames.ConvertToken | data_analysis/anal_games.py:52-58 | an evaluation cell is dropped exactly when it is text that is not a number and starts with neither '-' nor 'M' |
| AnalGames.Evaluations | data_analysis/anal_games.py:52-58 | a run never has more evaluations than rows |
| AnalGames.EvaluationsComplete | data_analysis/anal_games.py:52-58 | a run without dropped cells has one evaluation per row, in row order |
| AnalGames.Moves | data_analysis/anal_games.py:51 | one move per row of the run, in row order |
| AnalGames.ApplyAllKeeps | data_analysis/anal_games.py:64-65 | applying the functions adds exactly their names as keys and changes nothing else in the game |
| AnalGames.ApplyFunctions | data_analysis/anal_games.py:64-65 | the loop applies the functions in list order, each seeing the results of those before it, and stops at the first exception |
| AnalGames.ReadGame | data_analysis/anal_games.py:6-71 | the cursor stops where the start row's run ends; a game without both FIDE ids is None, with its run consumed all the same; an accepted game carries the run's moves and evaluations and the start row's fields |
| AnalGames.RunGrows | data_analysis/anal_games.py:49-59 | one more row of the run appends its move, and its evaluation unless the cell is dropped |
| AnalGames.AcceptedShape | data_analysis/anal_games.py:28-67 | an accepted game has one move per row of its run, at most as many evaluations, and the start row's GameID and metadata |
| AnalGames.StepShape | data_analysis/anal_games.py:6-71 | a successful read never moves the cursor back, and any game it returns was read from the start row |
| AnalGames.ReadStep | data_analysis/anal_games.py:6-71 | a successful `read_game` step never moves the cursor back and stops within the table |
| AnalGames.ScanFile | data_analysis/anal_games.py:104-111 | the loop's result is the specified scan: every reached accepted game in order, rejected runs skipped, one row skipped after each run, and the first raising function's error |
| AnalGames.ScanShape | data_analysis/anal_games.py:104-111 | the games of a successful scan were read from their own start rows at or after the cursor, in table order, with runs that do not overlap |
| AnalGames.ScanStarts | data_analysis/anal_games.py:104-111 | every game of a successful scan was read from its own start row, with one move per row of its run, at or after the cursor |
| AnalGames.ScanOrdered | data_analysis/anal_games.py:104-111 | each game of a successful scan ends before the next one starts, because the cursor skips past each run |
| AnalGames.ApplyAllTotal | data_analysis/anal_games.py:64-65 | functions that never raise always let the feature pass finish |
| AnalGames.ScanTotal | data_analysis/anal_games.py:104-111 | the scan fails only through a configured function: with functions that never raise it always succeeds |
| AnalGames.ScanAllRejected | data_analysis/anal_games.py:104-111 | a table whose every start row lacks a FIDE id yields no games |
| WinningChances.GetOutcome | data_analysis/winning_chances.py:8-16 | an outcome exactly for "1-0", "0-1" and "1/2-1/2" |
| WinningChances.OutcomeNumber | data_analysis/winning_chances.py:18-26 | every outcome number is below 3 |
| WinningChances.GetOutcomeNum | data_analysis/winning_chances.py:18-26 | every number returned is below 3 |
| WinningChances.OutcomeNumAgrees | data_analysis/winning_chances.py:8-26 | the number is that of the named outcome, both functions reject the same results, and each number belongs to exactly one result: win 0, loss 1, draw 2 |
| WinningChances.NumberingDiffers | data_analysis/winning_chances.py:18-26 | this file numbers loss and draw the other way round from winning_chances_util.py; win is 0 in both |
| WinningChances.ConvertCases | data_analysis/winning_chances.py:69-81 | "-M0" gives 0 because the mate-in-0 test comes first; other "-M…" texts give -20; "+M…" and "M…" give 20; every other text is parsed |
| WinningChances.ValidSplit | data_analysis/winning_chances.py:105-111 | the valid games split into wins, draws and losses |
| WinningChances.ChancesSum | data_analysis/winning_chances.py:113-122 | an empty window gives 0, 0, 0; otherwise the three chances are non-negative and add up to 100 |
| WinningChances.GameCountsOnce | data_analysis/winning_chances.py:99-102 | a game counts once per window: another row of a game already present changes nothing |
| WinningChances.RepeatedRowGames | data_analysis/winning_chances.py:96-99 | a repeated row adds no new game to the window |
| WinningChances.RepeatedRowResults | data_analysis/winning_chances.py:102 | a repeated row adds no new (game, result) pair |
| WinningChances.EdgeInBothIntervals | data_analysis/winning_chances.py:96 | the window is closed at both ends: a position exactly on an edge puts its game in both neighbouring intervals |
| WinningChances.RoundedTenths | data_analysis/winning_chances.py:139 | rounding keeps one value per interval edge |
| WinningChances.ChanceRows | data_analysis/winning_chances.py:159-175 | one row per consecutive pair of edges, in order, each with that interval's label and chances |
| WinningChances.ComputeWinningChanceTable | data_analysis/winning_chances.py:126-180 | exactly len(intervals) + 1 rows, row i for the edges i and i + 1 |
| WinningChances.TableRowShape | data_analysis/winning_chances.py:143-175 | every row carries its interval's "(-∞, u]", "(l, u]" or "(l, ∞)" label, and chances that are all zero or add up to 100 |
| WinningChances.Inner | data_analysis/winning_chances.py:30-32 | the inner counts are `count_games[1:-2]`: entry p is column p + 1 |
| WinningChances.Thirds | data_analysis/winning_chances.py:46 | three rows of the array's width with every cell 1/3 |
| WinningChances.Xs | data_analysis/winning_chances.py:41 | `bins[1:]` stays sorted |
| WinningChances.InnerValues | data_analysis/winning_chances.py:41 | the interpolated inner row has one value per inner column |
| WinningChances.MixedRow | data_analysis/winning_chances.py:41-43 | the inner cells interpolated, then column 1 copied to column 0 and column -2 to column -1 |
| WinningChances.TrustedAll | data_analysis/winning_chances.py:30 | when every count exceeds 100, every index is trusted |
| WinningChances.SmoothThirds | data_analysis/winning_chances.py:28-48 | a smoothing that does not raise keeps three rows of the array's width |
| WinningChances.MixedRows | data_analysis/winning_chances.py:36-43 | the mixed case keeps three rows of the array's width |
| WinningChances.SmoothNoTrusted | data_analysis/winning_chances.py:30-46 | when no inner bin exceeds 100 games, every cell becomes 1/3, whatever the bins |
| WinningChances.SmoothAllTrusted | data_analysis/winning_chances.py:36-46 | when every inner bin is trusted, nothing changes |
| WinningChances.SmoothShapedNeverRaises | data_analysis/winning_chances.py:41 | when `bins` has two fewer edges than the array has columns, the interpolation fits and nothing raises |
| WinningChances.MixedCase | data_analysis/winning_chances.py:36 | trusted and untrusted inner bins together put the smoother in its mixed case |
| WinningChances.SmoothIsMixed | data_analysis/winning_chances.py:36-43 | in the mixed case, a result that does not raise is the interpolated rows with copied end columns |
| WinningChances.InnerValuesSum | data_analysis/winning_chances.py:41 | interpolating three rows whose trusted inner cells sum to 100 gives inner cells that sum to 100 |
| WinningChances.TrustedInnerCells | data_analysis/winning_chances.py:30-41 | the trusted inner columns are the array's trusted columns, shifted by one |
| WinningChances.MixedRowsSums | data_analysis/winning_chances.py:36-43 | when the trusted inner columns and column -2 sum to 100, every column of the mixed-case rows does |
| WinningChances.TrustedInnerSums | data_analysis/winning_chances.py:30-41 | the listed trusted inner columns are the array's columns above 100 games |
| WinningChances.Grid | data_analysis/winning_chances.py:28 | the (3, n) array read as three rows, cell for cell |
| WinningChances.SetInner | data_analysis/winning_chances.py:41 | row j's inner cells get the interpolated values; every other cell keeps its value |
| WinningChances.CopyEnds | data_analysis/winning_chances.py:42-43 | column 0 gets column 1 and column -1 gets column -2; every other cell keeps its value |
| WinningChances.FillThirds | data_analysis/winning_chances.py:46 | every cell of the array becomes 1/3 |
| WinningChances.SmoothMixedInPlace | data_analysis/winning_chances.py:37-43 | the array afterwards holds the mixed-case rows of the array before |
| WinningChances.SmoothLines | data_analysis/winning_chances.py:28-48 | the array is changed in place to the specification's result; a raised error leaves it as it was |
| WinningChances.WinningChancePerPly | data_analysis/winning_chances.py:50-54 | with one evaluation per move, ply p reads the left-closed evaluation bin of its own evaluation at move bin p // bin_moves, and a table with a row per bin and columns for every move bin never raises |
| WinningChances.WinningChanceMismatch | data_analysis/winning_chances.py:54 | index arrays whose lengths do not broadcast raise IndexError |
| WinningChancesUtil.ResultText | data_analysis/winning_chances_util.py:10-13 | the classified text is the string itself or the first element of a list; an empty list or a value that cannot be indexed raises |
| WinningChancesUtil.GetOutcome | data_analysis/winning_chances_util.py:9-21 | raises exactly when the text cannot be extracted; an outcome is returned only for "1-0", "0-1" and "1/2-1/2" |
| WinningChancesUtil.OutcomeIndex | data_analysis/winning_chances_util.py:24-25 | every outcome has a table row below 3 |
| WinningChancesUtil.GetOutcomeNum | data_analysis/winning_chances_util.py:23-39 | raises exactly when the text cannot be extracted; a returned row number is below 3 |
| WinningChancesUtil.OutcomeNumAgrees | data_analysis/winning_chances_util.py:9-39 | the numeric classifier returns the row of the outcome the named classifier gives, and both fail or reject the same results |
| WinningChancesUtil.OutcomeNumInverse | data_analysis/winning_chances_util.py:32-39 | row 0, 1 and 2 are returned exactly for "1-0", "1/2-1/2" and "0-1" |
| WinningChancesUtil.Edges | data_analysis/winning_chances_util.py:195 | the edges are the intervals framed by -inf and inf, two more than the intervals |
| WinningChancesUtil.Labels | data_analysis/winning_chances_util.py:238-248 | there is one label per bin, one more than the intervals |
| WinningChancesUtil.BuildLabels | data_analysis/winning_chances_util.py:238-248 | the label loop produces the label of every pair of consecutive edges, in order |
| WinningChancesUtil.ParseUpperEdges | data_analysis/winning_chances_util.py:331-333 | a successful read gives one edge per label |
| WinningChancesUtil.UpperEdges | data_analysis/winning_chances_util.py:330-333 | a successful read gives one edge per label except the last |
| WinningChancesUtil.LabelShape | data_analysis/winning_chances_util.py:242-247 | a label with a finite upper edge is its lower part, a comma, then " upper]" |
| WinningChancesUtil.UpperEdgeOfLabel | data_analysis/winning_chances_util.py:238-333 | each label with a finite upper edge reads back as that edge |
| WinningChancesUtil.ParsePrefix | data_analysis/winning_chances_util.py:331-333 | labels that each read back as an edge read back, as a list, as those edges |
| WinningChancesUtil.LabelsRoundTrip | data_analysis/winning_chances_util.py:238-333 | the reader recovers exactly the intervals from the labels the builder writes, when printed edges hold no comma and parse back |
| WinningChancesUtil.TableFiles | data_analysis/winning_chances_util.py:308-314 | one file for 'all', otherwise one file per bin start |
| WinningChancesUtil.DigitsHoldNoPunctuation | data_analysis/winning_chances_util.py:313-314 | a printed bin start holds none of the separators the reader splits at |
| WinningChancesUtil.TableNameShape | data_analysis/winning_chances_util.py:280-314 | a table name splits into prefix, the bin start, a dash, the next start and the extension |
| WinningChancesUtil.BinStartRoundTrip | data_analysis/winning_chances_util.py:313-325 | reading a table file name back gives the first move of its bin |
| WinningChancesUtil.CountPositive | data_analysis/winning_chances_util.py:628-629 | the number of rows with a positive count is at most the number of rows |
| WinningChancesUtil.CountPositiveExtremes | data_analysis/winning_chances_util.py:628-629 | every row counts exactly when all rows are positive, and none counts exactly when none is |
| WinningChancesUtil.ShareBounds | data_analysis/winning_chances_util.py:632 | a share in percent lies in [0, 100] and is 100 or 0 only with all or none |
| WinningChancesUtil.MistakePercentage | data_analysis/winning_chances_util.py:609-634 | fails exactly for a missing column (ValueError) or an empty table (ZeroDivisionError); otherwise the percentage lies in [0, 100] and is 100 or 0 exactly when all or no games have a positive count |
| WinningChancesUtil.StartsUpTo | data_analysis/winning_chances_util.py:227 | digitize on move starts gives at most the number of starts |
| WinningChancesUtil.MoveBin | data_analysis/winning_chances_util.py:224-227 | a ply's move column is within the tensor's move axis |
| WinningChancesUtil.StartsUpToFirst | data_analysis/winning_chances_util.py:227 | a ply at or past the first start is counted past at least one start |
| WinningChancesUtil.MoveBinNotWrapped | data_analysis/winning_chances_util.py:227 | with starts beginning at 0 no ply lands in the extra last column that -1 would index |
| WinningChancesUtil.EvalBin | data_analysis/winning_chances_util.py:223 | an evaluation's bin is at most the number of intervals |
| WinningChancesUtil.AcceptedRow | data_analysis/winning_chances_util.py:218-220 | a counted game has a row below 3 and at least one evaluation per move |
| WinningChancesUtil.HitsIn | data_analysis/winning_chances_util.py:222-231 | a game's plies in one cell are at most the plies looked at |
| WinningChancesUtil.HitsStep | data_analysis/winning_chances_util.py:212-231 | one more game adds exactly its own hits to each cell and to each count |
| WinningChancesUtil.HitsSum | data_analysis/winning_chances_util.py:230-231 | before normalisation the three outcome counts of a cell add up to the cell's count |
| WinningChancesUtil.AddGame | data_analysis/winning_chances_util.py:222-231 | each cell of the game's outcome row and each count cell grows by the game's plies in that cell, and nothing else changes |
| WinningChancesUtil.CountGame | data_analysis/winning_chances_util.py:218-231 | succeeds exactly when the game does not raise, and then adds that game's hits to every cell |
| WinningChancesUtil.Tally | data_analysis/winning_chances_util.py:204-231 | succeeds exactly when no game raises, and then every cell holds the specified count over all games |
| WinningChancesUtil.Normalise | data_analysis/winning_chances_util.py:233-235 | cells with a positive count become percentages of that count; the others keep the uninitialised value |
| WinningChancesUtil.PercentagesSum | data_analysis/winning_chances_util.py:235 | counts adding up to a positive total become percentages adding up to 100 |
| WinningChancesUtil.SetColumn | data_analysis/winning_chances_util.py:61-68 | writing one column keeps the three rows' width |
| WinningChancesUtil.ForceCount | data_analysis/winning_chances_util.py:58-68 | both end bins end above 100 games; an under-sampled end bin gets 101 and every other count is kept |
| WinningChancesUtil.ForceEnds | data_analysis/winning_chances_util.py:59-68 | forcing the ends keeps the three rows' width |
| WinningChancesUtil.Trusted | data_analysis/winning_chances_util.py:69 | exactly the columns with more than 100 games, in increasing order |
| WinningChancesUtil.Knots | data_analysis/winning_chances_util.py:71-72 | the x-coordinates are the bins with the first one repeated in front |
| WinningChancesUtil.Pick | data_analysis/winning_chances_util.py:78 | fancy indexing picks exactly the listed entries |
| WinningChancesUtil.KnotsSorted | data_analysis/winning_chances_util.py:71-72 | increasing bins give increasing x-coordinates |
| WinningChancesUtil.PickSorted | data_analysis/winning_chances_util.py:78 | picking increasing indices of increasing values gives increasing values |
| WinningChancesUtil.InterpRow | data_analysis/winning_chances_util.py:77-78 | the interpolated row has one value per column |
| WinningChancesUtil.SmoothRows | data_analysis/winning_chances_util.py:41-91 | smoothing keeps the three rows' width |
| WinningChancesUtil.ForceAgrees | data_analysis/winning_chances_util.py:59-68 | a trusted column keeps its values, an under-sampled first bin holds (0, 5, 95), an under-sampled last bin (95, 5, 0), and the rest are kept |
| WinningChancesUtil.NoFallback | data_analysis/winning_chances_util.py:59-89 | after forcing at least one column is trusted, so the all-under-sampled fallback never runs |
| WinningChancesUtil.SmoothSums | data_analysis/winning_chances_util.py:58-78 | when every trusted column sums to 100, every smoothed column does too |
| WinningChancesUtil.TrustedFull | data_analysis/winning_chances_util.py:69-76 | when every column is listed as trusted, each one is |
| WinningChancesUtil.TrustedCount | data_analysis/winning_chances_util.py:69-76 | the trusted list is as long as the columns only when every column is trusted |
| WinningChancesUtil.ForceEndsAgree | data_analysis/winning_chances_util.py:59-68 | values that agree on the trusted columns still agree there after forcing |
| WinningChancesUtil.Rows3Equal | data_analysis/winning_chances_util.py:47 | three rows of equal width that agree cell by cell are equal |
| WinningChancesUtil.AgreeEverywhere | data_analysis/winning_chances_util.py:69-76 | when every column is trusted, values agreeing on trusted columns are equal |
| WinningChancesUtil.AllTrusted | data_analysis/winning_chances_util.py:69-76 | when the trusted list covers every column, every forced count is above 100 |
| WinningChancesUtil.AllTrustedAgree | data_analysis/winning_chances_util.py:59-76 | with every column trusted, values agreeing on trusted columns are forced alike |
| WinningChancesUtil.SmoothIgnoresUntrusted | data_analysis/winning_chances_util.py:58-78 | the smoothed values do not depend on under-sampled columns, so uninitialised cells from the normalisation never show |
| WinningChancesUtil.Slice | data_analysis/winning_chances_util.py:255-271 | the slice of a move column holds that column's cells |
| WinningChancesUtil.Column | data_analysis/winning_chances_util.py:255-271 | the counts of a move column are that column's cells |
| WinningChancesUtil.ForcedCells | data_analysis/winning_chances_util.py:59-68 | rows and counts forced cell by cell are the forced rows and counts |
| WinningChancesUtil.ForceSlice | data_analysis/winning_chances_util.py:58-68 | the end bins of one move column are forced in the tensor and, through the alias, in the counts; other columns are untouched |
| WinningChancesUtil.SmoothSlice | data_analysis/winning_chances_util.py:41-91 | one move column becomes its smoothed values, its counts become the forced counts, and every other column is untouched |
| WinningChancesUtil.SetSlice | data_analysis/winning_chances_util.py:77-78 | the move column takes the given rows and every other column is untouched |
| WinningChancesUtil.TableCount | data_analysis/winning_chances_util.py:252-283 | one table per file name, never more than the tensor's move columns |
| WinningChancesUtil.Rounded | data_analysis/winning_chances_util.py:194 | every bin is the rounded interval edge |
| WinningChancesUtil.PercentRows | data_analysis/winning_chances_util.py:233-235 | the rows of a move column hold each cell's percentage |
| WinningChancesUtil.Totals | data_analysis/winning_chances_util.py:231-277 | the counts of a move column are the games' plies in each cell |
| WinningChancesUtil.Tabulated | data_analysis/winning_chances_util.py:250-283 | one table per move bin, each saved to its own file |
| WinningChancesUtil.WinningChanceTables | data_analysis/winning_chances_util.py:180-285 | a successful run gives one table per move bin |
| WinningChancesUtil.CountAndNormalise | data_analysis/winning_chances_util.py:204-235 | succeeds exactly when no game raises, and then every cell holds its percentage and every count its total |
| WinningChancesUtil.Columns | data_analysis/winning_chances_util.py:253-269 | every move column is read as its values and its counts |
| WinningChancesUtil.TablesOf | data_analysis/winning_chances_util.py:266-283 | one written table per file |
| WinningChancesUtil.EmitTable | data_analysis/winning_chances_util.py:269-283 | the written table is the table of the column as it was before smoothing; other columns are untouched |
| WinningChancesUtil.EmitTables | data_analysis/winning_chances_util.py:266-283 | the output loop writes the tables of the move columns as they stood when the loop began |
| WinningChancesUtil.TablesOfCounted | data_analysis/winning_chances_util.py:204-283 | the tables read off freshly counted and normalised tensors are the specified ones |
| WinningChancesUtil.ComputeWinningChanceTable | data_analysis/winning_chances_util.py:180-285 | the result is the specified list of tables, or the error of the counting or smoothing that raises |
| WinningChancesUtil.PercentSums | data_analysis/winning_chances_util.py:230-235 | a cell with games holds percentages that add up to 100 |
| WinningChancesUtil.ColumnTableRows | data_analysis/winning_chances_util.py:254-277 | a column table has one row per label, its TotalGames column, and chances adding up to 100 |
| WinningChancesUtil.TableRows | data_analysis/winning_chances_util.py:180-285 | every table goes to its file, has one row per label, shows the forced counts when smoothed, and its three chances add up to 100 when smoothed or when the bin has games |
| WinningChancesUtil.PyIndex | data_analysis/winning_chances_util.py:385-386 | Python indexing succeeds exactly in [-len, len) and a negative index counts from the end |
| WinningChancesUtil.MoveRow | data_analysis/winning_chances_util.py:380-383 | a ply's table row is 0 with one table, otherwise at least -1 |
| WinningChancesUtil.Chances | data_analysis/winning_chances_util.py:378-386 | a successful lookup gives one pair of chances per ply |
| WinningChancesUtil.ChancesLookups | data_analysis/winning_chances_util.py:378-386 | the lookup succeeds exactly when every ply's lookup does, and then gives those lookups |
| WinningChancesUtil.ChancesStop | data_analysis/winning_chances_util.py:378-386 | once one ply's lookup raises, the loop raises that same error |
| WinningChancesUtil.KindsDiffer | data_analysis/winning_chances_util.py:395-405 | the WCL and LCL keys of a move differ |
| WinningChancesUtil.LookUpChances | data_analysis/winning_chances_util.py:376-386 | reports the error of the first failing lookup, otherwise fills both arrays with the looked-up chances |
| WinningChancesUtil.DeltasWhite | data_analysis/winning_chances_util.py:398-402 | an even ply after the first adds White's two entries |
| WinningChancesUtil.DeltasBlack | data_analysis/winning_chances_util.py:403-405 | an odd ply adds Black's two entries, in either order |
| WinningChancesUtil.DeltaDict | data_analysis/winning_chances_util.py:389-405 | the dictionary is the specified per-ply change dictionary |
| WinningChancesUtil.Differences | data_analysis/winning_chances_util.py:389-390 | each entry is the change from one value to the next, one fewer than the values |
| WinningChancesUtil.WinChanceIncrease | data_analysis/winning_chances_util.py:356-407 | returns the specified changes: None outside the move window, the lookup error, or the change dictionary |
| WinningChancesUtil.KeyInjective | data_analysis/winning_chances_util.py:395-405 | keys are equal only when side, kind and move number agree |
| WinningChancesUtil.PlyKeysDiffer | data_analysis/winning_chances_util.py:397-405 | different plies write different keys |
| WinningChancesUtil.DeltasKeys | data_analysis/winning_chances_util.py:393-405 | every key is the WCL or LCL key of one handled ply |
| WinningChancesUtil.InUpdates | data_analysis/winning_chances_util.py:401-405 | a key of a twice-updated dictionary was written or was already there |
| WinningChancesUtil.DeltasFirst | data_analysis/winning_chances_util.py:394-396 | the first move's WCL and LCL entries stay 0 |
| WinningChancesUtil.UpdatesKeep | data_analysis/winning_chances_util.py:401-405 | writing other keys leaves an entry as it was |
| WinningChancesUtil.FirstKeysUntouched | data_analysis/winning_chances_util.py:395-405 | no later ply writes the first move's keys |
| WinningChancesUtil.DeltasEntries | data_analysis/winning_chances_util.py:397-405 | each handled ply leaves its change in win and loss chance under its mover's move number |
| WinningChancesUtil.DeltasSize | data_analysis/winning_chances_util.py:393-405 | the dictionary holds exactly two entries per ply, so no write overwrites another |
| WinningChancesUtil.NewPlyKey | data_analysis/winning_chances_util.py:397-405 | a ply's keys are not yet in the dictionary of the plies before it |
| WinningChancesUtil.IncreaseOutcome | data_analysis/winning_chances_util.py:373-386 | a game is skipped exactly outside the move window, and raises exactly when some ply's lookup raises |
| WinningChancesUtil.IncreaseEntries | data_analysis/winning_chances_util.py:356-407 | in a kept game each ply leaves the change between the chances looked up after it and before it |
| Attempt2Chess3.AnalyzeGame | chess_attempt_2/chess3.py:20-92 | a result exists exactly when the game parses and every ply is scored by a ready engine; it holds the header information, the CPLs of the even plies for White and of the odd plies for Black, and their plain means |
| Attempt2Chess3.ListingUpTo | chess_attempt_2/chess3.py:144-151 | after i rounds the listing holds one line per move of either side among the first i |
| Attempt2Chess3.ListCpls | chess_attempt_2/chess3.py:142-151 | the listing has one line per CPL of either side, numbered 1, 2, ... in order |
| Attempt2Chess3.ListRound | chess_attempt_2/chess3.py:146-151 | one round adds White's line if White had that move, then Black's, and advances the counter |
| Attempt2Chess3.ListingNumbers | chess_attempt_2/chess3.py:144-151 | the listing numbers its lines 1, 2, ... in order |
| Attempt2Chess3.ListingPrefix | chess_attempt_2/chess3.py:63-151 | after i rounds the listing is the per-ply lines of the first 2i plies |
| Attempt2Chess3.ListingRecoversPlies | chess_attempt_2/chess3.py:63-151 | listing the split lists gives the plies back in order: line k is move k+1, by the side to move at ply k, with ply k's CPL |
| Attempt2Csv.MoveRows | chess_attempt_2/analyze_to_csv.py:208-222 | one data row per move of the game |
| Attempt2Csv.GameRowsAt | chess_attempt_2/analyze_to_csv.py:205-226 | a game contributes its move rows, with the rounded mean of the two averages as ACPL, followed by its separator |
| Attempt2Csv.AppendGame | chess_attempt_2/analyze_to_csv.py:208-226 | the rows grow by the game's move rows and its separator, in order |
| Attempt2Csv.BuildRows | chess_attempt_2/analyze_to_csv.py:180-226 | the rows are the assembly of the successful results, numbered 1, 2, ... skipping failures |
| Attempt2Csv.AddResult | chess_attempt_2/analyze_to_csv.py:183-226 | a failure leaves rows and GameID as they were; a success takes the next GameID and appends its rows |
| Attempt2Csv.RowWidths | chess_attempt_2/analyze_to_csv.py:209-245 | every data row and separator has as many fields as the header |
| Attempt2Csv.MetadataOnFirstRow | chess_attempt_2/analyze_to_csv.py:209-226 | every row carries the GameID, only a game's first row carries names, ratings, year, opening, variation and ACPL, and the separator carries the next GameID |
| Attempt3Analyzer.PlyCpls | chess_attempt_3/analyzer.py:56-70 | one loss per ply, each the converted loss of that ply's scores |
| Attempt3Analyzer.Listing | chess_attempt_3/analyzer.py:98-105 | one listed move per played move |
| Attempt3Analyzer.ListingRecoversPly | chess_attempt_3/analyzer.py:76-105 | with Black's list holding the even plies and White's the odd ones, every listed move carries the loss of its own ply |
| Attempt3Analyzer.AnalyzeGame | chess_attempt_3/analyzer.py:7-114 | a result exists exactly when the game parses and every ply is scored by a ready engine; it holds the header information, move k+1 with its SAN and its own loss, White's rounded mean over the odd plies and Black's over the even plies |
| Attempt2Terminal.AnalyzeGame | chess_attempt_2/analyze_to_terminal.py:24-107 | a result exists exactly when the game parses and every ply is scored by a ready engine; it holds the header information, move k+1 with its SAN and its own loss, and the plain means of the even plies for White and the odd plies for Black |
| Attempt2Terminal.Simplified | chess_attempt_2/analyze_to_terminal.py:187-190 | one simplified line per move |
| Attempt2Terminal.BuildOutput | chess_attempt_2/analyze_to_terminal.py:151-193 | the output is one record per successful result, numbered by submission position, with the per-move list only when asked for |
| Attempt2Terminal.OutputNumbering | chess_attempt_2/analyze_to_terminal.py:153-193 | one record per success, each numbered by the 1-based position of a successful result, in strictly increasing order |
| Attempt2Test.MoveRows | chess_attempt_2/test.py:193-204 | one data row per move of the game |
| Attempt2Test.GameRowsAt | chess_attempt_2/test.py:190-208 | a game contributes its move rows, with the rounded mean of the two averages as ACPL, followed by its separator |
| Attempt2Test.AppendGame | chess_attempt_2/test.py:193-208 | the rows grow by the game's move rows and its separator, in order |
| Attempt2Test.BuildRows | chess_attempt_2/test.py:169-208 | the rows are the assembly of the results in completion order, each numbered by its position |
| Attempt2Test.AddResult | chess_attempt_2/test.py:172-208 | every result advances the GameID; a success appends its rows under that GameID |
| Attempt2Test.RowWidths | chess_attempt_2/test.py:194-214 | every data row and separator has as many fields as the header |
| Attempt2Test.FailuresUseIds | chess_attempt_2/test.py:173-179 | a failed analysis writes no rows but still uses up a GameID: the rows of the result at position i carry GameID i + 1 |
| Attempt3Main.NumWorkers | chess_attempt_3/main.py:72-73 | the worker count is the least of the CPUs, the games and 18, and at least one when there are CPUs and games |
| Attempt3Main.MoveRows | chess_attempt_3/main.py:122-137 | one data row per move of the game |
| Attempt3Main.AppendGame | chess_attempt_3/main.py:122-141 | the rows grow by the game's move rows and its separator, in order |
| Attempt3Main.BuildRows | chess_attempt_3/main.py:93-143 | the rows are the assembly of the successful results, numbered 1, 2, ... skipping failures |
| Attempt3Main.AddResult | chess_attempt_3/main.py:96-143 | a failure leaves rows and GameID as they were; a success takes the next GameID and appends its rows |
| Attempt3Main.RowWidths | chess_attempt_3/main.py:123-164 | data rows are as wide as the 13-field header, and separators one field narrower |
| Attempt3Main.HeaderRow | chess_attempt_3/main.py:150-164 | the header row holds the 13 column names in order |
| Attempt3Main.AnalyzeFile | chess_attempt_3/main.py:36-170 | a CSV is written exactly when the file reads, holds games, and neither the pool nor the write raises; it is the header followed by the rows of the games' results |
| Attempt3Main.ProcessFiles | chess_attempt_3/main.py:185-204 | one analysis per listed file that exists, in order, each with its output path |
| Attempt3Main.OutputName | chess_attempt_3/main.py:191-194 | the CSV of a PGN file is named after its stem and sits directly in the output directory |
| Attempt3Main.OutputCollision | chess_attempt_3/main.py:191-194 | two PGN files write the same CSV exactly when their stems agree |
| Attempt3Main.JobsCoverPresent | chess_attempt_3/main.py:185-204 | every job is a listed existing file with its output path, and every listed existing file gets a job |
| Attempt4Analyzer.AnalyzeGame | chess_attempt_4/analyzer.py:7-131 | a result exists exactly when the game parses and every ply is analysed by a ready engine; it holds the header information, one record per ply with its number, SAN, mate-aware loss and White-side evaluation, White's rounded mean over the even plies and Black's over the odd plies |
| Attempt4Analyzer.OwnMovesAttribution | chess_attempt_4/analyzer.py:77-81 | White's list holds exactly the losses of the even plies and Black's those of the odd plies, each at its move's position |
| Attempt5Analyzer.AnalyzeGame | chess_attempt_5/analyzer.py:7-100 | a result exists exactly when the game parses and every ply is scored by a ready engine; it holds the header information, the Result header, and one record per ply with its number, SAN and the White-side evaluation of the position after it |
| Attempt5Main.NumWorkers | chess_attempt_5/main.py:77-79 | the worker count is the least of the CPUs, the games and 10, and at least one when there are CPUs and games |
| Attempt5Main.Separator | chess_attempt_5/main.py:154 | the separator is twelve empty fields |
| Attempt5Main.MoveRows | chess_attempt_5/main.py:135-151 | one data row per move of the game |
| Attempt5Main.AppendGame | chess_attempt_5/main.py:135-154 | the rows grow by the game's move rows and the separator, in order |
| Attempt5Main.BuildRows | chess_attempt_5/main.py:107-156 | the rows are the assembly of the successful results, numbered 1, 2, ... skipping failures |
| Attempt5Main.AddResult | chess_attempt_5/main.py:110-154 | a failure leaves rows and GameID as they were; a success takes the next GameID and appends its rows |
| Attempt5Main.RowWidths | chess_attempt_5/main.py:136-178 | data rows are as wide as the 14-field header and separators have 12 fields |
| Attempt5Main.ResultOnFirstRow | chess_attempt_5/main.py:123-150 | a game's result is written on its first row only, "Unknown" as empty text, the FIDE id columns stay empty, and every row carries the GameID and its move number |
| Attempt5Main.HeaderRow | chess_attempt_5/main.py:163-178 | the header row holds the 14 column names in order |
| Attempt5Main.AnalyzeFile | chess_attempt_5/main.py:41-184 | a CSV is written exactly when the file reads, holds games, and neither the pool nor the write raises; it is the header followed by the rows of the games' results |
| Attempt5Main.ProcessFiles | chess_attempt_5/main.py:199-223 | the loop's jobs and output files are those of the specified run |
| Attempt5Main.RunKeepsExisting | chess_attempt_5/main.py:199-223 | a run keeps every CSV that existed before it |
| Attempt5Main.RunJobsNew | chess_attempt_5/main.py:199-221 | a run analyses only listed present files whose CSV did not exist, each into its own CSV |
| Attempt5Main.RunWritesOutputs | chess_attempt_5/main.py:199-221 | after a run every listed present file whose analysis writes has its CSV |
| Attempt5Main.RunOutputsFromJobs | chess_attempt_5/main.py:199-221 | every CSV after a run existed before or was written by one of its analyses |
| Attempt5Main.Rerun | chess_attempt_5/main.py:209-211 | running the driver again over the same list retries only files whose analysis wrote no CSV |
| Attempt5Main.RerunIdle | chess_attempt_5/main.py:209-211 | when every analysis writes its CSV, a second run starts nothing |
| Attempt5Main.NothingLeft | chess_attempt_5/main.py:199-211 | when the CSV of every listed existing file is there, the driver starts and writes nothing |
| Attempt5Main.OutputName | chess_attempt_5/main.py:205-208 | the CSV is named after the PGN file's stem and the depth, directly in the output directory |
| Base.WindowSize | data_analysis/lichess_code.py:57 | the volatility window holds between 2 and 8 moves, a tenth of the game for games of 20 to 89 moves |
| Base.Clamp | data_analysis/lichess_code.py:69 | the clamped weight lies within its bounds and is unchanged when already inside them |
| Base.Evens | chess_attempt_2/analyze_to_terminal.py:79 | `s[::2]` holds every element at an even index, in order |
| Base.Odds | chess_attempt_2/analyze_to_terminal.py:80 | `s[1::2]` holds every element at an odd index, in order |
| Base.DigitizeRight | data_analysis/winning_chances_util.py:223 | an evaluation's bin is at most the number of edges |
| Base.DigitizeLeft | data_analysis/make_mistakes_table.py:46 | a loss's bin is at most the number of edges |
| Base.CountLEBracket | data_analysis/make_mistakes_table.py:46 | on sorted edges, the left-closed bin c has every edge below c at most x and every edge from c on above x |
| Base.CountLTBracket | data_analysis/winning_chances_util.py:223 | on sorted edges, the right-closed bin c has every edge below c under x and every edge from c on at least x |
| Base.InterpSum | data_analysis/winning_chances_util.py:76-78 | three rows that add up to a total at every knot interpolate to values that add up to that total |
| Base.InterpAtKnot | data_analysis/winning_chances_util.py:78 | at a knot not followed by a repeat, interpolation returns that knot's value |
| Chess.YearOf | chess_attempt_3/analyzer.py:30-36 | the year is "Unknown" or the first four characters of a known date of at least four characters |
| Chess.MateTextRoundTrip | chess_attempt_4/analyzer.py:86-92 | the mate text loses nothing: its count and sign read back exactly |
| Chess.MateAwareCpl | chess_attempt_4/analyzer.py:69-75 | the loss is never negative, 0 when either score is a mate, and otherwise the distance between best and played score |
| Chess.ConvertedCpl | chess_attempt_3/analyzer.py:66-70 | the loss is never negative and is the distance between the two converted scores when both exist |
| Records.Successes | chess_attempt_3/main.py:96-102 | the number of successful results is at most the number of results |
| Records.AssembleWidths | chess_attempt_3/main.py:123-141 | every assembled row has one of the widths every game's rows have |
| Text.ParseNatToString | data_analysis/winning_chances_util.py:313-324 | `int(str(n)) == n` for every non-negative integer |
| Text.BasenameJoin | chess_attempt_3/main.py:191-194 | the base name of a joined path is the joined name |
| Text.StemPrefix | chess_attempt_3/main.py:193 | the stem is the name itself or a shorter prefix of it |
| Means.RecipSumBounds | data_analysis/lichess_code.py:145 | for values in [lo, hi] the sum of reciprocals lies between n/hi and n/lo |
| Means.HarmonicBounds | data_analysis/lichess_code.py:145 | the harmonic mean of positive values in [lo, hi] is defined and lies in [lo, hi] |
| Means.WeightedSumBounds | failed_attempt/analysis.py:194-195 | with non-negative weights the weighted sum of values in [lo, hi] lies between lo and hi times the total weight |
| Means.WeightedMeanBounds | data_analysis/lichess_code.py:142 | a weighted mean with positive total weight lies between the smallest and largest value |
| Means.SumAtLeast | data_analysis/lichess_code.py:142 | weights that are each at least w add up to at least n times w |
| Means.RecipSumAtLeast | failed_attempt/utils.py:65 | for positive values at most hi the sum of reciprocals is at least n/hi |
| Means.HarmonicAtMost | failed_attempt/utils.py:57-65 | the harmonic mean of positive values at most hi is defined, positive and at most hi |

## Left out

- Multiprocessing is not modelled.
  - This covers `Pool`, `imap`/`imap_unordered`/`starmap`, the per-process
    engine globals and the engine's start and quit.
  - The analyzers take the engine's replies as input.
  - Result order is an input, so `imap_unordered` completion order is any
    order the caller gives.
- python-chess is not modelled: PGN parsing, `board.san`, `board.push`,
  `engine.analyse`, `Score.pov` and `score(mate_score=...)`. It is foreign
  library code. Moves are given as their SAN text, and scores are given from
  the side the code asks for.
- File and CSV I/O, `glob`, `os.path.exists` as a side effect, logging,
  printing and tqdm are not modelled.
  - The writers produce the rows they would write.
  - The drivers take the set of existing files as a parameter.
  - The f-string report that can raise is kept, because it changes the
    result (see Findings).
- Floating-point arithmetic is not modelled: the values of `np.exp`,
  `np.std`, `np.round`, `str(float)` and `float(str)`. These are parameters,
  and the proved properties hold for any functions given.
- The pandas mechanics of `data_analysis/lichess_code.py` around the
  modelled logic are not modelled.
  - This covers the sort by GameID and MoveNumber in
    `compute_volatility_weights`, the `groupby`/`merge` of
    `add_total_accuracy`, and the `groupby`/`first`/`merge` that gather
    each game's fields in `create_summary_table`.
  - The model starts from rows already grouped by game, and from one
    `GameInfo` per game.
- In `compute_move_accuracy`, the branches that reuse preexisting columns
  are not modelled, and neither is NaN centipawn input. The model computes
  every column from the evaluations.
- `export_game_to_pgn` in `data_analysis/lichess_code.py` is not modelled.
  It only writes a PGN file.
- The fallback to 0 in the `try/except` around the FIDE ids in
  `data_analysis/anal_games.py` is not modelled. The same cells have just
  been read without error, so that branch cannot run.
- `process_chess_data` and `create_summary_table` of
  `data_analysis/winning_chances.py` and `data_analysis/winning_chances_util.py`
  are not modelled. They are pandas merge and groupby glue.
  - The util copy of `process_chess_data` uses an undefined `intervals`.
  - The `__main__` block of `winning_chances_util.py` calls `read_game`
    with arguments the shown scanner does not take.
  - Only `calculate_mistake_percentage` of that part is modelled.
- WinningChancesUtil.ComputeWinningChanceTable: the `games` input stands for the front end at data_analysis/winning_chances_util.py:207-218. That front end is not modelled:
  - the loop over the files of `game_list` and their `read_csv`;
  - the `where` and `dropna(how='any')` filter of each file's games;
  - the two sanity `assert`s, which raise AssertionError on a GameID mismatch or a NaN WhiteElo.
  As written, line 218 calls `read_game` with a `game_wise` argument that `data_analysis/anal_games.py:6` does not accept. The function therefore raises TypeError there before counting anything. Its result would also lack the `Move` and `Evaluation` keys that lines 222-223 read. The model counts the games that call is evidently meant to deliver.
- WinningChancesUtil.StartsUpTo, WinningChancesUtil.MoveBin, WinningChances.WinningChance, Base.DigitizeLeft and Base.DigitizeRight compute `np.digitize` as numpy does for increasing bins: the number of edges below the value. numpy counts the other way for decreasing bins and raises ValueError for bins that are not monotonic, and the model does not capture either. Every caller passes an increasing `np.arange`. The bracket lemmas `Base.CountLEBracket` and `Base.CountLTBracket` state their results only for sorted edges.
- `read_winning_tables` is modelled only for its label and file-name
  parsing. The model does not cover the re-sort of the four lists read from
  the files, or the file reading itself.
- `old_files/make_mistakes_table.py` is modelled for one block of movecounts
  (`OldMakeMistakesTable.CountBlock`). The loop over blocks at module level
  only repeats it with new files.
- `chess_attempt_2/combine_pgn.py`, `apply_winning_chances.py`,
  `make_WCL_table.py`, `get_WCL.py`, `calculate_winning_changes.py`,
  `failed_attempt/main.py` and `failed_attempt/chess_in_c.cpp` are not
  modelled. They are file plumbing, entry points, or scripts that cannot
  run as written.
- Regression, plotting and the player scraper are not modelled. They are
  outside the analysis core.

## Findings

| source | as written | input that shows it | evidently intended | confidence | as-written member | corrected member |
|---|---|---|---|---|---|---|
| failed_attempt/chess6.py:159-160 | The report formats both ACPLs with `:.2f`. When a side has no moves its ACPL is `None`, so the f-string raises `TypeError` and the game's analysis is lost. | A game of one move: Black has no moves. | Report the missing average, and return the analysis with `black_acpl = None`. | high, not executed | Chess6.OneMoveGameRaises | Chess6.AnalyzeSingleGameCorrected |
| failed_attempt/analysis.py:206-207 | The same report also formats the accuracies. A side with no moves has `None` for both its ACPL and its accuracy, and the f-string raises `TypeError`. | A game of one move: Black has no moves. | Report the missing values, and return the analysis. | high, not executed | FailedAnalysis.OneMoveGameRaises | FailedAnalysis.AnalyzeSingleGameCorrected |
