# Betting helper: scoring, recommendation and slip selection

A Dafny model of the computational core of a personal football-betting
helper. A fetcher takes the day's fixtures, keeps those of five supported
leagues, sums each team's goals over its recent matches and attaches per-league
base rates (with defaults when missing). A dashboard keeps the rows dated
today, scores each with two heuristic probabilities (both teams to score,
over 2.5 goals), classifies each score on a STRONG / MEDIUM / SKIP ladder,
derives one final recommendation (BEST BET / BTTS ONLY / OVER 2.5 / AVOID),
and selects a filtered view, a best-bets view and three fixed-size slips.

Modules:

- `Wrappers`: `Option`, `Result` and a dictionary lookup.
- `Frames`: the table operations the dashboard uses: boolean-mask selection
  (`Where`), `head(n)` (`Head`) and order-preserving subsequences (`IsSubseq`).
- `Snapshot`: the persisted fixture row shared by both programs.
- `Scoring`: the two probability formulas, the two signal ladders, the final
  recommendation (`betting_analysis_app/app.py` lines 37-81).
- `Dashboard`: date filter, derived columns, filtered and best-bets views, the
  slips, and the whole page as one function `Present`.
- `Fetch`: the league map, the goal-total loop, the fixture loop, the left
  join and `fillna` defaults, and a whole fetch run as `FetchRun`.

Scores are exact whole tenths of a percentage point (153.3% is `1533`). With
whole goal counts h, a and a whole league rate r, ten times the unrounded
score is (200h + 200a + 10r) / 3. Its fractional part is 0, 1/3 or 2/3, so
rounding to one decimal never meets a tie, and the rounded score is the
nearest integer to that fraction: `(200h + 200a + 10r + 1) / 3`. The model
assumes integer goal counts and integer league rates. The thresholds 70, 65,
60, 55 and 50 become 700, 650, 600, 550 and 500.

Two behaviours a reader may not expect, both kept as the code has them:

- The best-bets view is selected from the signal-filtered view, so the
  signal filters apply to it, while the three slips are taken from all of
  today's rows and ignore the filters.
- The probability scores are not capped at 100: ten goals a side and a 60%
  league rate give 153.3 (`Scoring.ProbabilityUnbounded`).

## Model

| member | source | states |
|---|---|---|
| `Scoring.Probability` | betting_analysis_app/app.py:37-47 | the score is the nearest tenth to the exact three-way average of home rate, away rate and league rate (within a third of a tenth); non-negative for non-negative inputs |
| `Scoring.ProbabilityIsNearest` | betting_analysis_app/app.py:41 | no other tenth is closer to the exact average than the rounded score |
| `Scoring.ProbabilityMonotone` | betting_analysis_app/app.py:37-47 | raising any of the three inputs never lowers the score |
| `Scoring.ProbabilityUnbounded` | betting_analysis_app/app.py:37-41 | 10 and 10 goals with a 60% league give 153.3%: the score exceeds 100 |
| `Scoring.BttsProbability` | betting_analysis_app/app.py:37-41 | the BTTS score uses both goal counts and the league BTTS rate |
| `Scoring.Over25Probability` | betting_analysis_app/app.py:43-47 | the Over 2.5 score uses both goal counts and the league Over 2.5 rate |
| `Scoring.BttsSignal` | betting_analysis_app/app.py:53-59 | STRONG iff score >= 70, MEDIUM iff 55 <= score < 70, SKIP iff score < 55 |
| `Scoring.Over25Signal` | betting_analysis_app/app.py:61-67 | STRONG iff score >= 65, MEDIUM iff 50 <= score < 65, SKIP iff score < 50 |
| `Scoring.SignalBoundaries` | betting_analysis_app/app.py:53-67 | both ladders are closed at their lower bounds: 70 is STRONG, 69.9 MEDIUM, 55 MEDIUM, 54.9 SKIP; 65, 64.9, 50, 49.9 likewise |
| `Scoring.SignalsMonotone` | betting_analysis_app/app.py:53-67 | a higher score never gets a weaker signal |
| `Scoring.FinalSignal` | betting_analysis_app/app.py:73-81 | BEST BET iff btts >= 70 and over >= 65; BTTS ONLY iff btts >= 60 and not BEST BET; OVER 2.5 iff btts < 60 and over >= 60; AVOID iff both < 60 |
| `Scoring.FinalSignalPriority` | betting_analysis_app/app.py:73-81 | 75 / 70 is BEST BET although it also meets the later branches; 65 / 70 is BTTS ONLY; 59 / 70 is OVER 2.5 |
| `Scoring.RecommendationAgreesWithSignals` | betting_analysis_app/app.py:53-81 | BEST BET implies both signals STRONG; AVOID implies both scores below 60; any other label has at least one signal that is not SKIP |
| `Dashboard.Score` | betting_analysis_app/app.py:49-83 | a row's five derived columns are the functions of its own fixture, with the signal/recommendation agreement above |
| `Dashboard.AddColumns` | betting_analysis_app/app.py:49-83 | adding the derived columns keeps every row and the order |
| `Dashboard.TodayRows` | betting_analysis_app/app.py:28-30 | exactly the rows dated today, each as often as in the file, as an order-preserving subsequence of the file |
| `Dashboard.FilteredView` | betting_analysis_app/app.py:104-107 | exactly the rows whose BTTS signal is selected and whose Over 2.5 signal is selected, each as often as in the day, in order |
| `Dashboard.PresentBttsSignals` | betting_analysis_app/app.py:93-97 | the BTTS options and default selection are exactly the signals that occur in the day's rows |
| `Dashboard.PresentOver25Signals` | betting_analysis_app/app.py:98-102 | the Over 2.5 options and default selection are exactly the signals that occur in the day's rows |
| `Dashboard.DefaultFiltersKeepAll` | betting_analysis_app/app.py:93-107 | with the default selections the filtered view is the whole day |
| `Dashboard.BestBets` | betting_analysis_app/app.py:109-113 | exactly the filtered rows with btts >= 70, over >= 65 or BEST BET, each as often as in the filtered view, in order |
| `Dashboard.BestBetDisjunctRedundant` | betting_analysis_app/app.py:109-113 | on scored rows the BEST BET test adds nothing: the two score tests select the same rows |
| `Dashboard.Slip` | betting_analysis_app/app.py:116-118 | a slip is the prefix of length min(n, number of passing rows) of the day's rows passing the test, in order |
| `Dashboard.SafeSlip` | betting_analysis_app/app.py:116 | the first min(2, best bets) best bets of the unfiltered day, in order |
| `Dashboard.ModerateSlip` | betting_analysis_app/app.py:117 | the first min(4, matching) rows of the unfiltered day that are BEST BET or BTTS ONLY, in order |
| `Dashboard.RiskySlip` | betting_analysis_app/app.py:118 | the first min(5, matching) rows of the unfiltered day that are not AVOID, in order |
| `Dashboard.Present` | betting_analysis_app/app.py:28-118 | stops iff no row is dated today; otherwise the day is today's rows with their derived columns, the filtered view, best-bets view and slips are exactly the selections above, each view an order-preserving subsequence, and the slips have length min(2/4/5, matching rows) |
| `Frames.Where` | betting_analysis_app/app.py:104-107 | a mask selection holds each row that passes exactly as often as the table does, and no other row |
| `Frames.Head` | betting_analysis_app/app.py:116-118 | `head(n)` is a prefix of length min(n, rows) |
| `Wrappers.Get` | fetch_data.py:54 | a lookup answers a value iff the key is in the map, and then the mapped one |
| `Fetch.LeagueMapOntoSupported` | fetch_data.py:22-28 | the league map's targets are exactly EPL, LaLiga, Serie A, Bundesliga, Ligue 1 |
| `Fetch.NullAsZero` | fetch_data.py:39-41 | a null goal count counts as 0, any other count as itself |
| `Fetch.GoalsScoredAppend` | fetch_data.py:36-43 | the goal total over two lists of matches is the sum of the two totals |
| `Fetch.GoalsScoredNonNegative` | fetch_data.py:36-43 | with no negative goal counts the total is non-negative |
| `Fetch.GoalsLast5` | fetch_data.py:31-43 | the loop returns the sum over the matches of the team's own goals (home count when the team is at home, else away count); 0 for no matches; non-negative for non-negative counts |
| `Fetch.RowFor` | fetch_data.py:60-75 | the row for a supported fixture carries today's date, the mapped league (one of the five), both team names and both goal totals |
| `Fetch.CollectedSnoc` | fetch_data.py:50-75 | appending a fixture adds one row iff its league is mapped |
| `Fetch.CollectedMatchesSupported` | fetch_data.py:52-75 | rows correspond one to one, in order, to the fixtures whose league is mapped |
| `Fetch.CollectRows` | fetch_data.py:50-75 | the loop's rows: one per mapped fixture in input order, carrying its mapped league and team names, dated today, league in the supported set |
| `Fetch.Merge` | fetch_data.py:88-92 | the left join keeps every row in order and attaches the league's rates, or none for a league missing from the table |
| `Fetch.Filled` | fetch_data.py:95-96 | after `fillna` a present rate is unchanged, a missing one is the fallback, the other column is untouched |
| `Fetch.FillNa` | fetch_data.py:95-96 | the in-place column overwrite applies `Filled` to every row |
| `Fetch.FetchRun` | fetch_data.py:50-99 | stops before the join iff no fixture is from a mapped league; otherwise one row per mapped fixture in order, with today's date, mapped league, names, goal totals, and rates from the table or 55 / 58 when missing |

## Left out

- Page setup, sidebar widgets, the view-mode switch, table rendering and the cell colouring: user interface. The signal selections are parameters of `Dashboard.Present`.
- The refresh button that starts the fetcher as a separate process: process spawning.
- Reading and writing the CSV files, date parsing and formatting, and the missing-file message: file I/O. `Fetch.FetchRun` returns the rows it would write; `Dashboard.Present` takes the rows as read.
- The HTTP requests, the API key from the secrets store, the progress print and JSON decoding: network, secrets and foreign code. The decoded fixture list and a function from team id to that team's recent matches are parameters; that the service returns at most five recent matches is not modelled.
- The clock: `today` is a parameter of both programs.
- Floating point: scores are exact tenths, valid for integer goal counts and integer league rates; a fractional league rate in the reference table is not modelled.
- The label texts with their emoji: signals and recommendations are datatypes, which distinguish the labels just as their texts do.
- Fetch.Merge: the league table is a map, so a league listed twice in the reference table (which would duplicate fixture rows in the join) is not modelled.
- The in-place addition of derived columns one at a time: the columns are computed row by row in one pass (`Dashboard.AddColumns`), which yields the same table.
