# f1-penca in Dafny

f1-penca is a Formula 1 prediction league. Before each race weekend a
player names the pole sitter, the fastest lap and the top five finishers,
plus the sprint pole and podium on sprint weekends. Once the official
result is in, every prediction is scored and each player's total is
rebuilt from the points of all their predictions. Standings, team lists
and race listings are read from the same tables, and a few React
components show the form, the leaderboard, the race card and the
countdown to the deadline.

This project models the core of that system and proves its rules about
the model:

- **The scoring service.** This covers `calculatePredictionPoints`, the
  itemised `getPredictionPointsBreakdown`, `calculateAndUpdateRacePoints`
  and `recalculateAllPoints`.
  - The result arrays are `array`s that the scorers sort in place.
  - The loops that accumulate points and push line items are `while`
    loops, proved against specification functions.
  - The properties are proved about those functions: the slot table, the
    bounds, the bonuses, monotonic exactness, and the breakdown summing to
    the score.
- **The two older rule sets.**
  - The 10/5/3 script (`legacy_points.dfy`).
  - The 25/18/15… exact/±1 table of the development scripts, with their
    Fisher–Yates shuffles proved to be permutations (`dev_scoring.dfy`).
- **The development scripts.** These are the insert-if-absent seeding,
  the simulated result, the dev-data set-up and the JSON import.
  - The database is one `Db.Store` object whose tables are `seq` fields,
    together with table rules (`Db.ValidTables`) that every write keeps.
  - Results are one `raceResult` table of `Db.RaceResult` rows, read by
    the scripts, the scoring service and the routes alike. A row the
    scripts write holds only its race and `positions`; its other columns
    are null and `sprintRace` is false (`Db.PositionsResult`).
- **The OpenF1 client's rules.** These are URL assembly, optional
  parameters, the session lookup, the latest-position reduction and the
  driver mapping.
- **The API routes.** These are standings, teams, predictions, drivers,
  races and races with user points.
  - Each route becomes a function or method from the session, the request
    and the tables to a response, plus the new tables where it writes.
- **The component rules.** These are the prediction form, the leaderboard
  pagination, the race overview card and the countdown.
  - Component state is a small class whose methods are the state updates.

The shared modules follow the JavaScript the source relies on:
- `Js` covers `null`/`undefined`, `String(n)`, `parseInt` and `slice`.
- `Seqs` covers `indexOf`, `find`, `filter`, `reduce` sums and
  `new Set` order.
- `Sorting` is a stable sort. JavaScript's `sort` is stable, and Prisma's
  two-column `orderBy` is modelled on top of it.

Clocks, randomness, the network and the database driver become
parameters:
- the current time in milliseconds;
- a stream of random draws (`DevScoring.Rng`);
- a `respond` function for `fetch`;
- `commitFails`/`failing` flags for a transaction that does not commit.

The model follows the code, which also does the following, each of
which a reader might not expect:
- A race-winner guess that finished 2nd to 5th earns the 1-point top-five
  credit (src/services/points-calculation.ts:91).
- So does a 2nd- or 3rd-place guess that finished 4th or 5th.
- A null pole guess against a null official pole earns the 10 pole points
  (`PointsProperties.NullPoleAwarded`).
- `recalculateAllPoints` rethrows on the first race that fails, so later
  races are not recalculated. It does not carry on race by race
  (`Recalculation.RecalculateAllPoints`).

## Model

| member | source | states |
|---|---|---|
| PointsCalculation.DriverOrder | src/services/points-calculation.ts:64 | the order read lists the driver ids of the result, one per entry, in the result's own order |
| PointsCalculation.ScoreRacePositions | src/services/points-calculation.ts:68-97 | the slot loop returns the slot credit of the first min(n, 5) guesses against the official order |
| PointsCalculation.CheckPerfectTop5 | src/services/points-calculation.ts:108-119 | the early-exit loop answers exactly whether the first five guesses equal the first five official entries |
| PointsCalculation.ScoreRaceBlock | src/services/points-calculation.ts:61-121 | the main-race block adds slot credit, the perfect-podium bonus and the perfect-top-5 bonus |
| PointsCalculation.ScoreRaceArray | src/services/points-calculation.ts:61-66 | the caller's result array is left sorted by position (a stable sort) and the block is scored on that order |
| PointsCalculation.ScoreSprintPositions | src/services/points-calculation.ts:141-163 | the sprint slot loop returns the sprint credit of the first min(n, 3) guesses |
| PointsCalculation.ScoreSprintBlock | src/services/points-calculation.ts:134-177 | the sprint block adds slot credit, the perfect sprint podium bonus and the sprint pole |
| PointsCalculation.ScoreSprintArray | src/services/points-calculation.ts:134-139 | the caller's sprint array is left sorted by position and the sprint block is scored on it |
| PointsCalculation.CalculatePredictionPoints | src/services/points-calculation.ts:57-180 | the score is the main-race block (only with a race result) plus pole and fastest lap on strict equality plus the sprint block (only with both sprint orders); the result's arrays are left sorted and read the same afterwards |
| PointsCalculation.OfficialResorted | src/services/points-calculation.ts:62-63 | sorting an already sorted result again does not change the official order |
| PointsCalculation.BreakdownRaceSlot | src/services/points-calculation.ts:344-391 | one slot of the itemised loop pushes at most one line, worth exactly that slot's credit |
| PointsCalculation.BreakdownRacePositions | src/services/points-calculation.ts:344-391 | the itemised slot loop's lines and total are those of the first min(n, 5) slots |
| PointsCalculation.BreakdownRaceBlock | src/services/points-calculation.ts:337-426 | the itemised main-race block's lines and total, bonuses included |
| PointsCalculation.BreakdownRaceArray | src/services/points-calculation.ts:337-342 | the itemised copy also sorts the caller's array in place before scoring |
| PointsCalculation.BreakdownSprintSlot | src/services/points-calculation.ts:455-494 | one sprint slot pushes at most one line, worth exactly that slot's sprint credit |
| PointsCalculation.BreakdownSprintPositions | src/services/points-calculation.ts:455-494 | the itemised sprint slot loop's lines and total are those of the first min(n, 3) slots |
| PointsCalculation.BreakdownSprintBlock | src/services/points-calculation.ts:448-519 | the itemised sprint block's lines and total, podium bonus and sprint pole included |
| PointsCalculation.BreakdownSprintArray | src/services/points-calculation.ts:448-453 | the itemised sprint block sorts the caller's sprint array in place first |
| PointsCalculation.GetPredictionPointsBreakdown | src/services/points-calculation.ts:325-521 | returns the line items and total of the breakdown for the result as passed in, and leaves the arrays sorted as the scorer does |
| PointsProperties.RaceExactCredit | src/services/points-calculation.ts:72-82 | an exact guess in slot i earns 15/10/8/5/5 |
| PointsProperties.RaceDegradedCredit | src/services/points-calculation.ts:83-95 | a non-exact guess earns 5 or 3 for slots 2 and 3 on the podium, 1 for any other slot whose driver finished in the top five (the winner slot included, and a 2nd-place guess finishing 4th or 5th), and 0 outside the top five |
| PointsProperties.RaceExactBeatsDegraded | src/services/points-calculation.ts:72-95 | in every slot the exact credit is strictly above any credit for the same driver elsewhere |
| PointsProperties.SprintExactCredit | src/services/points-calculation.ts:145-153 | an exact sprint guess in slot i earns 8/5/3 |
| PointsProperties.SprintDegradedCredit | src/services/points-calculation.ts:154-161 | a non-exact sprint winner guess earns nothing; slots 2 and 3 earn 3 or 1 on the podium and 0 otherwise |
| PointsProperties.NoGuessesNoPositionPoints | src/services/points-calculation.ts:61-177 | an empty guess list earns nothing from either block |
| PointsProperties.RacePositionPrefix | src/services/points-calculation.ts:68-97 | the credit of the first n slots depends only on the first n guesses |
| PointsProperties.OnlyFirstFiveScored | src/services/points-calculation.ts:68 | guesses after the fifth change nothing in the main-race block |
| PointsProperties.RacePositionBounds | src/services/points-calculation.ts:68-97 | the first n slots earn between 0 and 15, 25, 33, 38, 43 points |
| PointsProperties.RaceBlockBounds | src/services/points-calculation.ts:61-121 | the main-race block is worth between 0 and 63 points |
| PointsProperties.RacePositionAllExact | src/services/points-calculation.ts:72-82 | guesses in exactly their official places earn the whole slot table |
| PointsProperties.PerfectTopFive | src/services/points-calculation.ts:61-121 | a perfect top five of distinct drivers scores 43 + 10 + 10 = 63 |
| PointsProperties.RacePositionReplace | src/services/points-calculation.ts:68-97 | replacing guess k changes only slot k's credit |
| PointsProperties.MonotonicExactness | src/services/points-calculation.ts:57-180 | turning an exact guess among the first five into another driver strictly lowers the whole score |
| PointsProperties.RaceBlockDegrades | src/services/points-calculation.ts:61-121 | the same for the main-race block alone, bonuses included |
| PointsProperties.PoleSwing | src/services/points-calculation.ts:124-126 | the pole guess is worth exactly 10 when it equals the official pole, independently of everything else |
| PointsProperties.NullPoleAwarded | src/services/points-calculation.ts:428-435 | a null pole guess against a null official pole is awarded and itemised as "Pole Position (null)" |
| PointsProperties.FastestLapSwing | src/services/points-calculation.ts:129-131 | the fastest-lap guess is worth exactly 1 on strict equality |
| PointsProperties.SprintNeedsBoth | src/services/points-calculation.ts:134 | without a sprint guess or a sprint result the sprint guesses and the sprint pole guess change nothing |
| PointsProperties.SprintPositionAllExact | src/services/points-calculation.ts:145-153 | sprint guesses in exactly their places earn 8, 13, 16 |
| PointsProperties.PerfectSprintPodiumScore | src/services/points-calculation.ts:134-177 | a perfect sprint podium scores 16 + 5 = 21, and 26 with the sprint pole |
| PointsProperties.RaceSlotItemsWorth | src/services/points-calculation.ts:344-391 | a main-race slot pushes one line worth its credit when that is positive, else none |
| PointsProperties.SprintSlotItemsWorth | src/services/points-calculation.ts:455-494 | the same for a sprint slot |
| PointsProperties.RacePositionItemsAgree | src/services/points-calculation.ts:344-391 | the main-race slot lines add up to the slot credit and none is worth zero |
| PointsProperties.SprintPositionItemsAgree | src/services/points-calculation.ts:455-494 | the sprint slot lines add up to the sprint slot credit and none is worth zero |
| PointsProperties.RaceBlockItemsAgree | src/services/points-calculation.ts:337-426 | the main-race block's lines add up to its points |
| PointsProperties.SprintBlockItemsAgree | src/services/points-calculation.ts:448-519 | the sprint block's lines add up to its points |
| PointsProperties.MainItemsAgree | src/services/points-calculation.ts:337-445 | the main-race, pole and fastest-lap lines add up to those parts of the score |
| PointsProperties.SprintItemsAgree | src/services/points-calculation.ts:448-519 | the sprint lines add up to the sprint part of the score |
| PointsProperties.BreakdownAgrees | src/services/points-calculation.ts:325-521 | the breakdown's lines add up to exactly the score `calculatePredictionPoints` gives, and every line is worth a positive number of points |
| PointsProperties.RescoringAfterSort | src/services/points-calculation.ts:218-230 | scoring against a result whose arrays an earlier call sorted gives the same score and breakdown, so one result object serves every prediction of a race |
| PointsProperties.OfficialOrderSorted | src/services/points-calculation.ts:62-63 | the official order is ascending by position and a permutation of the result |
| PointsProperties.Finishing | src/services/points-calculation.ts:31-34 | a finishing list with positions 1, 2, … has one entry per driver |
| PointsProperties.FinishingSorted | src/services/points-calculation.ts:62-66 | such a list's official order is the drivers in the given order |
| PointsProperties.ExamplePerfectTopFive | src/services/points-calculation.ts:57-180 | a perfect top five with the pole missed scores 63 |
| PointsProperties.ExampleSwappedPodium | src/services/points-calculation.ts:68-121 | swapping the 2nd and 3rd guesses of five distinct finishers scores 15 + 5 + 3 + 5 + 5 = 33, with no bonus |
| PointsProperties.ExamplePerfectSprint | src/services/points-calculation.ts:134-177 | a perfect sprint podium with the sprint pole missed scores 21 |
| Recalculation.RacePredictions | src/services/points-calculation.ts:190-207 | the predictions fetched for a race are exactly the stored predictions of that race |
| Recalculation.SetPoints | src/services/points-calculation.ts:245-248 | the update by id rewrites the points of the row with that id and changes nothing else |
| Recalculation.SetTotal | src/services/points-calculation.ts:262-265 | the update by id rewrites that user's total and changes nothing else |
| Recalculation.SameOfficialSameScore | src/services/points-calculation.ts:218-230 | a result object in which an earlier call sorted the arrays gives every prediction the same score as the original |
| Recalculation.UserTotalFrame | src/services/points-calculation.ts:255-260 | a user's re-read total depends only on that user's rows |
| Recalculation.SetPointsStep | src/services/points-calculation.ts:244-249 | writing one more update by id extends the rescored part of the table by that prediction |
| Recalculation.WritePointsStep | src/services/points-calculation.ts:244-249 | one pass of the first transaction loop, stated on the tables |
| Recalculation.AllUpdated | src/services/points-calculation.ts:244-249 | once every update is written, exactly the race's predictions carry their new scores |
| Recalculation.AffectedUsersUpdated | src/services/points-calculation.ts:253 | the deduplicated user ids of the updates are exactly the users with a prediction for the race |
| Recalculation.CollectUpdates | src/services/points-calculation.ts:218-239 | one update per prediction of the race, in order, with its id, its user and its score against the result as first passed in |
| Recalculation.WritePoints | src/services/points-calculation.ts:244-249 | the first transaction loop leaves every prediction of the race with its new score, every other row as it was, and no other table changed |
| Recalculation.WriteTotals | src/services/points-calculation.ts:253-266 | the second loop sets each affected user's total to the sum of that user's points as they now stand, and changes no other user |
| Recalculation.AffectedUserIds | src/services/points-calculation.ts:253 | `[...new Set(...)]` holds exactly the user ids of the updates |
| Recalculation.CalculateAndUpdateRacePoints | src/services/points-calculation.ts:185-277 | a committed run rescores exactly the race's predictions and sets every affected user's total to the sum of their points; a failed commit leaves the store as it was |
| Recalculation.EligibleRaces | src/services/points-calculation.ts:285-293 | the races fetched are exactly the completed races with imported results |
| Recalculation.FirstResult | src/services/points-calculation.ts:298-299 | `results[0]` is a stored result of the race, and there is none only when the race has no result |
| Recalculation.RescoredStep | src/services/points-calculation.ts:297-316 | scoring one more race against its first result extends the rescored table by that race |
| Recalculation.RetotalledStep | src/services/points-calculation.ts:297-316 | retotalling the users of one more race keeps every earlier user's total current |
| Recalculation.RecalculatedStep | src/services/points-calculation.ts:297-316 | one more eligible race processed keeps the loop invariant: no earlier race failed, exactly the processed races' predictions and users are rewritten |
| Recalculation.RecalculateRace | src/services/points-calculation.ts:299-314 | the loop body copies the stored result into a fresh result object and recomputes the race as `calculateAndUpdateRacePoints` does |
| Recalculation.RecalculateAllPoints | src/services/points-calculation.ts:280-321 | every eligible race with a stored result is recomputed against its first result, in storage order; the first failing commit stops the run and is reported, with the store holding what the races before it produced |
| LegacyPoints.ScorePositions | scripts/calculate-points.js:28-44 | the `forEach` returns the credit of every guess, with no cap at five |
| LegacyPoints.ScoreSprintPositions | scripts/calculate-points.js:61-69 | the sprint `forEach` returns the credit of every sprint guess |
| LegacyPoints.CalculateRacePoints | scripts/calculate-points.js:21-78 | positions (with a race result), pole +5 and fastest lap +3 on strict equality, and the sprint block with its pole only for a sprint race with both sprint orders |
| LegacyPoints.SlotCredit | scripts/calculate-points.js:31-43 | an exact guess earns 10 at any index; a found guess elsewhere earns 5 when both places are on the podium, 3 when both are in the top five, else 0 |
| LegacyPoints.AllExactNoCap | scripts/calculate-points.js:28-44 | guessing a whole stored order of distinct drivers earns 10 per guess, however long it is |
| LegacyPoints.PositionPointsBounds | scripts/calculate-points.js:28-44 | n guesses earn between 0 and 10 per guess |
| LegacyPoints.StoredOrderNotSorted | scripts/calculate-points.js:26 | a result stored with the winner listed second makes the right finishing order earn podium credit 5 + 5 instead of exact credit |
| LegacyPoints.PoleSwing | scripts/calculate-points.js:48-50 | the pole guess is worth exactly 5 on strict equality |
| LegacyPoints.FastestLapSwing | scripts/calculate-points.js:53-55 | the fastest-lap guess is worth exactly 3 on strict equality |
| LegacyPoints.SprintNeedsAll | scripts/calculate-points.js:58 | without a sprint race and both sprint orders the sprint guesses and the sprint pole earn nothing |
| LegacyPoints.SprintPoleSwing | scripts/calculate-points.js:72-74 | inside the sprint block the sprint pole is worth exactly 3 |
| LegacyPoints.WithResult | scripts/calculate-points.js:96-99 | the scored predictions are exactly those whose race has a stored result, in storage order |
| LegacyPoints.Rescored | scripts/calculate-points.js:112-117 | rescoring touches only the points column |
| LegacyPoints.WriteStep | scripts/calculate-points.js:112-117 | writing one more update by id extends the rescored part of the table by it |
| LegacyPoints.AllWritten | scripts/calculate-points.js:112-117 | once every update is written exactly the predictions whose race has a result are rescored |
| LegacyPoints.CollectUpdates | scripts/calculate-points.js:94-107 | one update per prediction whose race has a result, in order, carrying its score against that race's first result |
| LegacyPoints.WritePoints | scripts/calculate-points.js:112-117 | the write loop leaves exactly those predictions rescored and no other table changed |
| LegacyPoints.CalculateAllPoints | scripts/calculate-points.js:80-135 | every prediction whose race has a result stores its score under this table, every other prediction keeps its points, then every user's total is the sum of all that user's predictions |
| DevScoring.ScorePositions | scripts/simulate-race-result.js:87-108 | the inner loop returns the development credit of every guess against the result order: exact in the top ten from the table, one place off 1, a missing driver skipped |
| DevScoring.SlotCredit | scripts/simulate-race-result.js:96-107 | an exact guess at index i < 10 earns the table's i-th credit, an exact guess past the table earns 0, a found guess one place off earns 1, any other guess 0 |
| DevScoring.MissingSkipped | scripts/simulate-race-result.js:96 | a guess whose driver is not in the result adds nothing: replacing any guess by an absent driver removes exactly that slot's credit |
| DevScoring.DevPointsReplace | scripts/simulate-race-result.js:91-108 | changing one guess changes the total by that slot's difference only |
| DevScoring.DevPointsPrefix | scripts/simulate-race-result.js:91-108 | the credit of the first n guesses depends on those guesses only |
| DevScoring.PerfectGuess | scripts/simulate-race-result.js:6-9 | guessing a result of distinct drivers exactly earns the running sum of the table and nothing after the tenth place |
| DevScoring.PerfectGridScore | scripts/simulate-race-result.js:6-9 | a perfect guess of a grid of at least ten distinct drivers earns 101 |
| DevScoring.Rng.constructor | scripts/simulate-race-result.js:38 | the stream of draws `Math.random()` stands for holds the given draws |
| DevScoring.Rng.Next | scripts/simulate-race-result.js:38 | `Math.floor(Math.random() * (i + 1))` returns the next draw reduced below the bound and consumes it |
| DevScoring.Draw | scripts/simulate-race-result.js:38 | a draw is always below its bound, so the swap partner is an index at most i |
| DevScoring.Swap | scripts/simulate-race-result.js:39 | the destructuring swap exchanges the two entries and keeps the length |
| DevScoring.SwapPermutes | scripts/simulate-race-result.js:39 | a swap keeps the multiset of ids |
| DevScoring.ShufflePermutes | scripts/simulate-race-result.js:37-40 | the shuffle loop keeps the length and the multiset of ids whatever the draws |
| DevScoring.ShuffleStep | scripts/simulate-race-result.js:37-40 | one pass swaps the top index with the next draw and continues below it on the remaining draws |
| DevScoring.Shuffle | scripts/simulate-race-result.js:37-40 | the in-place loop leaves the array holding the shuffle its draws determine and consumes one draw per index from the top down to 1 |
| DevScoring.ShuffledIds | scripts/simulate-race-result.js:34-40 | the shuffled copy of the driver ids is a permutation of them, fixed by the draws |
| DevScoring.DevScored | scripts/simulate-race-result.js:86-117 | scoring the race touches only the points column of the prediction table |
| DevScoring.PartlyDevScored | scripts/simulate-race-result.js:86-117 | scoring part of the race touches only the points column |
| DevScoring.IdsOf | scripts/simulate-race-result.js:111-114 | every prediction written has its id in the set of written ids |
| DevScoring.WriteStep | scripts/simulate-race-result.js:111-114 | writing one more prediction of the race by id extends the scored part of the table by it |
| DevScoring.WriteLoopStep | scripts/simulate-race-result.js:86-117 | one pass of the outer loop keeps the loop's account of the table |
| DevScoring.AllWritten | scripts/simulate-race-result.js:86-117 | once every prediction of the race is written, the table is the fully scored one |
| DevScoring.WriteEach | scripts/simulate-race-result.js:86-117 | the outer loop leaves every prediction of the race with its credit, every other prediction as it was, and touches no other table |
| DevScoring.WriteRaceScores | scripts/simulate-race-result.js:78-117 | the predictions of the race are read and each stores its credit; the table rules still hold and user totals are not touched |
| DevSeeding.InsertDriverIfAbsent | scripts/create-dev-data.js:316-328 | a driver is created exactly when no driver has its code, with a fresh id and the seed's fields; otherwise the table is unchanged |
| DevSeeding.InsertRaceIfAbsent | scripts/create-dev-data.js:332-349 | a race is created exactly when no race has its round and season, with a fresh id; otherwise the table is unchanged |
| DevSeeding.InsertUserIfAbsent | scripts/create-dev-data.js:353-367 | a user is created exactly when no user has its email, with a fresh id; otherwise the table is unchanged |
| DevSeeding.SeedDriverStep | scripts/create-dev-data.js:316-328 | one insert-if-absent carries the driver loop's invariant one seed further |
| DevSeeding.SeedDrivers | scripts/create-dev-data.js:316-328 | after the driver loop every seed's code is present, the rows already there are kept, only seeds are added, and a second run adds nothing |
| DevSeeding.SeedRaceStep | scripts/create-dev-data.js:332-349 | one insert-if-absent carries the race loop's invariant one seed further |
| DevSeeding.SeedRaces | scripts/create-dev-data.js:332-349 | after the race loop every seed's round and season is present, the rows already there are kept, only seeds are added, and a second run adds nothing |
| DevSeeding.SeedUserStep | scripts/create-dev-data.js:353-367 | one insert-if-absent carries the user loop's invariant one seed further |
| DevSeeding.SeedUsers | scripts/create-dev-data.js:353-367 | after the user loop every seed's email is present, the rows already there are kept, only seeds are added, and a second run adds nothing |
| DevSeeding.SeedAll | scripts/create-dev-data.js:314-367 | the three loops run in turn, each with its seeding guarantee on its own table |
| DevSeeding.CreatePredictionIfAbsent | scripts/create-dev-data.js:388-411 | a prediction is created exactly when the pair has none, with a fresh id, the given order and no points; otherwise the table is unchanged |
| DevSeeding.CreatePositionResult | scripts/create-dev-data.js:440-445 | one result row with a fresh id is appended for the race, holding the order as `positions` with every other column null and `sprintRace` false; no other table changes |
| DevSeeding.SetCompleted | scripts/create-dev-data.js:446-452 | the race table keeps its length, and only the race with that id changes |
| DevSeeding.CompleteRace | scripts/create-dev-data.js:446-452 | the race becomes `COMPLETED` with its results imported and nothing else changes |
| DevSeeding.SetCompletedOnly | scripts/create-dev-data.js:446-452 | completing a race keeps every id, round and season, sets only that race's status and import flag, and leaves every other race as it was |
| DevSeeding.ActiveDriverIds | scripts/create-dev-data.js:382-384 | the ids listed are exactly the ids of the active drivers, never more than the drivers |
| DevSeeding.SeasonRaces | scripts/create-dev-data.js:373-376 | the races listed are exactly the season's races |
| DevSeeding.ByRound | scripts/create-dev-data.js:373-376 | the ordered listing has as many races as the season has |
| DevSeeding.ByRoundOrdered | scripts/create-dev-data.js:373-376 | the listing holds the season's races, each once, in ascending round order |
| SimulateRace.FindRound | scripts/simulate-race-result.js:14-16 | the race found has the round and season, and none is found exactly when no race has them |
| SimulateRace.FindResult | scripts/simulate-race-result.js:43-45 | the result found belongs to the race, and none is found exactly when the race has no result |
| SimulateRace.UpsertPositionResult | scripts/simulate-race-result.js:43-66 | the race's first result row gets the order as its `positions` with its other columns kept, or, with none, one new result with a fresh id holds it; no other table changes |
| SimulateRace.SimulateRaceResult | scripts/simulate-race-result.js:11-117 | no round-1 2025 race, or no active driver, ends the script with nothing written; otherwise its result is upserted with a shuffle of the active drivers, the race is completed, and its predictions store their credit, users' totals untouched |
| SetupDev.FindEmail | scripts/setup-dev.js:161-163 | the user found has the email, and none is found exactly when no user has it |
| SetupDev.EnsureTestUser | scripts/setup-dev.js:161-176 | afterwards the user with the test email exists and is the one returned; it is created as "Test User" with role `USER` only when no user had the email |
| SetupDev.PredictFirstRace | scripts/setup-dev.js:180-213 | with no round-1 2025 race nothing happens; otherwise all driver ids are shuffled, and the test user gets a prediction of that order for the race only when it had none |
| SetupDev.SetupDev | scripts/setup-dev.js:114-226 | drivers and races are seeded if absent, the test user exists and is returned, and the first race's prediction is made as above; results are not touched |
| CreateDevData.HasPredictionGrows | scripts/create-dev-data.js:386-421 | rows added after a prediction keep that prediction |
| CreateDevData.SampleWiden | scripts/create-dev-data.js:386-421 | a sample row for a later table and narrower lists is a sample for an earlier table and wider lists |
| CreateDevData.SampleStep | scripts/create-dev-data.js:387-420 | one race of the inner loop keeps the added rows samples and covers one more race |
| CreateDevData.UserStep | scripts/create-dev-data.js:386-421 | one user of the outer loop keeps the added rows samples and covers one more user |
| CreateDevData.AddedRow | scripts/create-dev-data.js:395-411 | every added row is for a listed user and race that had no prediction before |
| CreateDevData.NothingNewWhenCovered | scripts/create-dev-data.js:388-395 | when every pair already has a prediction the loops add nothing |
| CreateDevData.SampleUser | scripts/create-dev-data.js:387-420 | after the inner loop the user has a prediction for every listed race; only samples of shuffled active driver ids are added |
| CreateDevData.CreateSamplePredictions | scripts/create-dev-data.js:386-421 | after both loops every user has a prediction for every listed race, the rows already there are kept, and only samples are added |
| CreateDevData.SimulateFirstResult | scripts/create-dev-data.js:424-510 | with no season race the script stops; a first race with a result keeps everything; otherwise it gets one new result holding the shuffled active driver ids, is completed, and its predictions store their credit |
| CreateDevData.PredictedRaceIds | scripts/create-dev-data.js:387 | at most four race ids are predicted, each of a stored race |
| CreateDevData.CreateDevData | scripts/create-dev-data.js:310-524 | the three seeding loops, the sample predictions for every user and each of the season's first four races, then the first race's result as above |
| DevDataFromJson.FindUserByKey | scripts/create-dev-data-from-json.js:128-130 | the user found matches the key by id or by email, and none is found exactly when no user matches |
| DevDataFromJson.FindRaceByKey | scripts/create-dev-data-from-json.js:137-139 | the race found matches the key by id or by round under strict equality, and none is found exactly when no race matches |
| DevDataFromJson.FindCode | scripts/create-dev-data-from-json.js:159 | the driver found has the code, and none is found exactly when no driver has it |
| DevDataFromJson.ActiveDrivers | scripts/create-dev-data-from-json.js:121-123 | the drivers listed are exactly the active drivers |
| DevDataFromJson.CodesToIds | scripts/create-dev-data-from-json.js:155-166 | the mapped order is never longer than the entries |
| DevDataFromJson.MapCodes | scripts/create-dev-data-from-json.js:155-166 | the `push` loop builds the ids of the drivers the codes name, in order, dropping unknown codes |
| DevDataFromJson.CodesToIdsAppend | scripts/create-dev-data-from-json.js:157-166 | mapping keeps the order: a concatenation maps to the concatenation of the parts |
| DevDataFromJson.CodesToIdsKnown | scripts/create-dev-data-from-json.js:161-165 | when every code is known no entry is dropped |
| DevDataFromJson.CodesToIdsNamed | scripts/create-dev-data-from-json.js:157-166 | every mapped id is the id of a driver whose code some entry names |
| DevDataFromJson.PlanPrediction | scripts/create-dev-data-from-json.js:126-178 | a row plans a prediction exactly when its user and race are found and some code maps; the plan holds the found ids, the mapped order and the points earned, 0 when missing |
| DevDataFromJson.ImportPrediction | scripts/create-dev-data-from-json.js:126-192 | one JSON row creates a prediction exactly when it has a plan and its pair has none, holding the plan under a fresh id; nothing else changes |
| DevDataFromJson.PredictionsCoverStep | scripts/create-dev-data-from-json.js:126-192 | a row's new prediction keeps every planned pair so far covered |
| DevDataFromJson.PredictionsAddedStep | scripts/create-dev-data-from-json.js:126-192 | a row's new prediction keeps every added row the plan of an earlier JSON row |
| DevDataFromJson.ImportPredictionStep | scripts/create-dev-data-from-json.js:126-192 | one JSON row carries the prediction loop's invariant one row further |
| DevDataFromJson.ImportPredictions | scripts/create-dev-data-from-json.js:126-193 | after the loop the rows already there are kept, every planned pair has a prediction, and every added row is a JSON row's plan for a pair that had none |
| DevDataFromJson.PlanResult | scripts/create-dev-data-from-json.js:195-225 | a row plans a result exactly when its race is found and some code maps; the plan holds the found race and the mapped order |
| DevDataFromJson.ResultRaceIds | scripts/create-dev-data-from-json.js:205-207 | the race ids of the results, one per result, in order |
| DevDataFromJson.ImportResult | scripts/create-dev-data-from-json.js:195-251 | one JSON row creates a result exactly when it has a plan and its race has none, then completes that race; nothing else changes |
| DevDataFromJson.ResultsCoverStep | scripts/create-dev-data-from-json.js:195-252 | a row's new result keeps every planned race so far covered |
| DevDataFromJson.ResultsAddedStep | scripts/create-dev-data-from-json.js:195-252 | a row's new result keeps every added result the plan of an earlier JSON row |
| DevDataFromJson.ImportResultStep | scripts/create-dev-data-from-json.js:195-252 | one JSON row carries the result loop's invariant one row further |
| DevDataFromJson.CompletedStep | scripts/create-dev-data-from-json.js:237-243 | completing the race of one more added result keeps exactly the races with an added result completed |
| DevDataFromJson.ResultLoopStep | scripts/create-dev-data-from-json.js:195-252 | one JSON row carries the results and the completed races one row further |
| DevDataFromJson.ImportResults | scripts/create-dev-data-from-json.js:195-252 | after the loop the results already there are kept, every planned race has a result, every added result is a plan for a race that had none, and exactly those races are completed |
| DevDataFromJson.ImportDevData | scripts/create-dev-data-from-json.js:46-266 | the three seeding loops, then the predictions and results imported against the season's races by round, the users and the active drivers as seeded |
| OpenF1.Pair | src/services/openf1.ts:18 | every `key=value` pair of the query holds a `=` |
| OpenF1.QueryStringEmpty | src/services/openf1.ts:16-21 | the query string is empty exactly when no parameter was appended |
| OpenF1.QueryStringAppend | src/services/openf1.ts:17-21 | appending a parameter adds its pair to the query, after a `&` unless the query was empty |
| OpenF1.QueryStep | src/services/openf1.ts:17-19 | one more `append` of the loop gives the query with the next pair added |
| OpenF1.PathOf | src/services/openf1.ts:22 | the part of a URL before its first `?` holds no `?` |
| OpenF1.SplitAtMark | src/services/openf1.ts:22 | a prefix without `?` stays in the path and leaves the query to what follows it |
| OpenF1.UrlParts | src/services/openf1.ts:6-22 | the URL splits back into the base URL, `/` and the endpoint, and exactly the query; it holds a `?` exactly when the query is non-empty |
| OpenF1.Outcome | src/services/openf1.ts:24-35 | the request succeeds with the body exactly on an ok response; a response that is not ok fails with `OpenF1 API error: <status> <statusText>`, and a network error is rethrown |
| OpenF1.FetchFromOpenF1 | src/services/openf1.ts:14-36 | the loop builds the query from the parameters in order, the URL requested is the base, the endpoint and that query, and the outcome is the response's |
| OpenF1.SessionQuery | src/services/openf1.ts:150-152 | `getDrivers`, `getSession` and `getRaceResults` send `session_key=<key>` as the whole query |
| OpenF1.SessionsParams | src/services/openf1.ts:159-165 | `getSessions` sends a `year` parameter, and only that, exactly when the year is truthy |
| OpenF1.SessionDriverParams | src/services/openf1.ts:208-214 | the session key comes first, then `driver_number` exactly when the driver number is truthy, and nothing else |
| OpenF1.SessionsUrlQuery | src/services/openf1.ts:159-165 | the sessions URL carries a query exactly when the year is truthy, and then it is `year=<year>` |
| OpenF1.SessionOnlyQuery | src/services/openf1.ts:208-214 | without a truthy driver number the query of `getLaps`, `getStints`, `getPitStops` and `getTeamRadio` is the session key alone |
| OpenF1.SessionDriverQuery | src/services/openf1.ts:208-214 | with a truthy driver number the query is the session key, `&`, then the driver number |
| OpenF1.GetSession | src/services/openf1.ts:172-178 | the first session is returned; none fetched fails with `No session found with key <key>`, and a failed fetch passes its error on |
| OpenF1.FindDriver | src/services/openf1.ts:192 | the entry found is of the driver number, and none is found exactly when the map has no entry for it |
| OpenF1.KeptAtExtend | src/services/openf1.ts:191-196 | a kept sample stays kept under a later sample of another driver or an older-or-equal one of its own |
| OpenF1.OthersStayLatest | src/services/openf1.ts:191-196 | a sample of one driver leaves every other driver's entry the latest of that driver |
| OpenF1.KeepNew | src/services/openf1.ts:193-194 | a driver seen for the first time is added with its sample |
| OpenF1.KeepLater | src/services/openf1.ts:193-194 | a strictly later sample replaces its driver's entry in place |
| OpenF1.KeepOlder | src/services/openf1.ts:193 | an older-or-equal sample leaves the map as it is |
| OpenF1.KeepStep | src/services/openf1.ts:191-196 | each step of the `forEach` keeps the map a summary of the samples seen so far |
| OpenF1.LatestSummarises | src/services/openf1.ts:190-196 | after the `forEach` the map holds one entry per driver seen, each its latest sample |
| OpenF1.GetRaceResults | src/services/openf1.ts:185-200 | the loop builds the map of latest samples and returns its values sorted by position |
| OpenF1.RaceResultsCorrect | src/services/openf1.ts:185-200 | one entry per driver with a sample and for no other, each the latest sample of its driver (the first seen on a tie), ascending by position |
| OpenF1.MapDriver | src/services/openf1.ts:263-276 | a mapped driver is always active |
| OpenF1.MapDriverRenames | src/services/openf1.ts:263-276 | two drivers map alike exactly when they agree on every field but the broadcast name and the session and meeting keys |
| Standings.UserPredictions | src/app/api/standings/route.ts:32-50 | a user's selected predictions are never more than the stored ones |
| Standings.Query | src/app/api/standings/route.ts:27-52 | one row per user, in storage order, with the user's id and name |
| Standings.SelectedIndices | src/app/api/standings/route.ts:33-40 | the storage positions, ascending, of exactly the user's predictions whose race exists, is `COMPLETED` and is of the season when one is given |
| Standings.UserPredictionsSelected | src/app/api/standings/route.ts:27-50 | the rows selected for a user are, in storage order, exactly the selected fields of those predictions |
| Standings.PointsOf | src/app/api/standings/route.ts:56 | the points of the rows, one per row, in order |
| Standings.TotalIsSum | src/app/api/standings/route.ts:56 | the `reduce` is the sum of the rows' points |
| Standings.StandingCountsSelected | src/app/api/standings/route.ts:22-57 | for any season filter, a user's standing carries the user's id and name, totals the points of exactly the predictions the filter lets through and counts them as `racesParticipated` |
| Standings.TotalIsUserTotal | src/app/api/standings/route.ts:56 | with no season filter and every prediction of the user on a completed race, the standing's total is the user's total over all their predictions |
| Standings.Best | src/app/api/standings/route.ts:72-74 | `topRaces` is made of the first min(n, 5) predictions after the sort |
| Standings.TopRacesAreBest | src/app/api/standings/route.ts:72-81 | at most five of the user's own predictions, exactly five when there are that many, best first, and every prediction left out scores no more than any listed one |
| Standings.RankingOrdered | src/app/api/standings/route.ts:86-91 | the ranking is highest total first and the positions are 1, 2, ... in that order |
| Standings.RankingOnePerUser | src/app/api/standings/route.ts:55-91 | the ranking holds exactly the users' standings, rearranged, one per user |
| Standings.Get | src/app/api/standings/route.ts:10-100 | 401 without a signed-in user; a missing or empty season means no season filter; a season that `parseInt` turns into `NaN` gives the 500; otherwise the users' standings for `parseInt` of the season, sorted by total in place and ranked from 1 |
| Teams.FindTeam | src/app/api/teams/route.ts:45 | the group found has the team's name, and none is found exactly when no group has it |
| Teams.GroupByTeam | src/app/api/teams/route.ts:43-66 | the reducer, updating the accumulator in place, ends with the grouping of the drivers |
| Teams.FirstOf | src/app/api/teams/route.ts:45-54 | the index of a team's first driver is at most the number of drivers |
| Teams.FirstOfSpec | src/app/api/teams/route.ts:45-54 | that index holds the team's first driver, and the number of drivers means the team has none |
| Teams.MembersAppend | src/app/api/teams/route.ts:57-63 | one more driver adds its entry to its own team's list only |
| Teams.MembersNone | src/app/api/teams/route.ts:45-54 | a team with no driver has no entries |
| Teams.FirstOfAppend | src/app/api/teams/route.ts:45-54 | one more driver keeps every team's first driver, and is the first of its team when that team had none |
| Teams.CountUpdate | src/app/api/teams/route.ts:57-63 | pushing an entry onto one group adds exactly one entry in all |
| Teams.CountAppend | src/app/api/teams/route.ts:53 | a new group adds its entries to the count |
| Teams.UnseenTeam | src/app/api/teams/route.ts:48 | a team with no group yet has no driver so far |
| Teams.SeenNamesKept | src/app/api/teams/route.ts:43-66 | one more driver keeps the first driver of every team already grouped |
| Teams.PushNewNames | src/app/api/teams/route.ts:48-54 | a driver of a new team opens a group with a name not used before, named after a driver's team |
| Teams.PushNewCovers | src/app/api/teams/route.ts:48-54 | after a new group every driver's team, the new one included, has a group |
| Teams.PushNewMembers | src/app/api/teams/route.ts:48-63 | the new group holds just the driver, the others are unchanged, one entry more in all |
| Teams.PushNewOrder | src/app/api/teams/route.ts:53 | the new group comes last, as its team's first driver does |
| Teams.PushExistingCovers | src/app/api/teams/route.ts:57-63 | pushing onto a known team's group keeps the names distinct and every team covered |
| Teams.PushExistingLists | src/app/api/teams/route.ts:57-63 | pushing onto a known team's group keeps every group's list its team's drivers, the order of groups and one entry more in all |
| Teams.PushStep | src/app/api/teams/route.ts:43-66 | each step of the reducer keeps the accumulator the grouping of the drivers seen so far |
| Teams.GroupedSummarises | src/app/api/teams/route.ts:43-66 | the reducer's result is the grouping of all the drivers |
| Teams.GroupedCorrect | src/app/api/teams/route.ts:43-66 | one group per team with a driver and no two with a name, in order of each team's first driver; each group lists exactly its team's drivers in input order, and the entries in all are as many as the drivers |
| Teams.MemberOfOwnTeam | src/app/api/teams/route.ts:45-63 | every driver's entry sits in its own team's group |
| Teams.Filtered | src/app/api/teams/route.ts:21-40 | with `active=true` exactly the active drivers are grouped, otherwise all of them in order |
| Teams.Get | src/app/api/teams/route.ts:10-68 | 401 without a signed-in user, otherwise the grouping of the filtered drivers; no drivers give no groups |
| PredictionsRoute.RaceFilter | src/app/api/predictions/route.ts:41-43 | the race filter is present exactly when `raceId` is given, and is that id |
| PredictionsRoute.BuildQuery | src/app/api/predictions/route.ts:28-43 | the query names the scoped user (the named user for an administrator who names one, else the caller) and the race filter |
| PredictionsRoute.Select | src/app/api/predictions/route.ts:45-46 | the predictions listed are exactly the stored predictions the query matches |
| PredictionsRoute.Get | src/app/api/predictions/route.ts:10-64 | 401 without a session, otherwise the predictions the built query selects |
| PredictionsRoute.GetScoping | src/app/api/predictions/route.ts:19-43 | a caller who is not an administrator sees exactly their own predictions (of the race, when given) whatever user they name; an administrator naming a user sees exactly that user's |
| PredictionsRoute.UpsertEffect | src/app/api/predictions/route.ts:118-152 | after the upsert the pair has exactly one prediction, the one returned, holding the body's guesses with falsy poles as null; every other prediction is as it was |
| PredictionsRoute.Save | src/app/api/predictions/route.ts:118-152 | the pair's prediction is updated in place when it exists, else one with a fresh id is created; a create for a user the store does not hold fails and writes nothing |
| PredictionsRoute.Post | src/app/api/predictions/route.ts:78-162 | 401 with no session, 400 for a body without `raceId` or an array of `positions`, 404 for an unknown race, 400 for a race that is not upcoming, each leaving the store as it was; otherwise the upsert above |
| DriversRoute.ActiveSummaries | src/app/api/drivers/route.ts:19-33 | the public list selects exactly the active drivers, projected to id, number, full name, team and flag |
| DriversRoute.BasicListCorrect | src/app/api/drivers/route.ts:19-33 | the public list is those summaries rearranged, in ascending number order |
| DriversRoute.Select | src/app/api/drivers/route.ts:51-57 | the filtered list holds exactly the drivers the `where` matches |
| DriversRoute.Get | src/app/api/drivers/route.ts:10-59 | without truthy filters the public list by number; a filter without a session gives 401; otherwise the drivers with `active` equal to `active === 'true'` when the parameter is present and of the team when it is non-empty |
| DriversRoute.ClashCorrect | src/app/api/drivers/route.ts:103-117 | a clash is found exactly when some driver has the number or the code, and the message names the number when the clashing driver has it, else the code |
| DriversRoute.NewDriver | src/app/api/drivers/route.ts:126-138 | the new driver's id is its code, the full name defaults to the two names, and it is active unless the body says `false` |
| DriversRoute.Post | src/app/api/drivers/route.ts:73-140 | 403 for a caller who is not an administrator, 400 for a missing field, 400 for a clashing number or code, a failed create for a code already used as an id, each leaving the table unchanged; otherwise the driver is appended and numbers stay unique |
| RacesRoute.WhereOf | src/app/api/races/route.ts:24-30 | a `NaN` season makes the query fail; otherwise the season filter is present exactly when the season is given and is its `parseInt`, and the status filter exactly when the status is one of the three known ones |
| RacesRoute.QueryCorrect | src/app/api/races/route.ts:33-38 | the races listed are exactly the races the filter matches, rearranged, newest season first and by ascending round within a season |
| RacesRoute.ResultIds | src/app/api/races/route.ts:39-46 | a listing's result ids are exactly the ids of that race's results |
| RacesRoute.Get | src/app/api/races/route.ts:10-56 | 401 without a session, 500 for a `NaN` season, otherwise exactly the matching races with their result ids, newest season first and by round |
| RacesRoute.StatusOf | src/app/api/races/route.ts:75 | an absent status defaults to `UPCOMING`, a known status is kept, and null or an unknown status is one the status column refuses |
| RacesRoute.NewRace | src/app/api/races/route.ts:100-109 | the new race has a fresh id, the body's fields and the status, and no results or sprint yet |
| RacesRoute.Post | src/app/api/races/route.ts:63-118 | 403 for a caller who is not an administrator, 400 for a missing field, 400 for a taken round and season, a failed create for a status the column refuses, each leaving the table unchanged; otherwise the race is appended and (round, season) stays unique |
| UserPointsRoute.ProjectCorrect | src/app/api/races/user-points/route.ts:47-57 | entry i is race i with its fields unchanged, its `userPoints` the points of the user's prediction for the race, or 0 when there is none |
| UserPointsRoute.Get | src/app/api/races/user-points/route.ts:10-59 | 401 without a user id in the session, 500 for a `NaN` season, otherwise the season's races in the race listing's order, each with the user's points |
| PredictionForm.With | src/components/predictions/prediction-form.tsx:68-73 | the field named takes the new value and every other field keeps its own |
| PredictionForm.IsFormValid | src/components/predictions/prediction-form.tsx:75-84 | the form is valid exactly when pole, winner and second to fifth are all chosen and, for a sprint weekend, the sprint pole and sprint winner too |
| PredictionForm.Selected | src/components/predictions/prediction-form.tsx:87-89 | a driver id is taken exactly when some other field has chosen it |
| PredictionForm.AvailableCorrect | src/components/predictions/prediction-form.tsx:86-92 | a field offers exactly the drivers no other field has chosen, so its own choice stays in its list, and the list keeps the drivers' order |
| PredictionForm.EditableWhenAccepted | src/components/predictions/prediction-form.tsx:137 | for the three race statuses the selects are enabled exactly for an upcoming race |
| PredictionForm.PayloadOf | src/components/predictions/prediction-form.tsx:106-118 | the saved prediction carries the six race fields as chosen, and the two sprint fields exactly on a sprint weekend |
| PredictionForm.ValidPayloadComplete | src/components/predictions/prediction-form.tsx:97-118 | a valid form sends every field the race needs and no empty choice |
| PredictionForm.FormState.constructor | src/components/predictions/prediction-form.tsx:38-50 | the form starts with every field empty, not loading and without an error |
| PredictionForm.FormState.Load | src/components/predictions/prediction-form.tsx:53-66 | a saved prediction fills the form, absent sprint fields as empty, and without one the form stays as it is |
| PredictionForm.FormState.HandleSelectChange | src/components/predictions/prediction-form.tsx:68-73 | only the field changed takes the new value |
| PredictionForm.FormState.HandleSubmit | src/components/predictions/prediction-form.tsx:94-135 | an invalid form sets the fill-all error and calls nothing; a valid one updates the existing prediction or creates one with the form's payload, hands a success on and shows the failure's message or the default one, and ends not loading |
| LeaderboardTable.Pages | src/components/leaderboard/leaderboard-table.tsx:23 | the page count is the least number of ten-row pages that holds every standing |
| LeaderboardTable.Rows | src/components/leaderboard/leaderboard-table.tsx:99-119 | one row for each standing of the page |
| LeaderboardTable.ItemsWindow | src/components/leaderboard/leaderboard-table.tsx:25-32 | page p shows the standings from position 10(p-1) on, at most ten, cut at the end of the list |
| LeaderboardTable.RankIsPosition | src/components/leaderboard/leaderboard-table.tsx:99-103 | the rank a row shows is its standing's 1-based position in the whole list |
| LeaderboardTable.EveryStandingShown | src/components/leaderboard/leaderboard-table.tsx:23-32 | every standing appears on one of the pages the control offers, with its rank, its name or `User`, and its points |
| LeaderboardTable.RenderRows | src/components/leaderboard/leaderboard-table.tsx:35-66 | an empty list renders the empty table; otherwise the pagination control shows exactly when there are more than ten standings |
| LeaderboardTable.PageState.constructor | src/components/leaderboard/leaderboard-table.tsx:19 | the table starts on page 1 |
| LeaderboardTable.PageState.SetPage | src/components/leaderboard/leaderboard-table.tsx:75 | the page becomes the one the control selected |
| RaceOverview.StatusChip | src/components/predictions/race-overview.tsx:23-47 | the chip is green exactly for a finished race, amber exactly for a live one and neutral otherwise; an unknown status is shown as it is |
| RaceOverview.ButtonAgrees | src/components/predictions/race-overview.tsx:49-74 | a finished or live race shows a flat, disabled button and nothing else does; an enabled button is bordered "Edit Prediction" exactly when there is a prediction and solid "Create Prediction" otherwise |
| RaceOverview.PanelsAgree | src/components/predictions/race-overview.tsx:130-143 | the edit hint shows exactly for a prediction on an upcoming race, the points panel exactly for a scored prediction on a finished race, and never both |
| CountdownTimer.CalculateTimeLeft | src/components/ui/countdown-timer.tsx:17-39 | no time left gives zeros and the expired flag; otherwise days, hours, minutes and seconds are in range and add up to the time left less its part below a second |
| CountdownTimer.TimeLeftUnique | src/components/ui/countdown-timer.tsx:32-38 | that split is the only in-range one |
| CountdownTimer.TimeLeftMonotone | src/components/ui/countdown-timer.tsx:17-39 | once expired the countdown stays expired, and the time left never grows as time passes |
| CountdownTimer.Pad2 | src/components/ui/countdown-timer.tsx:61 | the text is decimal digits worth the number, at least two of them and exactly two below 100 |
| CountdownTimer.Render | src/components/ui/countdown-timer.tsx:52-85 | "Predictions Closed" exactly once expired; otherwise four boxes whose digits are worth the days, hours, minutes and seconds, two digits each except the days |
| CountdownTimer.Countdown.constructor | src/components/ui/countdown-timer.tsx:42 | the state starts as the time left at mount, with its parts in range |
| CountdownTimer.Countdown.Tick | src/components/ui/countdown-timer.tsx:44-50 | each tick recomputes the time left for the same deadline, and the parts stay in range |
| Js.OrNull | src/app/api/predictions/route.ts:134-135 | an optional field falls back to null unless it is a non-empty string: the result is the value itself exactly when it is a non-empty string, and null otherwise |
| Js.NatText | src/services/openf1.ts:18 | `String(n)` of a natural number is one or more decimal digits without a leading zero |
| Js.NatTextValue | src/services/openf1.ts:18 | reading those digits back gives the number, so distinct numbers have distinct texts |
| Js.IntText | src/services/openf1.ts:18 | `String(n)` of an integer is non-empty and starts with a minus sign exactly for a negative number |
| Js.DigitRun | src/app/api/races/route.ts:28 | the digits `parseInt` reads are the longest prefix made of decimal digits |
| Js.ParseInt | src/app/api/races/route.ts:28 | `parseInt(s, 10)` is `NaN` exactly when no digit follows the optional sign |
| Js.ParseIntText | src/app/api/races/route.ts:28 | `parseInt` of an integer's text gives the integer back |
| Js.SliceIndex | src/components/leaderboard/leaderboard-table.tsx:31 | a `slice` bound within the length is kept, one past the end is clamped to the length, and a negative one counts from the end, at least 0 |
| Js.Slice | src/components/leaderboard/leaderboard-table.tsx:31 | `slice` with bounds within the sequence is that subsequence, never longer than the sequence and made of its elements |
| Seqs.IndexOf | src/services/points-calculation.ts:70 | `indexOf` is -1 exactly when the element is absent, and otherwise the first index holding it |
| Seqs.IndexOfDistinct | src/services/points-calculation.ts:70 | in a finishing order without repeats, `indexOf` finds each driver at their own position |
| Seqs.FindFirst | src/app/api/predictions/route.ts:119-124 | the index found is the first whose element matches, and none is found only when no element matches |
| Seqs.Filter | src/components/predictions/prediction-form.tsx:88-91 | `filter` keeps exactly the elements that satisfy the test |
| Seqs.FilterAppend | src/components/predictions/prediction-form.tsx:88-91 | `filter` keeps the elements' order |
| Seqs.SumAppend | src/services/points-calculation.ts:260 | the sum `reduce` computes over two parts is the sum of the parts |
| Seqs.Dedup | src/services/points-calculation.ts:252 | `[...new Set(s)]` holds every element of `s` exactly once |
| Seqs.PermutedKeysDistinct | src/services/points-calculation.ts:63 | rearranging rows whose keys are distinct keeps the keys distinct |
| Sorting.SortByIsSorted | src/services/points-calculation.ts:63 | the sorted result is in ascending key order |
| Sorting.SortByPermutes | src/services/points-calculation.ts:63 | the sorted result is a permutation of the input |
| Sorting.SortBySorted | src/services/points-calculation.ts:63 | a result already in order comes back unchanged |
| Sorting.SortByIdempotent | src/services/points-calculation.ts:63 | sorting twice gives the same as sorting once |
| Sorting.SortByLex | src/app/api/races/route.ts:35-38 | sorting by the first key an input already sorted by the second orders it by both keys |
| Sorting.SortByPairCorrect | src/app/api/races/route.ts:35-38 | `orderBy` on two columns is a permutation ordered by the first column and, within equal first values, by the second |
| Sorting.SortInPlace | src/services/points-calculation.ts:62-63 | `sort` rearranges the array in place into the sorted order of its old contents |
| Db.ValidAfterRewrite | src/services/points-calculation.ts:242-266 | rewriting the prediction points and user totals keeps every uniqueness and reference rule of the tables |
| Db.ValidAfterAddRace | src/app/api/races/route.ts:100-109 | adding a race with a new id and a round not yet used in its season keeps every table rule |
| Db.ValidAfterAddDriver | src/app/api/drivers/route.ts:126-138 | adding a driver with a new id and a new code keeps every table rule |

## Left out

- Persistence: Prisma calls are updates of the `Db.Store` tables. A failed commit is only the `commitFails`/`failing` input. Connection errors, non-transactional partial writes of the development scripts and concurrency are not modelled.
- Timestamps: `createdAt`/`updatedAt` columns and the `updatedAt: new Date()` of an update are not modelled. Dates are strings in the tables and integer milliseconds in the countdown.
- Logging: `console.log`/`console.error` output is not modelled.
- Catch paths: four kinds of 500 response are modelled. The first is a `NaN` season in the races, races-with-points and standings routes. The other three are `RacesRoute.Post` on a status the column refuses, `PredictionsRoute.Save` creating a prediction for a user the store does not hold (a foreign-key failure), and `DriversRoute.Post` on a code already used as a driver id (a unique-id failure). The other database exceptions are not modelled. These include connection errors and the `new Date(date)` of an unparseable race date (src/app/api/races/route.ts:105).
- Fresh ids: row ids (cuid) are chosen by `Db.LongerThanAll`, which is provably unused. The contracts say only that a new id is fresh.
- Randomness: `Math.random()` is a stream of natural draws (`DevScoring.Rng`). The index `j` is the draw modulo `i + 1`, which covers the same range as `Math.floor(Math.random() * (i + 1))`. The distribution is not modelled.
- Standings: `averagePoints` (a floating-point division with `toFixed`) is not modelled.
- Standings: the `image` column of users is not modelled.
- Prisma `include`: the included `user`/`race` objects of the prediction listings are not modelled. The rows are returned without them.
- Teams.Get: the `orderBy` on team and then number is not modelled, because it orders by a text column. The drivers are grouped in storage order.
- DriversRoute.Get: the filtered listing's `orderBy` on team and then number is not modelled, because it orders by a text column. Those drivers are taken in storage order. The unfiltered listing's order by number is modelled.
- PredictionsRoute.Get: the `orderBy` on the race's date is not modelled, because dates are strings. Predictions are taken in storage order.
- OpenF1: `URLSearchParams` percent-encoding is left out. Keys and values are joined as given.
- OpenF1.GetRaceResults: a sample's `date` is the integer instant `new Date(pos.date)` denotes. An unparseable `date` is not modelled. It gives `NaN`, every `>` against it is false, and so the driver's first sample would be kept.
- OpenF1: `fetch` is the `respond` parameter. A `response.json()` that fails to parse is not modelled.
- Request bodies: JSON values of the wrong type are not modelled, such as a non-string `raceId`, non-array `sprintPositions` or a non-boolean `active`. Only the distinctions the routes test are kept.
- Numbers from JSON: the import script's numeric fields are integers. Non-integer numbers are not modelled.
- Js.ParseInt: leading white space, which `parseInt` skips, is not modelled. Its other rules are.
- Schema defaults: the Prisma schema is not part of this model. Where a `create` leaves a column out, the model assumes the schema's default: `points` 0 and a null fastest-lap guess for a new prediction, and also null pole and sprint guesses for the scripts' predictions (`PredictionsRoute.Created`, `DevSeeding.NewPrediction`); `resultsImported` and `hasSprint` false for a new race (`RacesRoute.NewRace`); null columns and `sprintRace` false for a result row the scripts write (`Db.PositionsResult`). No other default is modelled.
- Db.ValidTables: the unique (round, season) of races, the unique emails of users and the one prediction per (user, race) are assumed of the initial store, because the Prisma schema that enforces them is not part of this model; the writes the model covers keep them. `Db.User` cannot hold the null `email` that scripts/seed.js:91 can write.
- Db.PositionsResult: the schema is not part of this model. A result row the development scripts write is assumed to take null in every column they leave out and `false` for `sprintRace`.
- DevSeeding.InsertDriverIfAbsent, DevSeeding.InsertRaceIfAbsent, DevSeeding.InsertUserIfAbsent: a created row always gets a fresh id. The JSON import passes each JSON row to `create` as it is, so a driver, race or user keeps the `id` its JSON row carries (scripts/create-dev-data-from-json.js:58, :84, :101-103). What the model therefore misses: a JSON prediction or result that names its race by that `id` finds the race in the source but not in the model (`DevDataFromJson.RaceMatches`), unless the race was already stored under that id. The same holds for a prediction that names its user by `id` (`DevDataFromJson.UserMatches`). The unique-key error on a JSON `id` that is already taken is not modelled either.
- LeaderboardTable: a null `standings` prop is not modelled. The `standings?.length || 0` fallback only matters for it.
- Rendering: markup, CSS classes, avatars and `formatDate` are not modelled.
- CountdownTimer.CalculateTimeLeft: an unparseable deadline, for which `getTime()` is `NaN`, is not modelled. Instants are integers.
- CountdownTimer.Countdown: `clearInterval` on unmount is not modelled. The interval is only its tick. The deadline is fixed for the object's life. A changed `deadline` prop restarts the effect (`[deadline]`, src/components/ui/countdown-timer.tsx:44-50), but until the next tick `timeLeft` keeps the value computed for the old deadline. The model does not express this.
- CreateDevData.PredictedRaceIds: the contract states only that there are at most four ids and that they are ids of existing races. It does not state that they are the first four 2025 races by round. `DevSeeding.ByRoundOrdered` states that order for the list it slices.
- Authentication: sessions are an input (`Option` of the user id and role). Sign-in and next-auth are not modelled.
- Driver scripts: the scripts that only call the scoring service and print its output are not part of this model.
