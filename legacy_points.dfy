/**
 * The older points script: its own 10/5/3 table (`calculateRacePoints`), kept
 * apart from the scoring service, and `calculateAllPoints`, which rescores
 * every prediction whose race has a result and then rewrites every user's
 * total from all of that user's predictions.
 *
 * Unlike the service, this table scores every guess (no five-slot cap) and
 * reads the official order as stored, without sorting by `position`.
 */
module LegacyPoints {
  import opened Wrappers
  import opened Js
  import opened Seqs
  import opened Db
  import PointsCalculation
  import Recalculation

  // The script's own points table.
  const ExactPosition: int := 10
  const PodiumCorrect: int := 5
  const TopFiveCorrect: int := 3
  const LegacyPole: int := 5
  const LegacyFastestLap: int := 3
  const SprintExact: int := 5
  const SprintPodium: int := 3
  const LegacySprintPole: int := 3

  /** The credit of the guess at `index`, found at `actualPosition` (-1 when absent). */
  function SlotPoints(index: nat, actualPosition: int): int {
    if actualPosition == index then ExactPosition
    else if actualPosition != -1 then
      if index < 3 && actualPosition < 3 then PodiumCorrect
      else if index < 5 && actualPosition < 5 then TopFiveCorrect
      else 0
    else 0
  }

  /** The credit of the first n guesses. */
  function PositionPoints(pred: seq<string>, actual: seq<string>, n: nat): int
    requires n <= |pred|
  {
    if n == 0 then 0
    else PositionPoints(pred, actual, n - 1) + SlotPoints(n - 1, IndexOf(actual, pred[n - 1]))
  }

  /** The credit of one sprint guess. */
  function SprintSlotPoints(index: nat, actualPosition: int): int {
    if actualPosition == index then SprintExact
    else if actualPosition != -1 && index < 3 && actualPosition < 3 then SprintPodium
    else 0
  }

  /** The credit of the first n sprint guesses. */
  function SprintPositionPoints(pred: seq<string>, actual: seq<string>, n: nat): int
    requires n <= |pred|
  {
    if n == 0 then 0
    else SprintPositionPoints(pred, actual, n - 1) + SprintSlotPoints(n - 1, IndexOf(actual, pred[n - 1]))
  }

  /** The sprint block runs only for a sprint race with both sprint orders present. */
  predicate SprintRuns(p: Prediction, r: RaceResult) {
    r.sprintRace && p.sprintPositions.Some? && r.sprintResult.Some?
  }

  /** The sprint block: positions plus the sprint pole, counted only inside it. */
  function SprintPart(p: Prediction, r: RaceResult): int {
    if SprintRuns(p, r) then
      var pred := p.sprintPositions.value;
      SprintPositionPoints(pred, PointsCalculation.DriverOrder(r.sprintResult.value), |pred|)
        + (if p.sprintPolePrediction == r.sprintPolePosition then LegacySprintPole else 0)
    else 0
  }

  /** The main-race block runs only when the result holds a race order. */
  function MainPart(p: Prediction, r: RaceResult): int {
    if r.raceResult.Some? then PositionPoints(p.positions, PointsCalculation.DriverOrder(r.raceResult.value), |p.positions|)
    else 0
  }

  /** What `calculateRacePoints(prediction, actual)` returns. */
  function RacePoints(p: Prediction, r: RaceResult): int {
    MainPart(p, r)
      + (if p.polePositionPrediction == r.polePosition then LegacyPole else 0)
      + (if p.fastestLapPrediction == r.fastestLap then LegacyFastestLap else 0)
      + SprintPart(p, r)
  }

  /** The `forEach` over the main-race guesses. */
  method ScorePositions(positions: seq<string>, actualPositions: seq<string>) returns (points: int)
    ensures points == PositionPoints(positions, actualPositions, |positions|)
  {
    points := 0;
    for index := 0 to |positions|
      invariant points == PositionPoints(positions, actualPositions, index)
    {
      var actualPosition := IndexOf(actualPositions, positions[index]);
      if actualPosition == index {
        points := points + ExactPosition;
      } else if actualPosition != -1 {
        if index < 3 && actualPosition < 3 {
          points := points + PodiumCorrect;
        } else if index < 5 && actualPosition < 5 {
          points := points + TopFiveCorrect;
        }
      }
    }
  }

  /** The `forEach` over the sprint guesses. */
  method ScoreSprintPositions(positions: seq<string>, actualPositions: seq<string>) returns (points: int)
    ensures points == SprintPositionPoints(positions, actualPositions, |positions|)
  {
    points := 0;
    for index := 0 to |positions|
      invariant points == SprintPositionPoints(positions, actualPositions, index)
    {
      var actualPosition := IndexOf(actualPositions, positions[index]);
      if actualPosition == index {
        points := points + SprintExact;
      } else if actualPosition != -1 && index < 3 && actualPosition < 3 {
        points := points + SprintPodium;
      }
    }
  }

  /** `calculateRacePoints(prediction, actual)`. */
  method CalculateRacePoints(prediction: Prediction, actual: RaceResult) returns (points: int)
    ensures points == RacePoints(prediction, actual)
  {
    points := 0;
    if actual.raceResult.Some? {
      points := ScorePositions(prediction.positions, PointsCalculation.DriverOrder(actual.raceResult.value));
    }
    if prediction.polePositionPrediction == actual.polePosition {
      points := points + LegacyPole;
    }
    if prediction.fastestLapPrediction == actual.fastestLap {
      points := points + LegacyFastestLap;
    }
    if actual.sprintRace && prediction.sprintPositions.Some? && actual.sprintResult.Some? {
      var sprintPoints := ScoreSprintPositions(prediction.sprintPositions.value,
                                               PointsCalculation.DriverOrder(actual.sprintResult.value));
      points := points + sprintPoints;
      if prediction.sprintPolePrediction == actual.sprintPolePosition {
        points := points + LegacySprintPole;
      }
    }
  }

  /*
   * Properties of the table.
   */

  /** An exact guess earns 10 at any index; a found guess in the wrong place earns 5, 3 or 0. */
  lemma SlotCredit(index: nat, actualPosition: int)
    requires -1 <= actualPosition
    ensures actualPosition == index ==> SlotPoints(index, actualPosition) == ExactPosition
    ensures actualPosition != index && 0 <= actualPosition < 3 && index < 3 ==>
              SlotPoints(index, actualPosition) == PodiumCorrect
    ensures actualPosition != index && 0 <= actualPosition < 5 && index < 5 && !(index < 3 && actualPosition < 3) ==>
              SlotPoints(index, actualPosition) == TopFiveCorrect
    ensures actualPosition != index && (actualPosition == -1 || actualPosition >= 5 || index >= 5) ==>
              SlotPoints(index, actualPosition) == 0
  {
  }

  /** Guessing a whole stored order of distinct drivers earns 10 per guess, however long it is. */
  lemma {:induction false} AllExactNoCap(actual: seq<string>, n: nat)
    requires Distinct(actual) && n <= |actual|
    ensures PositionPoints(actual, actual, n) == ExactPosition * n
  {
    if n > 0 {
      AllExactNoCap(actual, n - 1);
      IndexOfDistinct(actual, n - 1);
    }
  }

  /** The credit of n guesses lies between 0 and 10 per guess. */
  lemma {:induction false} PositionPointsBounds(pred: seq<string>, actual: seq<string>, n: nat)
    requires n <= |pred|
    ensures 0 <= PositionPoints(pred, actual, n) <= ExactPosition * n
  {
    if n > 0 {
      PositionPointsBounds(pred, actual, n - 1);
    }
  }

  /**
   * The order is read as stored: a result listing the winner second makes
   * a perfect guess of the finishing order worth podium credit only.
   */
  lemma StoredOrderNotSorted()
    ensures var stored := [DriverPosition("b", 2), DriverPosition("a", 1)];
            PositionPoints(["a", "b"], PointsCalculation.DriverOrder(stored), 2) == 2 * PodiumCorrect
  {
    var stored := [DriverPosition("b", 2), DriverPosition("a", 1)];
    assert PointsCalculation.DriverOrder(stored) == ["b", "a"];
    assert IndexOf(["b", "a"], "a") == 1;
    assert IndexOf(["b", "a"], "b") == 0;
  }

  /** Pole +5 exactly on strict equality. */
  lemma PoleSwing(p: Prediction, r: RaceResult, miss: Nullable)
    requires miss != r.polePosition
    ensures RacePoints(p.(polePositionPrediction := r.polePosition), r)
         == RacePoints(p.(polePositionPrediction := miss), r) + LegacyPole
  {
  }

  /** Fastest lap +3 exactly on strict equality. */
  lemma FastestLapSwing(p: Prediction, r: RaceResult, miss: Nullable)
    requires miss != r.fastestLap
    ensures RacePoints(p.(fastestLapPrediction := r.fastestLap), r)
         == RacePoints(p.(fastestLapPrediction := miss), r) + LegacyFastestLap
  {
  }

  /** Without a sprint race and both sprint orders, sprint guesses, the sprint pole included, earn nothing. */
  lemma SprintNeedsAll(p: Prediction, r: RaceResult, sprint: Option<seq<string>>, sprintPole: Nullable)
    requires !r.sprintRace || r.sprintResult.None?
    ensures RacePoints(p.(sprintPositions := sprint, sprintPolePrediction := sprintPole), r) == RacePoints(p, r)
  {
  }

  /** With the sprint block running, the sprint pole is worth +3. */
  lemma SprintPoleSwing(p: Prediction, r: RaceResult, miss: Nullable)
    requires SprintRuns(p, r) && miss != r.sprintPolePosition
    ensures RacePoints(p.(sprintPolePrediction := r.sprintPolePosition), r)
         == RacePoints(p.(sprintPolePrediction := miss), r) + LegacySprintPole
  {
  }

  /*
   * `calculateAllPoints`.
   */

  /** The predictions whose race has a stored result, in storage order. */
  function WithResult(s: seq<Prediction>, results: seq<RaceResult>): (r: seq<Prediction>)
    ensures forall x :: x in r <==> x in s && Recalculation.FirstResult(results, x.raceId).Some?
  {
    if s == [] then []
    else
      WithResult(s[..|s| - 1], results)
        + (if Recalculation.FirstResult(results, s[|s| - 1].raceId).Some? then [s[|s| - 1]] else [])
  }

  /** The `updates` list: one per prediction of `scored`, in order, carrying its score. */
  predicate UpdatesFor(u: seq<Recalculation.PointsUpdate>, scored: seq<Prediction>, results: seq<RaceResult>) {
    |u| == |scored| &&
    forall k :: 0 <= k < |scored| ==>
      var first := Recalculation.FirstResult(results, scored[k].raceId);
      first.Some? && u[k] == Recalculation.PointsUpdate(scored[k].id, scored[k].userId, RacePoints(scored[k], first.value))
  }

  /** The prediction table with every row whose id is in `done` and whose race has a result rescored. */
  function Rescored(s: seq<Prediction>, results: seq<RaceResult>, done: set<string>): (t: seq<Prediction>)
    ensures SamePredictionKeys(s, t)
  {
    seq(|s|, k requires 0 <= k < |s| =>
      var first := Recalculation.FirstResult(results, s[k].raceId);
      if s[k].id in done && first.Some? then s[k].(points := RacePoints(s[k], first.value)) else s[k])
  }

  /** Writing one more scored prediction by id extends the rescored part by that prediction. */
  lemma WriteStep(s0: seq<Prediction>, s: seq<Prediction>, results: seq<RaceResult>, done: set<string>, p: Prediction)
    requires UniquePredictionIds(s0)
    requires p in s0 && Recalculation.FirstResult(results, p.raceId).Some?
    requires s == Rescored(s0, results, done)
    ensures Recalculation.SetPoints(s, p.id, RacePoints(p, Recalculation.FirstResult(results, p.raceId).value))
         == Rescored(s0, results, done + {p.id})
  {
    var t := Recalculation.SetPoints(s, p.id, RacePoints(p, Recalculation.FirstResult(results, p.raceId).value));
    var t' := Rescored(s0, results, done + {p.id});
    forall k | 0 <= k < |s0|
      ensures t[k] == t'[k]
    {
      if s0[k].id == p.id {
        var m :| 0 <= m < |s0| && s0[m] == p;
      }
    }
  }

  /** Once every update is written, exactly the rows whose race has a result are rescored. */
  lemma AllWritten(s0: seq<Prediction>, results: seq<RaceResult>, u: seq<Recalculation.PointsUpdate>)
    requires UpdatesFor(u, WithResult(s0, results), results)
    ensures forall k :: 0 <= k < |s0| ==>
      Rescored(s0, results, Recalculation.UpdatedIds(u))[k] ==
        var first := Recalculation.FirstResult(results, s0[k].raceId);
        if first.Some? then s0[k].(points := RacePoints(s0[k], first.value)) else s0[k]
  {
    var scored := WithResult(s0, results);
    forall k | 0 <= k < |s0| && Recalculation.FirstResult(results, s0[k].raceId).Some?
      ensures s0[k].id in Recalculation.UpdatedIds(u)
    {
      assert s0[k] in scored;
      var j :| 0 <= j < |scored| && scored[j] == s0[k];
      assert u[j].id == s0[k].id;
    }
  }

  /** The loop that fills `updates`. */
  method CollectUpdates(predictions: seq<Prediction>, results: seq<RaceResult>)
    returns (updates: seq<Recalculation.PointsUpdate>)
    ensures UpdatesFor(updates, WithResult(predictions, results), results)
  {
    updates := [];
    for i := 0 to |predictions|
      invariant UpdatesFor(updates, WithResult(predictions[..i], results), results)
    {
      var prediction := predictions[i];
      var raceResult := Recalculation.FirstResult(results, prediction.raceId);
      assert predictions[..i + 1][..i] == predictions[..i];
      if raceResult.Some? {
        var points := CalculateRacePoints(prediction, raceResult.value);
        updates := updates + [Recalculation.PointsUpdate(prediction.id, prediction.userId, points)];
      }
    }
    assert predictions[..|predictions|] == predictions;
  }

  /** The first write loop: each update's points, by id. */
  method WritePoints(db: Store, updates: seq<Recalculation.PointsUpdate>)
    requires UniquePredictionIds(db.predictions)
    requires UpdatesFor(updates, WithResult(db.predictions, db.results), db.results)
    modifies db
    ensures SamePredictionKeys(old(db.predictions), db.predictions)
    ensures forall k :: 0 <= k < |db.predictions| ==>
      var p := old(db.predictions)[k];
      var first := Recalculation.FirstResult(db.results, p.raceId);
      db.predictions[k] == if first.Some? then p.(points := RacePoints(p, first.value)) else p
    ensures db.drivers == old(db.drivers) && db.races == old(db.races) && db.users == old(db.users)
    ensures db.results == old(db.results)
  {
    ghost var s0 := db.predictions;
    ghost var scored := WithResult(s0, db.results);
    for i := 0 to |updates|
      invariant db.predictions == Rescored(s0, db.results, Recalculation.UpdatedIds(updates[..i]))
      invariant db.drivers == old(db.drivers) && db.races == old(db.races) && db.users == old(db.users)
      invariant db.results == old(db.results)
    {
      assert scored[i] in s0;
      WriteStep(s0, db.predictions, db.results, Recalculation.UpdatedIds(updates[..i]), scored[i]);
      assert updates[..i + 1][..i] == updates[..i];
      var update := updates[i];
      db.predictions := Recalculation.SetPoints(db.predictions, update.id, update.points);
    }
    assert updates[..|updates|] == updates;
    AllWritten(s0, db.results, updates);
  }

  /**
   * `calculateAllPoints`: every prediction whose race has a result stores
   * its score under this table, every other prediction keeps its points, and
   * then every user's total is the sum of all of that user's predictions.
   */
  method CalculateAllPoints(db: Store)
    requires db.Valid()
    modifies db
    ensures db.Valid()
    ensures db.drivers == old(db.drivers) && db.races == old(db.races)
    ensures db.results == old(db.results)
    ensures |db.predictions| == |old(db.predictions)|
    ensures forall k :: 0 <= k < |db.predictions| ==>
      var p := old(db.predictions)[k];
      var first := Recalculation.FirstResult(db.results, p.raceId);
      db.predictions[k] == if first.Some? then p.(points := RacePoints(p, first.value)) else p
    ensures |db.users| == |old(db.users)|
    ensures forall k :: 0 <= k < |db.users| ==>
      db.users[k] == old(db.users)[k].(totalPoints := UserTotal(db.predictions, db.users[k].id))
  {
    ghost var s0 := db.predictions;
    var updates := CollectUpdates(db.predictions, db.results);
    WritePoints(db, updates);
    var userIds := UserIds(db.users);
    Recalculation.WriteTotals(db, userIds);
    ValidAfterRewrite(db.drivers, db.races, old(db.users), db.users, s0, db.predictions,
                      db.results);
  }
}
