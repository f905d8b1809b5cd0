/**
 * The recomputation workflow of the scoring service: `calculateAndUpdateRacePoints`
 * scores every prediction of one race, then in one transaction stores the
 * scores and rebuilds each affected user's `totalPoints` from all of that
 * user's predictions; `recalculateAllPoints` does this for every completed
 * race with imported results and stops at the first race that fails.
 *
 * A failed commit is an input (`commitFails`, `failing`): the store cannot
 * fail here on its own, and a failed transaction leaves the store as it was.
 */
module Recalculation {
  import opened Wrappers
  import opened Seqs
  import opened Db
  import opened PointsCalculation
  import opened PointsProperties

  /** One entry of `pointsUpdates`. */
  datatype PointsUpdate = PointsUpdate(id: string, userId: string, points: int)

  /** The `PredictionData` built from a stored prediction. */
  function DataOf(p: Prediction): PredictionData {
    PredictionData(p.id, p.userId, p.positions, p.polePositionPrediction, p.fastestLapPrediction,
                   p.sprintPositions, p.sprintPolePrediction)
  }

  /** The score of a stored prediction; it does not depend on the points stored so far. */
  function ScoreOf(p: Prediction, r: ResultData): int {
    PredictionPoints(DataOf(p), r)
  }

  /** `prediction.findMany({ where: { raceId } })`, in storage order. */
  function RacePredictions(s: seq<Prediction>, raceId: string): (r: seq<Prediction>)
    ensures forall x :: x in r <==> x in s && x.raceId == raceId
  {
    if s == [] then []
    else (if s[0].raceId == raceId then [s[0]] else []) + RacePredictions(s[1..], raceId)
  }

  /** The ids of the users with a prediction for one of the races in `raceIds`. */
  ghost function AffectedUsers(s: seq<Prediction>, raceIds: set<string>): set<string> {
    set k | 0 <= k < |s| && s[k].raceId in raceIds :: s[k].userId
  }

  /** The elements of a list of ids. */
  ghost function Elements(s: seq<string>): set<string> {
    set x | x in s
  }

  /** The prediction table once every prediction of `raceId` stores its score against `r`. */
  function Scored(s: seq<Prediction>, raceId: string, r: ResultData): (t: seq<Prediction>)
    ensures SamePredictionKeys(s, t)
  {
    seq(|s|, k requires 0 <= k < |s| =>
      if s[k].raceId == raceId then s[k].(points := ScoreOf(s[k], r)) else s[k])
  }

  /** The user table once every user in `ids` stores the sum of their points in `predictions`. */
  function Retotalled(s: seq<User>, predictions: seq<Prediction>, ids: set<string>): (t: seq<User>)
    ensures SameUserKeys(s, t)
  {
    seq(|s|, k requires 0 <= k < |s| =>
      if s[k].id in ids then s[k].(totalPoints := UserTotal(predictions, s[k].id)) else s[k])
  }

  /** `tx.prediction.update({ where: { id }, data: { points } })`. */
  function SetPoints(s: seq<Prediction>, id: string, points: int): (t: seq<Prediction>)
    ensures SamePredictionKeys(s, t)
    ensures forall k :: 0 <= k < |s| ==> t[k].points == if s[k].id == id then points else s[k].points
    ensures forall k :: 0 <= k < |s| ==> t[k] == s[k].(points := t[k].points)
  {
    seq(|s|, k requires 0 <= k < |s| => if s[k].id == id then s[k].(points := points) else s[k])
  }

  /** `tx.user.update({ where: { id }, data: { totalPoints } })`. */
  function SetTotal(s: seq<User>, id: string, totalPoints: int): (t: seq<User>)
    ensures SameUserKeys(s, t)
    ensures forall k :: 0 <= k < |s| ==> t[k] == if s[k].id == id then s[k].(totalPoints := totalPoints) else s[k]
  {
    seq(|s|, k requires 0 <= k < |s| => if s[k].id == id then s[k].(totalPoints := totalPoints) else s[k])
  }

  /*
   * Facts the workflow's proof uses.
   */

  /** Result states the scorer cannot tell apart give every prediction the same score. */
  lemma SameOfficialSameScore(p: Prediction, cur: ResultData, orig: ResultData)
    requires SameOfficial(cur, orig)
    ensures ScoreOf(p, cur) == ScoreOf(p, orig)
  {
  }

  /**
   * A user's total depends only on that user's rows: rewriting the points of
   * other users' predictions leaves it as it was.
   */
  lemma {:induction false} UserTotalFrame(s: seq<Prediction>, t: seq<Prediction>, userId: string)
    requires SamePredictionKeys(s, t)
    requires forall k :: 0 <= k < |s| && s[k].userId == userId ==> s[k].points == t[k].points
    ensures UserTotal(s, userId) == UserTotal(t, userId)
  {
    if s != [] {
      UserTotalFrame(s[..|s| - 1], t[..|t| - 1], userId);
    }
  }

  /** The ids of a list of updates. */
  ghost function UpdatedIds(u: seq<PointsUpdate>): (ids: set<string>)
    ensures forall k :: 0 <= k < |u| ==> u[k].id in ids
  {
    if u == [] then {} else UpdatedIds(u[..|u| - 1]) + {u[|u| - 1].id}
  }

  /** The prediction table with the rows whose id is in `done` rescored against `r`. */
  function PartlyScored(s: seq<Prediction>, raceId: string, r: ResultData, done: set<string>): (t: seq<Prediction>)
    ensures SamePredictionKeys(s, t)
  {
    seq(|s|, k requires 0 <= k < |s| =>
      if s[k].raceId == raceId && s[k].id in done then s[k].(points := ScoreOf(s[k], r)) else s[k])
  }

  /** The updates `calculateAndUpdateRacePoints` collects: one per prediction of the race, in order. */
  predicate UpdatesFor(u: seq<PointsUpdate>, race: seq<Prediction>, r: ResultData) {
    |u| == |race| &&
    forall k :: 0 <= k < |race| ==> u[k] == PointsUpdate(race[k].id, race[k].userId, ScoreOf(race[k], r))
  }

  /** Writing one more update by id extends the rescored part by that prediction. */
  lemma SetPointsStep(s0: seq<Prediction>, s: seq<Prediction>, raceId: string, r: ResultData,
                      done: set<string>, p: Prediction)
    requires UniquePredictionIds(s0)
    requires p in s0 && p.raceId == raceId
    requires s == PartlyScored(s0, raceId, r, done)
    ensures SetPoints(s, p.id, ScoreOf(p, r)) == PartlyScored(s0, raceId, r, done + {p.id})
  {
    var t := SetPoints(s, p.id, ScoreOf(p, r));
    var t' := PartlyScored(s0, raceId, r, done + {p.id});
    forall k | 0 <= k < |s0|
      ensures t[k] == t'[k]
    {
      if s0[k].id == p.id {
        var m :| 0 <= m < |s0| && s0[m] == p;
      }
    }
  }

  /** One pass of the first transaction loop, on the tables. */
  lemma WritePointsStep(s0: seq<Prediction>, s: seq<Prediction>, raceId: string, r: ResultData,
                        race: seq<Prediction>, u: seq<PointsUpdate>, i: nat)
    requires UniquePredictionIds(s0)
    requires race == RacePredictions(s0, raceId) && UpdatesFor(u, race, r) && i < |u|
    requires s == PartlyScored(s0, raceId, r, UpdatedIds(u[..i]))
    ensures SetPoints(s, u[i].id, u[i].points) == PartlyScored(s0, raceId, r, UpdatedIds(u[..i + 1]))
  {
    assert race[i] in s0;
    SetPointsStep(s0, s, raceId, r, UpdatedIds(u[..i]), race[i]);
    assert u[..i + 1][..i] == u[..i];
  }

  /** Once every prediction of the race has been written, the table is `Scored`. */
  lemma AllUpdated(s0: seq<Prediction>, raceId: string, r: ResultData, race: seq<Prediction>, u: seq<PointsUpdate>)
    requires race == RacePredictions(s0, raceId) && UpdatesFor(u, race, r)
    ensures PartlyScored(s0, raceId, r, UpdatedIds(u)) == Scored(s0, raceId, r)
  {
    forall k | 0 <= k < |s0| && s0[k].raceId == raceId
      ensures s0[k].id in UpdatedIds(u)
    {
      assert s0[k] in race;
      var j :| 0 <= j < |race| && race[j] == s0[k];
      assert u[j].id == s0[k].id;
    }
  }

  /** The users named by the updates are the users with a prediction for the race. */
  lemma AffectedUsersUpdated(s0: seq<Prediction>, raceId: string, r: ResultData,
                             race: seq<Prediction>, u: seq<PointsUpdate>)
    requires race == RacePredictions(s0, raceId) && UpdatesFor(u, race, r)
    ensures Elements(AffectedUserIds(u)) == AffectedUsers(s0, {raceId})
  {
    forall x | x in AffectedUsers(s0, {raceId})
      ensures x in Elements(AffectedUserIds(u))
    {
      AffectedUserNamed(s0, raceId, r, race, u, x);
    }
    forall x | x in Elements(AffectedUserIds(u))
      ensures x in AffectedUsers(s0, {raceId})
    {
      NamedUserAffected(s0, raceId, r, race, u, x);
    }
  }

  lemma AffectedUserNamed(s0: seq<Prediction>, raceId: string, r: ResultData,
                          race: seq<Prediction>, u: seq<PointsUpdate>, x: string)
    requires race == RacePredictions(s0, raceId) && UpdatesFor(u, race, r)
    requires x in AffectedUsers(s0, {raceId})
    ensures x in AffectedUserIds(u)
  {
    var k :| 0 <= k < |s0| && s0[k].raceId == raceId && s0[k].userId == x;
    assert s0[k] in race;
    var j :| 0 <= j < |race| && race[j] == s0[k];
    assert u[j].userId == x;
  }

  lemma NamedUserAffected(s0: seq<Prediction>, raceId: string, r: ResultData,
                          race: seq<Prediction>, u: seq<PointsUpdate>, x: string)
    requires race == RacePredictions(s0, raceId) && UpdatesFor(u, race, r)
    requires x in AffectedUserIds(u)
    ensures x in AffectedUsers(s0, {raceId})
  {
    var j :| 0 <= j < |u| && u[j].userId == x;
    assert race[j] in s0;
    var k :| 0 <= k < |s0| && s0[k] == race[j];
  }

  /*
   * The workflow.
   */

  /** The loop that fills `pointsUpdates`, scoring each prediction against the shared result object. */
  method CollectUpdates(predictions: seq<Prediction>, raceResults: RaceResults, ghost orig: ResultData)
    returns (pointsUpdates: seq<PointsUpdate>)
    requires SameOfficial(Contents(raceResults), orig)
    modifies Arrays(raceResults)
    ensures SameOfficial(Contents(raceResults), orig)
    ensures UpdatesFor(pointsUpdates, predictions, orig)
  {
    pointsUpdates := [];
    for i := 0 to |predictions|
      invariant SameOfficial(Contents(raceResults), orig)
      invariant UpdatesFor(pointsUpdates, predictions[..i], orig)
    {
      var prediction := predictions[i];
      ghost var before := Contents(raceResults);
      var points := CalculatePredictionPoints(DataOf(prediction), raceResults);
      SameOfficialSameScore(prediction, before, orig);
      pointsUpdates := pointsUpdates + [PointsUpdate(prediction.id, prediction.userId, points)];
    }
  }

  /** The first loop of the transaction: write each update's points by id. */
  method WritePoints(db: Store, pointsUpdates: seq<PointsUpdate>,
                     ghost raceId: string, ghost r: ResultData, ghost race: seq<Prediction>)
    requires UniquePredictionIds(db.predictions)
    requires race == RacePredictions(db.predictions, raceId) && UpdatesFor(pointsUpdates, race, r)
    modifies db
    ensures db.predictions == Scored(old(db.predictions), raceId, r)
    ensures db.drivers == old(db.drivers) && db.races == old(db.races) && db.users == old(db.users)
    ensures db.results == old(db.results)
  {
    ghost var s0 := db.predictions;
    for i := 0 to |pointsUpdates|
      invariant db.predictions == PartlyScored(s0, raceId, r, UpdatedIds(pointsUpdates[..i]))
      invariant db.drivers == old(db.drivers) && db.races == old(db.races) && db.users == old(db.users)
      invariant db.results == old(db.results)
    {
      WritePointsStep(s0, db.predictions, raceId, r, race, pointsUpdates, i);
      var update := pointsUpdates[i];
      db.predictions := SetPoints(db.predictions, update.id, update.points);
    }
    assert pointsUpdates[..|pointsUpdates|] == pointsUpdates;
    AllUpdated(s0, raceId, r, race, pointsUpdates);
  }

  /** The second loop of the transaction: each affected user's total, re-read from the predictions. */
  method WriteTotals(db: Store, affectedUserIds: seq<string>)
    modifies db
    ensures db.users == Retotalled(old(db.users), db.predictions, Elements(affectedUserIds))
    ensures db.drivers == old(db.drivers) && db.races == old(db.races) && db.predictions == old(db.predictions)
    ensures db.results == old(db.results)
  {
    ghost var u0 := db.users;
    for i := 0 to |affectedUserIds|
      invariant db.users == Retotalled(u0, db.predictions, Elements(affectedUserIds[..i]))
      invariant db.drivers == old(db.drivers) && db.races == old(db.races) && db.predictions == old(db.predictions)
      invariant db.results == old(db.results)
    {
      var userId := affectedUserIds[i];
      var totalPoints := UserTotal(db.predictions, userId);
      db.users := SetTotal(db.users, userId, totalPoints);
      assert affectedUserIds[..i + 1] == affectedUserIds[..i] + [userId];
    }
    assert affectedUserIds[..|affectedUserIds|] == affectedUserIds;
  }

  /** `[...new Set(pointsUpdates.map(u => u.userId))]`. */
  function AffectedUserIds(u: seq<PointsUpdate>): (r: seq<string>)
    ensures forall x :: x in r <==> exists k :: 0 <= k < |u| && u[k].userId == x
  {
    var ids := seq(|u|, k requires 0 <= k < |u| => u[k].userId);
    assert forall k :: 0 <= k < |u| ==> ids[k] == u[k].userId;
    Dedup(ids)
  }

  /**
   * `calculateAndUpdateRacePoints`: scores every prediction of the race,
   * then either commits all the new points and every affected user's new
   * total, or (when the commit fails) leaves the store as it was.
   */
  method CalculateAndUpdateRacePoints(db: Store, raceId: string, raceResults: RaceResults, commitFails: bool)
    returns (ok: bool)
    requires db.Valid()
    modifies db, Arrays(raceResults)
    ensures db.Valid()
    ensures ok == !commitFails
    ensures db.drivers == old(db.drivers) && db.races == old(db.races)
    ensures db.results == old(db.results)
    ensures ok ==> db.predictions == Scored(old(db.predictions), raceId, old(Contents(raceResults)))
    ensures ok ==> db.users == Retotalled(old(db.users), db.predictions, AffectedUsers(old(db.predictions), {raceId}))
    ensures !ok ==> db.predictions == old(db.predictions) && db.users == old(db.users)
    ensures SameOfficial(Contents(raceResults), old(Contents(raceResults)))
  {
    ghost var orig := Contents(raceResults);
    ghost var p0 := db.predictions;
    var predictions := RacePredictions(db.predictions, raceId);
    var pointsUpdates := CollectUpdates(predictions, raceResults, orig);
    if commitFails {
      return false;
    }
    WritePoints(db, pointsUpdates, raceId, orig, predictions);
    var affectedUserIds := AffectedUserIds(pointsUpdates);
    WriteTotals(db, affectedUserIds);
    AffectedUsersUpdated(p0, raceId, orig, predictions, pointsUpdates);
    ValidAfterRewrite(db.drivers, db.races, old(db.users), db.users, p0, db.predictions,
                      db.results);
    ok := true;
  }

  /*
   * Recalculating every race.
   */

  /** `race.findMany({ where: { resultsImported: true, status: 'COMPLETED' } })`, in storage order. */
  function EligibleRaces(s: seq<Race>): (r: seq<Race>)
    ensures forall x :: x in r <==> x in s && x.resultsImported && x.status == Completed
  {
    if s == [] then []
    else (if s[0].resultsImported && s[0].status == Completed then [s[0]] else []) + EligibleRaces(s[1..])
  }

  /** `race.results[0]`: the first stored result of the race, if it has any. */
  function FirstResult(results: seq<RaceResult>, raceId: string): (r: Option<RaceResult>)
    ensures r.Some? ==> r.value in results && r.value.raceId == raceId
    ensures r.None? ==> forall k :: 0 <= k < |results| ==> results[k].raceId != raceId
  {
    match FindFirst(results, (x: RaceResult) => x.raceId == raceId)
    case None => None
    case Some(k) => Some(results[k])
  }

  /** The `RaceResults` object built from a stored result, as values. */
  function ResultDataOf(x: RaceResult): ResultData {
    ResultData(x.polePosition, x.fastestLap, x.raceResult, x.sprintPolePosition, x.sprintResult)
  }

  /** The score a prediction gets from the first stored result of its race. */
  function StoredScore(p: Prediction, results: seq<RaceResult>): int
    requires FirstResult(results, p.raceId).Some?
  {
    ScoreOf(p, ResultDataOf(FirstResult(results, p.raceId).value))
  }

  /** The prediction table once every prediction of a race in `done` stores its score. */
  function Rescored(s: seq<Prediction>, results: seq<RaceResult>, done: set<string>): (t: seq<Prediction>)
    ensures SamePredictionKeys(s, t)
  {
    seq(|s|, k requires 0 <= k < |s| =>
      if s[k].raceId in done && FirstResult(results, s[k].raceId).Some? then
        s[k].(points := StoredScore(s[k], results))
      else s[k])
  }

  /** The eligible race at index j has a stored result and its commit fails. */
  predicate FailsAt(e: seq<Race>, results: seq<RaceResult>, failing: set<string>, j: nat)
    requires j < |e|
  {
    FirstResult(results, e[j].id).Some? && e[j].id in failing
  }

  /** The ids of the first n eligible races that have a stored result. */
  ghost function Processed(e: seq<Race>, results: seq<RaceResult>, n: nat): set<string>
    requires n <= |e|
  {
    set j | 0 <= j < n && FirstResult(results, e[j].id).Some? :: e[j].id
  }

  /** Scoring one more race against its first stored result extends `Rescored` by that race. */
  lemma RescoredStep(p0: seq<Prediction>, s: seq<Prediction>, results: seq<RaceResult>, done: set<string>, raceId: string)
    requires FirstResult(results, raceId).Some?
    requires s == Rescored(p0, results, done)
    ensures Scored(s, raceId, ResultDataOf(FirstResult(results, raceId).value)) == Rescored(p0, results, done + {raceId})
  {
    var r := ResultDataOf(FirstResult(results, raceId).value);
    forall k | 0 <= k < |p0| && p0[k].raceId == raceId
      ensures ScoreOf(s[k], r) == StoredScore(p0[k], results)
    {
      assert DataOf(s[k]) == DataOf(p0[k]);
    }
  }

  /** Retotalling the users of one more race keeps every earlier user's total current. */
  lemma RetotalledStep(u0: seq<User>, p0: seq<Prediction>, s: seq<Prediction>, r: ResultData,
                       done: set<string>, raceId: string)
    requires SamePredictionKeys(p0, s)
    ensures Retotalled(Retotalled(u0, s, AffectedUsers(p0, done)), Scored(s, raceId, r), AffectedUsers(s, {raceId}))
         == Retotalled(u0, Scored(s, raceId, r), AffectedUsers(p0, done + {raceId}))
  {
    var t := Scored(s, raceId, r);
    var before := AffectedUsers(p0, done);
    var now := AffectedUsers(s, {raceId});
    assert AffectedUsers(p0, done + {raceId}) == before + now by {
      assert AffectedUsers(s, {raceId}) == AffectedUsers(p0, {raceId});
    }
    forall k | 0 <= k < |u0| && u0[k].id in before && u0[k].id !in now
      ensures UserTotal(t, u0[k].id) == UserTotal(s, u0[k].id)
    {
      assert forall j :: 0 <= j < |s| && s[j].userId == u0[k].id ==> s[j].points == t[j].points;
      UserTotalFrame(s, t, u0[k].id);
    }
  }

  /** A fresh array holding `xs`. */
  method ToArray(xs: seq<DriverPosition>) returns (a: array<DriverPosition>)
    ensures fresh(a) && a[..] == xs
  {
    a := new DriverPosition[|xs|](k requires 0 <= k < |xs| => xs[k]);
  }

  /**
   * The store after the first n eligible races were recalculated: none of
   * them failed, and exactly their predictions and their users' totals are
   * rewritten.
   */
  ghost predicate RecalculatedUpTo(p0: seq<Prediction>, u0: seq<User>, results: seq<RaceResult>,
                                   e: seq<Race>, failing: set<string>, n: nat,
                                   predictions: seq<Prediction>, users: seq<User>)
    requires n <= |e|
  {
    && (forall j :: 0 <= j < n ==> !FailsAt(e, results, failing, j))
    && predictions == Rescored(p0, results, Processed(e, results, n))
    && users == Retotalled(u0, predictions, AffectedUsers(p0, Processed(e, results, n)))
  }

  /**
   * The run stopped at the eligible race `id`: its commit failed, and the
   * store holds what the races before it produced.
   */
  ghost predicate StoppedAt(p0: seq<Prediction>, u0: seq<User>, results: seq<RaceResult>,
                            e: seq<Race>, failing: set<string>, id: string,
                            predictions: seq<Prediction>, users: seq<User>)
  {
    exists m :: 0 <= m < |e| && e[m].id == id && FailsAt(e, results, failing, m) &&
      RecalculatedUpTo(p0, u0, results, e, failing, m, predictions, users)
  }

  /** Before the loop nothing is recalculated. */
  lemma RecalculatedNone(p0: seq<Prediction>, u0: seq<User>, results: seq<RaceResult>,
                         e: seq<Race>, failing: set<string>)
    ensures RecalculatedUpTo(p0, u0, results, e, failing, 0, p0, u0)
  {
    assert Processed(e, results, 0) == {};
    assert AffectedUsers(p0, {}) == {};
    assert Rescored(p0, results, {}) == p0;
    assert Retotalled(u0, p0, {}) == u0;
  }

  /** A failing commit at the `i`-th eligible race stops the run there. */
  lemma StoppedHere(p0: seq<Prediction>, u0: seq<User>, results: seq<RaceResult>,
                    e: seq<Race>, failing: set<string>, i: nat,
                    predictions: seq<Prediction>, users: seq<User>)
    requires i < |e| && FailsAt(e, results, failing, i)
    requires RecalculatedUpTo(p0, u0, results, e, failing, i, predictions, users)
    ensures StoppedAt(p0, u0, results, e, failing, e[i].id, predictions, users)
  {
  }

  /** One eligible race recalculated does not change which earlier races failed. */
  lemma RecalculatedStep(p0: seq<Prediction>, u0: seq<User>, results: seq<RaceResult>,
                         e: seq<Race>, failing: set<string>, i: nat,
                         s: seq<Prediction>, u: seq<User>)
    requires i < |e| && !FailsAt(e, results, failing, i)
    requires RecalculatedUpTo(p0, u0, results, e, failing, i, s, u)
    ensures FirstResult(results, e[i].id).None? ==>
      RecalculatedUpTo(p0, u0, results, e, failing, i + 1, s, u)
    ensures FirstResult(results, e[i].id).Some? ==>
      var t := Scored(s, e[i].id, ResultDataOf(FirstResult(results, e[i].id).value));
      RecalculatedUpTo(p0, u0, results, e, failing, i + 1, t, Retotalled(u, t, AffectedUsers(s, {e[i].id})))
  {
    var done := Processed(e, results, i);
    if FirstResult(results, e[i].id).Some? {
      assert Processed(e, results, i + 1) == done + {e[i].id};
      RescoredStep(p0, s, results, done, e[i].id);
      RetotalledStep(u0, p0, s, ResultDataOf(FirstResult(results, e[i].id).value), done, e[i].id);
    } else {
      assert Processed(e, results, i + 1) == done;
    }
  }

  /**
   * The loop body of `recalculateAllPoints` for a race with a stored result:
   * its official orders are copied into fresh arrays and the race is
   * recomputed as `calculateAndUpdateRacePoints` does.
   */
  method RecalculateRace(db: Store, raceId: string, raceResult: RaceResult, commitFails: bool) returns (ok: bool)
    requires db.Valid()
    modifies db
    ensures db.Valid() && ok == !commitFails
    ensures db.drivers == old(db.drivers) && db.races == old(db.races)
    ensures db.results == old(db.results)
    ensures ok ==> db.predictions == Scored(old(db.predictions), raceId, ResultDataOf(raceResult))
    ensures ok ==> db.users == Retotalled(old(db.users), db.predictions, AffectedUsers(old(db.predictions), {raceId}))
    ensures !ok ==> db.predictions == old(db.predictions) && db.users == old(db.users)
  {
    var a: Option<array<DriverPosition>> := None;
    if raceResult.raceResult.Some? {
      var main := ToArray(raceResult.raceResult.value);
      a := Some(main);
    }
    var b: Option<array<DriverPosition>> := None;
    if raceResult.sprintResult.Some? {
      var sprint := ToArray(raceResult.sprintResult.value);
      b := Some(sprint);
    }
    var raceResults := RaceResults(raceResult.polePosition, raceResult.fastestLap, a,
                                   raceResult.sprintPolePosition, b);
    assert Contents(raceResults) == ResultDataOf(raceResult);
    ok := CalculateAndUpdateRacePoints(db, raceId, raceResults, commitFails);
  }

  /**
   * `recalculateAllPoints`: every completed race with imported results and a
   * stored result is recomputed against its first result, in storage order;
   * the first race whose commit fails ends the run, and is reported.
   */
  method RecalculateAllPoints(db: Store, failing: set<string>) returns (failure: Option<string>)
    requires db.Valid()
    modifies db
    ensures db.Valid()
    ensures db.drivers == old(db.drivers) && db.races == old(db.races)
    ensures db.results == old(db.results)
    ensures failure.None? ==>
      var e := EligibleRaces(old(db.races));
      RecalculatedUpTo(old(db.predictions), old(db.users), old(db.results), e, failing, |e|, db.predictions, db.users)
    ensures failure.Some? ==>
      StoppedAt(old(db.predictions), old(db.users), old(db.results), EligibleRaces(old(db.races)), failing,
                failure.value, db.predictions, db.users)
  {
    ghost var p0, u0, r0 := db.predictions, db.users, db.results;
    var racesWithResults := EligibleRaces(db.races);
    ghost var e := racesWithResults;
    RecalculatedNone(p0, u0, r0, e, failing);
    for i := 0 to |racesWithResults|
      invariant db.Valid()
      invariant db.drivers == old(db.drivers) && db.races == old(db.races)
      invariant db.results == r0
      invariant RecalculatedUpTo(p0, u0, r0, e, failing, i, db.predictions, db.users)
    {
      var race := racesWithResults[i];
      var first := FirstResult(db.results, race.id);
      if first.Some? {
        ghost var s, u := db.predictions, db.users;
        var ok := RecalculateRace(db, race.id, first.value, race.id in failing);
        if !ok {
          failure := Some(race.id);
          StoppedHere(p0, u0, r0, e, failing, i, db.predictions, db.users);
          return;
        }
        RecalculatedStep(p0, u0, r0, e, failing, i, s, u);
      } else {
        RecalculatedStep(p0, u0, r0, e, failing, i, db.predictions, db.users);
      }
    }
    failure := None;
  }
}
