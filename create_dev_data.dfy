/**
 * `create-dev-data.js`: seed drivers, races and users if absent; give every
 * user a shuffled prediction for each of the season's first four races by
 * round that has none; and, when the first race has no result yet, create a
 * shuffled one, complete the race and store each of its predictions' credit
 * under the development table.
 */
module CreateDevData {
  import opened Wrappers
  import opened Js
  import opened Seqs
  import opened Db
  import opened DevScoring
  import opened DevSeeding

  const DevSeason: int := 2025
  const PredictedRaces: int := 4

  /** How the script ends. */
  datatype DevData =
    | NoSeasonRace       // `allRaces[0]` is undefined: the TypeError is caught and logged
    | ResultKept(raceId: string)
    | ResultSimulated(raceId: string, positions: seq<string>)

  /*
   * Sample predictions.
   */

  /**
   * A row the prediction loops may have added to `p0`: for a user and a race
   * in the lists, for a pair that had no prediction, with the active driver
   * ids in some order and the schema defaults elsewhere.
   */
  ghost predicate IsSample(p0: seq<Prediction>, p: Prediction, userIds: seq<string>, raceIds: seq<string>, active: seq<string>) {
    && p.userId in userIds && p.raceId in raceIds
    && !HasPrediction(p0, p.userId, p.raceId)
    && p == NewPrediction(p.id, p.userId, p.raceId, p.positions, 0)
    && multiset(p.positions) == multiset(active)
  }

  /** `cur` keeps the rows of `p0` and adds only samples. */
  ghost predicate Grown(p0: seq<Prediction>, cur: seq<Prediction>, userIds: seq<string>, raceIds: seq<string>, active: seq<string>) {
    && |p0| <= |cur| && cur[..|p0|] == p0
    && forall k :: |p0| <= k < |cur| ==> IsSample(p0, cur[k], userIds, raceIds, active)
  }

  /** Every (user, race) pair of the lists has a prediction in `cur`. */
  ghost predicate Covers(cur: seq<Prediction>, userIds: seq<string>, raceIds: seq<string>) {
    forall u, r :: u in userIds && r in raceIds ==> HasPrediction(cur, u, r)
  }

  /** Adding rows keeps every prediction that was there. */
  lemma HasPredictionGrows(s: seq<Prediction>, t: seq<Prediction>, userId: string, raceId: string)
    requires |s| <= |t| && t[..|s|] == s
    requires HasPrediction(s, userId, raceId)
    ensures HasPrediction(t, userId, raceId)
  {
    var k :| 0 <= k < |s| && s[k].userId == userId && s[k].raceId == raceId;
    assert t[k] == s[k];
  }

  /** A sample against a later table is a sample against an earlier one, and for wider lists. */
  lemma SampleWiden(p0: seq<Prediction>, p1: seq<Prediction>, p: Prediction,
                    us: seq<string>, us': seq<string>, rs: seq<string>, rs': seq<string>, active: seq<string>)
    requires IsSample(p1, p, us, rs, active)
    requires |p0| <= |p1| && p1[..|p0|] == p0
    requires forall x :: x in us ==> x in us'
    requires forall x :: x in rs ==> x in rs'
    ensures IsSample(p0, p, us', rs', active)
  {
    if HasPrediction(p0, p.userId, p.raceId) {
      HasPredictionGrows(p0, p1, p.userId, p.raceId);
    }
  }

  /** One race of the inner loop keeps `Grown` and `Covers` one race further. */
  lemma SampleStep(p0: seq<Prediction>, before: seq<Prediction>, after: seq<Prediction>,
                   userId: string, raceIds: seq<string>, j: nat, active: seq<string>, created: bool)
    requires j < |raceIds|
    requires Grown(p0, before, [userId], raceIds[..j], active) && Covers(before, [userId], raceIds[..j])
    requires created == !HasPrediction(before, userId, raceIds[j])
    requires created ==> (AppendedOne(before, after) &&
      after[|before|] == NewPrediction(after[|before|].id, userId, raceIds[j], after[|before|].positions, 0) &&
      multiset(after[|before|].positions) == multiset(active))
    requires !created ==> after == before
    ensures Grown(p0, after, [userId], raceIds[..j + 1], active) && Covers(after, [userId], raceIds[..j + 1])
  {
    assert raceIds[..j + 1] == raceIds[..j] + [raceIds[j]];
    forall k | |p0| <= k < |after|
      ensures IsSample(p0, after[k], [userId], raceIds[..j + 1], active)
    {
      if k < |before| {
        assert after[k] == before[k];
        SampleWiden(p0, p0, after[k], [userId], [userId], raceIds[..j], raceIds[..j + 1], active);
      } else {
        SampleWiden(p0, before, after[k], [userId], [userId], raceIds[..j + 1], raceIds[..j + 1], active);
      }
    }
    forall u, r | u in [userId] && r in raceIds[..j + 1]
      ensures HasPrediction(after, u, r)
    {
      if r in raceIds[..j] {
        HasPredictionGrows(before, after, u, r);
      } else if created {
        assert after[|before|].userId == u && after[|before|].raceId == r;
      }
    }
  }

  /** One user of the outer loop keeps `Grown` and `Covers` one user further. */
  lemma UserStep(p0: seq<Prediction>, mid: seq<Prediction>, after: seq<Prediction>,
                 userIds: seq<string>, i: nat, raceIds: seq<string>, active: seq<string>)
    requires i < |userIds|
    requires Grown(p0, mid, userIds[..i], raceIds, active) && Covers(mid, userIds[..i], raceIds)
    requires Grown(mid, after, [userIds[i]], raceIds, active) && Covers(after, [userIds[i]], raceIds)
    ensures Grown(p0, after, userIds[..i + 1], raceIds, active) && Covers(after, userIds[..i + 1], raceIds)
  {
    assert userIds[..i + 1] == userIds[..i] + [userIds[i]];
    assert after[..|mid|][..|p0|] == after[..|p0|];
    forall k | |p0| <= k < |after|
      ensures IsSample(p0, after[k], userIds[..i + 1], raceIds, active)
    {
      if k < |mid| {
        assert after[k] == mid[k];
        SampleWiden(p0, p0, after[k], userIds[..i], userIds[..i + 1], raceIds, raceIds, active);
      } else {
        SampleWiden(p0, mid, after[k], [userIds[i]], userIds[..i + 1], raceIds, raceIds, active);
      }
    }
    forall u, r | u in userIds[..i + 1] && r in raceIds
      ensures HasPrediction(after, u, r)
    {
      if u in userIds[..i] {
        HasPredictionGrows(mid, after, u, r);
      }
    }
  }

  /** An added row is for a listed pair that had no prediction. */
  lemma AddedRow(p0: seq<Prediction>, cur: seq<Prediction>, userIds: seq<string>, raceIds: seq<string>, active: seq<string>, k: nat)
    requires Grown(p0, cur, userIds, raceIds, active) && |p0| <= k < |cur|
    ensures cur[k].userId in userIds && cur[k].raceId in raceIds
    ensures !HasPrediction(p0, cur[k].userId, cur[k].raceId)
  {
  }

  /** When every pair already has a prediction, the loops add nothing. */
  lemma NothingNewWhenCovered(p0: seq<Prediction>, cur: seq<Prediction>, userIds: seq<string>, raceIds: seq<string>, active: seq<string>)
    requires Grown(p0, cur, userIds, raceIds, active) && Covers(p0, userIds, raceIds)
    ensures cur == p0
  {
    if |cur| > |p0| {
      AddedRow(p0, cur, userIds, raceIds, active, |p0|);
      assert false;
    }
  }

  /**
   * The inner loop for one user: each listed race without a prediction of
   * the user gets one with a fresh shuffle of the active driver ids.
   */
  method SampleUser(db: Store, rng: Rng, userId: string, raceIds: seq<string>, active: seq<string>)
    requires db.Valid()
    requires userId in UserIds(db.users) && forall r :: r in raceIds ==> r in RaceIds(db.races)
    modifies db, rng
    ensures db.Valid()
    ensures Grown(old(db.predictions), db.predictions, [userId], raceIds, active)
    ensures Covers(db.predictions, [userId], raceIds)
    ensures db.drivers == old(db.drivers) && db.races == old(db.races) && db.users == old(db.users)
    ensures db.results == old(db.results)
  {
    ghost var p0 := db.predictions;
    for j := 0 to |raceIds|
      invariant db.Valid()
      invariant Grown(p0, db.predictions, [userId], raceIds[..j], active)
      invariant Covers(db.predictions, [userId], raceIds[..j])
      invariant db.drivers == old(db.drivers) && db.races == old(db.races) && db.users == old(db.users)
      invariant db.results == old(db.results)
    {
      ghost var before := db.predictions;
      var absent := !HasPrediction(db.predictions, userId, raceIds[j]);
      if absent {
        var driverIds := ShuffledIds(active, rng);
        var created := CreatePredictionIfAbsent(db, userId, raceIds[j], driverIds, 0);
      }
      SampleStep(p0, before, db.predictions, userId, raceIds, j, active, absent);
    }
    assert raceIds[..|raceIds|] == raceIds;
  }

  /**
   * The prediction loops: afterwards every user has a prediction for every
   * listed race, the rows already there are kept, and only samples are added.
   */
  method CreateSamplePredictions(db: Store, rng: Rng, raceIds: seq<string>, active: seq<string>)
    requires db.Valid()
    requires forall r :: r in raceIds ==> r in RaceIds(db.races)
    modifies db, rng
    ensures db.Valid()
    ensures Grown(old(db.predictions), db.predictions, UserIds(db.users), raceIds, active)
    ensures Covers(db.predictions, UserIds(db.users), raceIds)
    ensures db.drivers == old(db.drivers) && db.races == old(db.races) && db.users == old(db.users)
    ensures db.results == old(db.results)
  {
    ghost var p0 := db.predictions;
    var userIds := UserIds(db.users);
    for i := 0 to |userIds|
      invariant db.Valid()
      invariant Grown(p0, db.predictions, userIds[..i], raceIds, active)
      invariant Covers(db.predictions, userIds[..i], raceIds)
      invariant db.drivers == old(db.drivers) && db.races == old(db.races) && db.users == old(db.users)
      invariant db.results == old(db.results)
    {
      ghost var mid := db.predictions;
      SampleUser(db, rng, userIds[i], raceIds, active);
      UserStep(p0, mid, db.predictions, userIds, i, raceIds, active);
    }
    assert userIds[..|userIds|] == userIds;
  }

  /*
   * The first race's result.
   */

  /**
   * The tables after step 5, from the tables before it: with no race the
   * script stops; a first race that already has a result keeps everything;
   * otherwise the race gets one new result holding a permutation of the
   * active driver ids, is completed, and its predictions are scored.
   */
  ghost predicate FirstResultWritten(races0: seq<Race>, races: seq<Race>, p0: seq<Prediction>, p: seq<Prediction>,
                                     pr0: seq<RaceResult>, pr: seq<RaceResult>,
                                     allRaces: seq<Race>, active: seq<string>, outcome: DevData)
  {
    && (allRaces == [] ==> outcome == NoSeasonRace)
    && (allRaces != [] && HasResult(pr0, allRaces[0].id) ==> outcome == ResultKept(allRaces[0].id))
    && (allRaces != [] && !HasResult(pr0, allRaces[0].id) ==> outcome.ResultSimulated?)
    && (!outcome.ResultSimulated? ==> races == races0 && p == p0 && pr == pr0)
    && (outcome.ResultSimulated? ==>
          && allRaces != [] && outcome.raceId == allRaces[0].id
          && multiset(outcome.positions) == multiset(active)
          && AppendedOne(pr0, pr)
          && pr[|pr0|] == PositionsResult(pr[|pr0|].id, outcome.raceId, outcome.positions)
          && pr[|pr0|].id !in ResultRowIds(pr0)
          && races == SetCompleted(races0, outcome.raceId)
          && p == DevScored(p0, outcome.raceId, outcome.positions))
  }

  /** Step 5 of the script, on the store; the new result is the shuffle the draws give. */
  method SimulateFirstResult(db: Store, rng: Rng, allRaces: seq<Race>, active: seq<string>) returns (outcome: DevData)
    requires db.Valid()
    requires forall x :: x in allRaces ==> x in db.races
    modifies db, rng
    ensures db.Valid()
    ensures db.drivers == old(db.drivers) && db.users == old(db.users)
    ensures FirstResultWritten(old(db.races), db.races, old(db.predictions), db.predictions,
                               old(db.results), db.results, allRaces, active, outcome)
    ensures outcome.ResultSimulated? ==> outcome.positions == ShuffleFrom(active, old(rng.draws), |active|)
    ensures !outcome.ResultSimulated? ==> rng.draws == old(rng.draws)
  {
    if |allRaces| == 0 {
      return NoSeasonRace;
    }
    var firstRace := allRaces[0];
    if HasResult(db.results, firstRace.id) {
      return ResultKept(firstRace.id);
    }
    assert firstRace.id in RaceIds(db.races) by {
      assert firstRace in db.races;
      var k :| 0 <= k < |db.races| && db.races[k] == firstRace;
    }
    var driverIds := ShuffledIds(active, rng);
    CreatePositionResult(db, firstRace.id, driverIds);
    CompleteRace(db, firstRace.id);
    WriteRaceScores(db, firstRace.id, driverIds);
    outcome := ResultSimulated(firstRace.id, driverIds);
  }

  /** The ids of `allRaces.slice(0, 4)`: the season's first four races by round. */
  function PredictedRaceIds(races: seq<Race>): (r: seq<string>)
    ensures |r| <= PredictedRaces
    ensures forall id :: id in r ==> id in RaceIds(races)
  {
    var allRaces := ByRound(races, DevSeason);
    ByRoundOrdered(races, DevSeason);
    var first := Slice(allRaces, 0, PredictedRaces);
    assert forall id :: id in RaceIds(first) ==> id in RaceIds(races) by {
      forall id | id in RaceIds(first) ensures id in RaceIds(races) {
        var k :| 0 <= k < |first| && RaceIds(first)[k] == id;
        assert first[k] in allRaces;
        var m :| 0 <= m < |races| && races[m] == first[k];
      }
    }
    RaceIds(first)
  }

  /**
   * The script's `main`. `seededRaces` and `sampled` name the race and
   * prediction tables between the steps.
   */
  method CreateDevData(db: Store, rng: Rng, drivers: seq<Driver>, races: seq<Race>, users: seq<User>)
    returns (outcome: DevData, ghost seededRaces: seq<Race>, ghost sampled: seq<Prediction>)
    requires db.Valid()
    modifies db, rng
    ensures db.Valid()
    ensures SeededDrivers(old(db.drivers), db.drivers, drivers, |drivers|)
    ensures SeededRaces(old(db.races), seededRaces, races, |races|)
    ensures SeededUsers(old(db.users), db.users, users, |users|)
    ensures Grown(old(db.predictions), sampled, UserIds(db.users), PredictedRaceIds(seededRaces), ActiveDriverIds(db.drivers))
    ensures Covers(sampled, UserIds(db.users), PredictedRaceIds(seededRaces))
    ensures FirstResultWritten(seededRaces, db.races, sampled, db.predictions, old(db.results), db.results,
                               ByRound(seededRaces, DevSeason), ActiveDriverIds(db.drivers), outcome)
  {
    SeedAll(db, drivers, races, users);
    seededRaces := db.races;
    var allRaces := ByRound(db.races, DevSeason);
    ByRoundOrdered(db.races, DevSeason);
    var allDrivers := ActiveDriverIds(db.drivers);
    CreateSamplePredictions(db, rng, PredictedRaceIds(db.races), allDrivers);
    sampled := db.predictions;
    outcome := SimulateFirstResult(db, rng, allRaces, allDrivers);
  }
}
