/**
 * `create-dev-data-from-json.js`: seed drivers, races and users if absent,
 * then import predictions and order-only results from JSON rows. A JSON row
 * names its user by id or email, its race by id or round, and its drivers
 * by code; rows whose user or race is unknown are skipped, unknown codes are
 * dropped, and nothing is written for a pair or race that already has a row
 * or whose mapped order is empty.
 */
module DevDataFromJson {
  import opened Wrappers
  import opened Seqs
  import opened Db
  import opened DevSeeding

  const JsonSeason: int := 2025

  /** A JSON key compared with `===`: a string or a number. */
  datatype JsonKey = KeyStr(text: string) | KeyNum(number: int)

  /** One `{ driverId: <code> }` entry of a JSON order. */
  datatype JsonPosition = JsonPosition(driverId: string)

  /** A row of `predictions.json`; `pointsEarned` is absent or null when `None`. */
  datatype JsonPrediction = JsonPrediction(userId: JsonKey, raceId: JsonKey, positions: seq<JsonPosition>,
                                           pointsEarned: Option<int>)

  /** A row of `results.json`. */
  datatype JsonResult = JsonResult(raceId: JsonKey, positions: seq<JsonPosition>)

  /*
   * Lookups.
   */

  /** `u.id === key || u.email === key`. */
  predicate UserMatches(u: User, key: JsonKey) {
    match key
    case KeyStr(s) => u.id == s || u.email == s
    case KeyNum(_) => false
  }

  /** `r.id === key || r.round === key`. */
  predicate RaceMatches(r: Race, key: JsonKey) {
    match key
    case KeyStr(s) => r.id == s
    case KeyNum(n) => r.round == n
  }

  /** `allUsers.find(...)`. */
  function FindUserByKey(s: seq<User>, key: JsonKey): (r: Option<nat>)
    ensures r.Some? ==> r.value < |s| && UserMatches(s[r.value], key)
    ensures r.None? <==> forall k :: 0 <= k < |s| ==> !UserMatches(s[k], key)
  {
    FindFirst(s, (u: User) => UserMatches(u, key))
  }

  /** `allRaces.find(...)`. */
  function FindRaceByKey(s: seq<Race>, key: JsonKey): (r: Option<nat>)
    ensures r.Some? ==> r.value < |s| && RaceMatches(s[r.value], key)
    ensures r.None? <==> forall k :: 0 <= k < |s| ==> !RaceMatches(s[k], key)
  {
    FindFirst(s, (x: Race) => RaceMatches(x, key))
  }

  /** `allDrivers.find((d) => d.code === code)`. */
  function FindCode(s: seq<Driver>, code: string): (r: Option<nat>)
    ensures r.Some? ==> r.value < |s| && s[r.value].code == code
    ensures r.None? <==> !HasCode(s, code)
  {
    FindFirst(s, (d: Driver) => d.code == code)
  }

  /** `driver.findMany({ where: { active: true } })`, in storage order. */
  function ActiveDrivers(s: seq<Driver>): (r: seq<Driver>)
    ensures |r| <= |s|
    ensures forall d :: d in r <==> d in s && d.active
  {
    if s == [] then []
    else
      var rest := ActiveDrivers(s[..|s| - 1]);
      assert s == s[..|s| - 1] + [s[|s| - 1]];
      rest + (if s[|s| - 1].active then [s[|s| - 1]] else [])
  }

  /*
   * Mapping driver codes to ids.
   */

  /** The ids of the drivers the codes name, in order; a code no driver has is dropped. */
  function CodesToIds(entries: seq<JsonPosition>, drivers: seq<Driver>): (r: seq<string>)
    ensures |r| <= |entries|
  {
    if entries == [] then []
    else
      CodesToIds(entries[..|entries| - 1], drivers) +
      match FindCode(drivers, entries[|entries| - 1].driverId)
      case None => []
      case Some(k) => [drivers[k].id]
  }

  /** The `push` loop over the entries. */
  method MapCodes(entries: seq<JsonPosition>, drivers: seq<Driver>) returns (positions: seq<string>)
    ensures positions == CodesToIds(entries, drivers)
  {
    positions := [];
    for i := 0 to |entries|
      invariant positions == CodesToIds(entries[..i], drivers)
    {
      assert entries[..i + 1][..i] == entries[..i];
      var driver := FindCode(drivers, entries[i].driverId);
      if driver.Some? {
        positions := positions + [drivers[driver.value].id];
      }
    }
    assert entries[..|entries|] == entries;
  }

  /** Mapping a concatenation maps each part in order. */
  lemma {:induction false} CodesToIdsAppend(a: seq<JsonPosition>, b: seq<JsonPosition>, drivers: seq<Driver>)
    ensures CodesToIds(a + b, drivers) == CodesToIds(a, drivers) + CodesToIds(b, drivers)
    decreases |b|
  {
    if b == [] {
      assert a + b == a;
    } else {
      var b' := b[..|b| - 1];
      assert (a + b)[..|a + b| - 1] == a + b';
      assert (a + b)[|a + b| - 1] == b[|b| - 1];
      CodesToIdsAppend(a, b', drivers);
    }
  }

  /** When every code is known, no entry is dropped. */
  lemma {:induction false} CodesToIdsKnown(entries: seq<JsonPosition>, drivers: seq<Driver>)
    requires forall j :: 0 <= j < |entries| ==> HasCode(drivers, entries[j].driverId)
    ensures |CodesToIds(entries, drivers)| == |entries|
  {
    if entries != [] {
      CodesToIdsKnown(entries[..|entries| - 1], drivers);
      assert HasCode(drivers, entries[|entries| - 1].driverId);
    }
  }

  /** Every mapped id is the id of a driver whose code some entry names. */
  lemma {:induction false} CodesToIdsNamed(entries: seq<JsonPosition>, drivers: seq<Driver>, x: string)
    requires x in CodesToIds(entries, drivers)
    ensures exists k, j :: 0 <= k < |drivers| && 0 <= j < |entries| && drivers[k].id == x && drivers[k].code == entries[j].driverId
  {
    var init := entries[..|entries| - 1];
    if x in CodesToIds(init, drivers) {
      CodesToIdsNamed(init, drivers, x);
      var k, j :| 0 <= k < |drivers| && 0 <= j < |init| && drivers[k].id == x && drivers[k].code == init[j].driverId;
      assert entries[j] == init[j];
    } else {
      var k := FindCode(drivers, entries[|entries| - 1].driverId).value;
      assert drivers[k].id == x && drivers[k].code == entries[|entries| - 1].driverId;
    }
  }

  /*
   * Importing predictions.
   */

  /** What a JSON prediction asks to create, once its user, race and drivers are looked up. */
  datatype Planned = Planned(userId: string, raceId: string, positions: seq<string>, points: int)

  /**
   * The prediction a JSON row stands for: none when its user or race is
   * unknown or no code maps; points are `pointsEarned || 0`.
   */
  function PlanPrediction(e: JsonPrediction, users: seq<User>, races: seq<Race>, drivers: seq<Driver>): (r: Option<Planned>)
    ensures r.Some? <==> FindUserByKey(users, e.userId).Some? && FindRaceByKey(races, e.raceId).Some? &&
                         CodesToIds(e.positions, drivers) != []
    ensures r.Some? ==> r.value.positions == CodesToIds(e.positions, drivers)
    ensures r.Some? ==> exists k :: 0 <= k < |users| && users[k].id == r.value.userId && UserMatches(users[k], e.userId)
    ensures r.Some? ==> exists k :: 0 <= k < |races| && races[k].id == r.value.raceId && RaceMatches(races[k], e.raceId)
    ensures r.Some? ==> r.value.points == if e.pointsEarned.Some? then e.pointsEarned.value else 0
  {
    match (FindUserByKey(users, e.userId), FindRaceByKey(races, e.raceId))
    case (Some(u), Some(x)) =>
      var positions := CodesToIds(e.positions, drivers);
      if positions == [] then None
      else Some(Planned(users[u].id, races[x].id, positions, e.pointsEarned.GetOr(0)))
    case _ => None
  }

  /**
   * The prediction loop after i rows: the rows that were there are kept, every
   * planned pair among the first i has a prediction, and every added row is
   * the plan of one of them for a pair that had none.
   */
  ghost predicate ImportedPredictions(p0: seq<Prediction>, cur: seq<Prediction>, entries: seq<JsonPrediction>, i: nat,
                                      users: seq<User>, races: seq<Race>, drivers: seq<Driver>)
    requires i <= |entries|
  {
    && |p0| <= |cur| && cur[..|p0|] == p0
    && PredictionsCover(cur, entries, i, users, races, drivers)
    && PredictionsAdded(p0, cur, entries, i, users, races, drivers)
  }

  /** Every planned pair among the first i rows has a prediction in `cur`. */
  ghost predicate PredictionsCover(cur: seq<Prediction>, entries: seq<JsonPrediction>, i: nat,
                                   users: seq<User>, races: seq<Race>, drivers: seq<Driver>)
    requires i <= |entries|
  {
    forall j :: 0 <= j < i && PlanPrediction(entries[j], users, races, drivers).Some? ==>
      HasPrediction(cur, PlanPrediction(entries[j], users, races, drivers).value.userId,
                    PlanPrediction(entries[j], users, races, drivers).value.raceId)
  }

  /** Every row after `p0` is the plan of one of the first i rows. */
  ghost predicate PredictionsAdded(p0: seq<Prediction>, cur: seq<Prediction>, entries: seq<JsonPrediction>, i: nat,
                                   users: seq<User>, races: seq<Race>, drivers: seq<Driver>)
    requires i <= |entries|
  {
    forall k :: |p0| <= k < |cur| ==> exists j :: 0 <= j < i && PlannedRow(p0, cur[k], PlanPrediction(entries[j], users, races, drivers))
  }

  /** `p` is the row a plan creates, for a pair that had no prediction in `p0`. */
  ghost predicate PlannedRow(p0: seq<Prediction>, p: Prediction, plan: Option<Planned>) {
    && plan.Some?
    && p == NewPrediction(p.id, plan.value.userId, plan.value.raceId, plan.value.positions, plan.value.points)
    && !HasPrediction(p0, plan.value.userId, plan.value.raceId)
  }

  /**
   * One JSON row's effect: a row is created exactly when there is a plan and
   * its pair has no prediction; the new row holds the plan under a fresh id.
   */
  ghost predicate PredictionWritten(before: seq<Prediction>, after: seq<Prediction>, plan: Option<Planned>, created: bool) {
    && created == (plan.Some? && !HasPrediction(before, plan.value.userId, plan.value.raceId))
    && (created ==>
          && AppendedOne(before, after)
          && after[|before|] == NewPrediction(after[|before|].id, plan.value.userId, plan.value.raceId,
                                              plan.value.positions, plan.value.points)
          && after[|before|].id !in PredictionIds(before))
    && (!created ==> after == before)
  }

  /** The body of the prediction loop for one JSON row. */
  method ImportPrediction(db: Store, e: JsonPrediction, users: seq<User>, races: seq<Race>, drivers: seq<Driver>)
    returns (created: bool)
    requires db.Valid()
    requires forall u :: u in users ==> u.id in UserIds(db.users)
    requires forall x :: x in races ==> x.id in RaceIds(db.races)
    modifies db
    ensures db.Valid()
    ensures PredictionWritten(old(db.predictions), db.predictions, PlanPrediction(e, users, races, drivers), created)
    ensures db.drivers == old(db.drivers) && db.races == old(db.races) && db.users == old(db.users)
    ensures db.results == old(db.results)
  {
    var user := FindUserByKey(users, e.userId);
    if user.None? {
      return false;
    }
    var race := FindRaceByKey(races, e.raceId);
    if race.None? {
      return false;
    }
    var userId, raceId := users[user.value].id, races[race.value].id;
    if HasPrediction(db.predictions, userId, raceId) {
      return false;
    }
    var positions := MapCodes(e.positions, drivers);
    if |positions| == 0 {
      return false;
    }
    assert users[user.value] in users && races[race.value] in races;
    created := CreatePredictionIfAbsent(db, userId, raceId, positions, e.pointsEarned.GetOr(0));
  }

  /** A new row for row i's plan keeps every planned pair covered, now through row i. */
  lemma PredictionsCoverStep(before: seq<Prediction>, after: seq<Prediction>, entries: seq<JsonPrediction>, i: nat,
                             users: seq<User>, races: seq<Race>, drivers: seq<Driver>)
    requires i < |entries| && PredictionsCover(before, entries, i, users, races, drivers)
    requires AppendedOne(before, after)
    requires var plan := PlanPrediction(entries[i], users, races, drivers);
      plan.Some? && after[|before|].userId == plan.value.userId && after[|before|].raceId == plan.value.raceId
    ensures PredictionsCover(after, entries, i + 1, users, races, drivers)
  {
    forall j | 0 <= j < i + 1 && PlanPrediction(entries[j], users, races, drivers).Some?
      ensures HasPrediction(after, PlanPrediction(entries[j], users, races, drivers).value.userId,
                            PlanPrediction(entries[j], users, races, drivers).value.raceId)
    {
      var q := PlanPrediction(entries[j], users, races, drivers).value;
      if j == i {
        assert after[|before|].userId == q.userId && after[|before|].raceId == q.raceId;
      } else {
        var k :| 0 <= k < |before| && before[k].userId == q.userId && before[k].raceId == q.raceId;
        assert after[k] == before[k];
      }
    }
  }

  /** A new row that is row i's plan keeps every added row a plan, now of the first i + 1 rows. */
  lemma PredictionsAddedStep(p0: seq<Prediction>, before: seq<Prediction>, after: seq<Prediction>, entries: seq<JsonPrediction>,
                             i: nat, users: seq<User>, races: seq<Race>, drivers: seq<Driver>)
    requires i < |entries| && |p0| <= |before| && PredictionsAdded(p0, before, entries, i, users, races, drivers)
    requires AppendedOne(before, after)
    requires PlannedRow(p0, after[|before|], PlanPrediction(entries[i], users, races, drivers))
    ensures PredictionsAdded(p0, after, entries, i + 1, users, races, drivers)
  {
    forall k | |p0| <= k < |after|
      ensures exists j :: 0 <= j < i + 1 && PlannedRow(p0, after[k], PlanPrediction(entries[j], users, races, drivers))
    {
      if k < |before| {
        assert after[k] == before[k];
      }
    }
  }

  /** One JSON row keeps `ImportedPredictions` one row further. */
  lemma ImportPredictionStep(p0: seq<Prediction>, before: seq<Prediction>, after: seq<Prediction>,
                             entries: seq<JsonPrediction>, i: nat, users: seq<User>, races: seq<Race>, drivers: seq<Driver>,
                             created: bool)
    requires i < |entries| && ImportedPredictions(p0, before, entries, i, users, races, drivers)
    requires PredictionWritten(before, after, PlanPrediction(entries[i], users, races, drivers), created)
    ensures ImportedPredictions(p0, after, entries, i + 1, users, races, drivers)
  {
    var plan := PlanPrediction(entries[i], users, races, drivers);
    if created {
      assert after[..|before|][..|p0|] == after[..|p0|];
      PredictionsCoverStep(before, after, entries, i, users, races, drivers);
      assert PlannedRow(p0, after[|before|], plan);
      PredictionsAddedStep(p0, before, after, entries, i, users, races, drivers);
    }
  }

  /** The prediction loop over `predictions.json`. */
  method ImportPredictions(db: Store, entries: seq<JsonPrediction>, users: seq<User>, races: seq<Race>, drivers: seq<Driver>)
    requires db.Valid()
    requires forall u :: u in users ==> u.id in UserIds(db.users)
    requires forall x :: x in races ==> x.id in RaceIds(db.races)
    modifies db
    ensures db.Valid()
    ensures ImportedPredictions(old(db.predictions), db.predictions, entries, |entries|, users, races, drivers)
    ensures db.drivers == old(db.drivers) && db.races == old(db.races) && db.users == old(db.users)
    ensures db.results == old(db.results)
  {
    ghost var p0 := db.predictions;
    for i := 0 to |entries|
      invariant db.Valid()
      invariant ImportedPredictions(p0, db.predictions, entries, i, users, races, drivers)
      invariant db.drivers == old(db.drivers) && db.races == old(db.races) && db.users == old(db.users)
      invariant db.results == old(db.results)
    {
      ghost var before := db.predictions;
      var created := ImportPrediction(db, entries[i], users, races, drivers);
      ImportPredictionStep(p0, before, db.predictions, entries, i, users, races, drivers, created);
    }
  }

  /*
   * Importing results.
   */

  /** The result a JSON row stands for: none when its race is unknown or no code maps. */
  function PlanResult(e: JsonResult, races: seq<Race>, drivers: seq<Driver>): (r: Option<(string, seq<string>)>)
    ensures r.Some? <==> FindRaceByKey(races, e.raceId).Some? && CodesToIds(e.positions, drivers) != []
    ensures r.Some? ==> r.value.1 == CodesToIds(e.positions, drivers)
    ensures r.Some? ==> exists k :: 0 <= k < |races| && races[k].id == r.value.0 && RaceMatches(races[k], e.raceId)
  {
    match FindRaceByKey(races, e.raceId)
    case Some(x) =>
      var positions := CodesToIds(e.positions, drivers);
      if positions == [] then None else Some((races[x].id, positions))
    case None => None
  }

  /** The race ids of a list of results, in order. */
  function ResultRaceIds(s: seq<RaceResult>): (r: seq<string>)
    ensures |r| == |s| && forall k :: 0 <= k < |s| ==> r[k] == s[k].raceId
  {
    seq(|s|, k requires 0 <= k < |s| => s[k].raceId)
  }

  /** A race after `race.update` to `COMPLETED` with its results imported. */
  function CompletedRace(r: Race): Race {
    r.(status := Completed, resultsImported := true)
  }

  /**
   * The result loop after i rows: the results that were there are kept,
   * every planned race among the first i has a result, and every added
   * result is the plan of one of them for a race that had none.
   */
  ghost predicate ImportedResults(pr0: seq<RaceResult>, pr: seq<RaceResult>,
                                  entries: seq<JsonResult>, i: nat, races: seq<Race>, drivers: seq<Driver>)
    requires i <= |entries|
  {
    && |pr0| <= |pr| && pr[..|pr0|] == pr0
    && ResultsCover(pr, entries, i, races, drivers)
    && ResultsAdded(pr0, pr, entries, i, races, drivers)
  }

  /** Every planned race among the first i rows has a result in `pr`. */
  ghost predicate ResultsCover(pr: seq<RaceResult>, entries: seq<JsonResult>, i: nat, races: seq<Race>, drivers: seq<Driver>)
    requires i <= |entries|
  {
    forall j :: 0 <= j < i && PlanResult(entries[j], races, drivers).Some? ==>
      HasResult(pr, PlanResult(entries[j], races, drivers).value.0)
  }

  /** Every result after `pr0` is the plan of one of the first i rows. */
  ghost predicate ResultsAdded(pr0: seq<RaceResult>, pr: seq<RaceResult>, entries: seq<JsonResult>, i: nat,
                               races: seq<Race>, drivers: seq<Driver>)
    requires i <= |entries|
  {
    forall k :: |pr0| <= k < |pr| ==> exists j :: 0 <= j < i && PlannedResult(pr0, pr[k], PlanResult(entries[j], races, drivers))
  }

  /** Exactly the races that got one of the results added after `pr0` are completed. */
  ghost predicate CompletedByResults(races0: seq<Race>, cur: seq<Race>, pr0: seq<RaceResult>, pr: seq<RaceResult>)
    requires |pr0| <= |pr|
  {
    && |cur| == |races0|
    && forall m :: 0 <= m < |races0| ==>
         cur[m] == if races0[m].id in ResultRaceIds(pr[|pr0|..]) then CompletedRace(races0[m]) else races0[m]
  }

  /** `x` is the result a plan creates, for a race that had none in `pr0`. */
  ghost predicate PlannedResult(pr0: seq<RaceResult>, x: RaceResult, plan: Option<(string, seq<string>)>) {
    && plan.Some?
    && x == PositionsResult(x.id, plan.value.0, plan.value.1)
    && !HasResult(pr0, plan.value.0)
  }

  /**
   * One JSON row's effect: a result is created exactly when there is a plan
   * and its race has none; the new result holds the plan under a fresh id,
   * and then that race is completed.
   */
  ghost predicate ResultWritten(prb: seq<RaceResult>, pra: seq<RaceResult>, before: seq<Race>, after: seq<Race>,
                                plan: Option<(string, seq<string>)>, created: bool) {
    && created == (plan.Some? && !HasResult(prb, plan.value.0))
    && (created ==>
          && AppendedOne(prb, pra)
          && pra[|prb|] == PositionsResult(pra[|prb|].id, plan.value.0, plan.value.1)
          && pra[|prb|].id !in ResultRowIds(prb)
          && after == SetCompleted(before, plan.value.0))
    && (!created ==> pra == prb && after == before)
  }

  /** The body of the result loop for one JSON row. */
  method ImportResult(db: Store, e: JsonResult, races: seq<Race>, drivers: seq<Driver>) returns (created: bool)
    requires db.Valid()
    requires forall x :: x in races ==> x.id in RaceIds(db.races)
    modifies db
    ensures db.Valid()
    ensures ResultWritten(old(db.results), db.results, old(db.races), db.races,
                          PlanResult(e, races, drivers), created)
    ensures db.drivers == old(db.drivers) && db.users == old(db.users)
    ensures db.predictions == old(db.predictions)
  {
    var race := FindRaceByKey(races, e.raceId);
    if race.None? {
      return false;
    }
    var raceId := races[race.value].id;
    if HasResult(db.results, raceId) {
      return false;
    }
    var positions := MapCodes(e.positions, drivers);
    if |positions| == 0 {
      return false;
    }
    assert races[race.value] in races;
    CreatePositionResult(db, raceId, positions);
    CompleteRace(db, raceId);
    created := true;
  }

  /** A new result for row i's plan keeps every planned race covered, now through row i. */
  lemma ResultsCoverStep(prb: seq<RaceResult>, pra: seq<RaceResult>, entries: seq<JsonResult>, i: nat,
                         races: seq<Race>, drivers: seq<Driver>)
    requires i < |entries| && ResultsCover(prb, entries, i, races, drivers)
    requires AppendedOne(prb, pra)
    requires PlanResult(entries[i], races, drivers).Some? && pra[|prb|].raceId == PlanResult(entries[i], races, drivers).value.0
    ensures ResultsCover(pra, entries, i + 1, races, drivers)
  {
    forall j | 0 <= j < i + 1 && PlanResult(entries[j], races, drivers).Some?
      ensures HasResult(pra, PlanResult(entries[j], races, drivers).value.0)
    {
      var q := PlanResult(entries[j], races, drivers).value.0;
      if j == i {
        assert pra[|prb|].raceId == q;
      } else {
        var k :| 0 <= k < |prb| && prb[k].raceId == q;
        assert pra[k] == prb[k];
      }
    }
  }

  /** A new result that is row i's plan keeps every added result a plan, now of the first i + 1 rows. */
  lemma ResultsAddedStep(pr0: seq<RaceResult>, prb: seq<RaceResult>, pra: seq<RaceResult>, entries: seq<JsonResult>,
                         i: nat, races: seq<Race>, drivers: seq<Driver>)
    requires i < |entries| && |pr0| <= |prb| && ResultsAdded(pr0, prb, entries, i, races, drivers)
    requires AppendedOne(prb, pra)
    requires PlannedResult(pr0, pra[|prb|], PlanResult(entries[i], races, drivers))
    ensures ResultsAdded(pr0, pra, entries, i + 1, races, drivers)
  {
    forall k | |pr0| <= k < |pra|
      ensures exists j :: 0 <= j < i + 1 && PlannedResult(pr0, pra[k], PlanResult(entries[j], races, drivers))
    {
      if k < |prb| {
        assert pra[k] == prb[k];
      }
    }
  }

  /** One JSON row keeps `ImportedResults` one row further. */
  lemma ImportResultStep(pr0: seq<RaceResult>, prb: seq<RaceResult>, pra: seq<RaceResult>,
                         before: seq<Race>, after: seq<Race>,
                         entries: seq<JsonResult>, i: nat, races: seq<Race>, drivers: seq<Driver>, created: bool)
    requires i < |entries| && ImportedResults(pr0, prb, entries, i, races, drivers)
    requires ResultWritten(prb, pra, before, after, PlanResult(entries[i], races, drivers), created)
    ensures ImportedResults(pr0, pra, entries, i + 1, races, drivers)
  {
    var plan := PlanResult(entries[i], races, drivers);
    if created {
      assert pra[..|prb|][..|pr0|] == pra[..|pr0|];
      ResultsCoverStep(prb, pra, entries, i, races, drivers);
      assert PlannedResult(pr0, pra[|prb|], plan);
      ResultsAddedStep(pr0, prb, pra, entries, i, races, drivers);
    }
  }

  /** Completing the race of one more added result keeps `CompletedByResults`. */
  lemma CompletedStep(races0: seq<Race>, before: seq<Race>, after: seq<Race>,
                      pr0: seq<RaceResult>, prb: seq<RaceResult>, pra: seq<RaceResult>, id: string)
    requires |pr0| <= |prb| && CompletedByResults(races0, before, pr0, prb)
    requires AppendedOne(prb, pra) && pra[|prb|].raceId == id && after == SetCompleted(before, id)
    ensures CompletedByResults(races0, after, pr0, pra)
  {
    assert pra[|pr0|..] == prb[|pr0|..] + [pra[|prb|]];
    assert ResultRaceIds(pra[|pr0|..]) == ResultRaceIds(prb[|pr0|..]) + [id];
    forall m | 0 <= m < |races0|
      ensures after[m] == if races0[m].id in ResultRaceIds(pra[|pr0|..]) then CompletedRace(races0[m]) else races0[m]
    {
      assert before[m].id == races0[m].id;
    }
  }

  /** What the result loop keeps after i rows: the results, the completed races and the race ids. */
  ghost predicate ResultLoop(races0: seq<Race>, cur: seq<Race>, pr0: seq<RaceResult>, pr: seq<RaceResult>,
                             entries: seq<JsonResult>, i: nat, races: seq<Race>, drivers: seq<Driver>)
    requires i <= |entries|
  {
    && ImportedResults(pr0, pr, entries, i, races, drivers)
    && CompletedByResults(races0, cur, pr0, pr)
    && RaceIds(cur) == RaceIds(races0)
  }

  /** One JSON row keeps `ResultLoop` one row further. */
  lemma ResultLoopStep(races0: seq<Race>, before: seq<Race>, after: seq<Race>,
                       pr0: seq<RaceResult>, prb: seq<RaceResult>, pra: seq<RaceResult>,
                       entries: seq<JsonResult>, i: nat, races: seq<Race>, drivers: seq<Driver>, created: bool)
    requires i < |entries| && ResultLoop(races0, before, pr0, prb, entries, i, races, drivers)
    requires ResultWritten(prb, pra, before, after, PlanResult(entries[i], races, drivers), created)
    ensures ResultLoop(races0, after, pr0, pra, entries, i + 1, races, drivers)
  {
    ImportResultStep(pr0, prb, pra, before, after, entries, i, races, drivers, created);
    if created {
      var id := PlanResult(entries[i], races, drivers).value.0;
      CompletedStep(races0, before, after, pr0, prb, pra, id);
      assert RaceIds(after) == RaceIds(before);
    }
  }

  /** The result loop over `results.json`. */
  method ImportResults(db: Store, entries: seq<JsonResult>, races: seq<Race>, drivers: seq<Driver>)
    requires db.Valid()
    requires forall x :: x in races ==> x.id in RaceIds(db.races)
    modifies db
    ensures db.Valid()
    ensures ImportedResults(old(db.results), db.results, entries, |entries|, races, drivers)
    ensures CompletedByResults(old(db.races), db.races, old(db.results), db.results)
    ensures db.drivers == old(db.drivers) && db.users == old(db.users)
    ensures db.predictions == old(db.predictions)
  {
    ghost var races0, pr0 := db.races, db.results;
    assert pr0[|pr0|..] == [];
    for i := 0 to |entries|
      invariant db.Valid()
      invariant ResultLoop(races0, db.races, pr0, db.results, entries, i, races, drivers)
      invariant db.drivers == old(db.drivers) && db.users == old(db.users)
      invariant db.predictions == old(db.predictions)
    {
      ghost var before, prb := db.races, db.results;
      var created := ImportResult(db, entries[i], races, drivers);
      ResultLoopStep(races0, before, db.races, pr0, prb, db.results, entries, i, races, drivers, created);
    }
  }

  /** The rows the lookups search are rows of the tables. */
  lemma LookupsInTables(races: seq<Race>, users: seq<User>)
    ensures forall x :: x in ByRound(races, JsonSeason) ==> x.id in RaceIds(races)
    ensures forall u :: u in users ==> u.id in UserIds(users)
  {
    ByRoundOrdered(races, JsonSeason);
    forall x | x in ByRound(races, JsonSeason) ensures x.id in RaceIds(races) {
      var m :| 0 <= m < |races| && races[m] == x;
    }
    forall u | u in users ensures u.id in UserIds(users) {
      var m :| 0 <= m < |users| && users[m] == u;
    }
  }

  /**
   * The script's `main`. `seeded` names the tables after steps 1 to 3; the
   * lookups use the season's races by round, the users and the active
   * drivers as they were then.
   */
  method ImportDevData(db: Store, drivers: seq<Driver>, races: seq<Race>, users: seq<User>,
                       predictions: seq<JsonPrediction>, results: seq<JsonResult>)
    returns (ghost seededRaces: seq<Race>)
    requires db.Valid()
    modifies db
    ensures db.Valid()
    ensures SeededDrivers(old(db.drivers), db.drivers, drivers, |drivers|)
    ensures SeededRaces(old(db.races), seededRaces, races, |races|)
    ensures SeededUsers(old(db.users), db.users, users, |users|)
    ensures ImportedPredictions(old(db.predictions), db.predictions, predictions, |predictions|,
                                db.users, ByRound(seededRaces, JsonSeason), ActiveDrivers(db.drivers))
    ensures ImportedResults(old(db.results), db.results, results, |results|,
                            ByRound(seededRaces, JsonSeason), ActiveDrivers(db.drivers))
    ensures CompletedByResults(seededRaces, db.races, old(db.results), db.results)
  {
    SeedAll(db, drivers, races, users);
    seededRaces := db.races;
    var allRaces := ByRound(db.races, JsonSeason);
    var allUsers := db.users;
    var allDrivers := ActiveDrivers(db.drivers);
    LookupsInTables(db.races, allUsers);
    ImportPredictions(db, predictions, allUsers, allRaces, allDrivers);
    ImportResults(db, results, allRaces, allDrivers);
  }
}
