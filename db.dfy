/**
 * The relational store the application keeps through its ORM, as one object
 * whose tables are sequences of rows in storage order. Every route, script
 * and the recomputation workflow read and replace these tables; `Valid`
 * collects the uniqueness and reference rules the schema and the callers
 * rely on.
 */
module Db {
  import opened Wrappers
  import opened Js
  import opened Seqs

  /** One entry of an official finishing order: `{ driverId, position }`. */
  datatype DriverPosition = DriverPosition(driverId: string, position: int)

  datatype Driver = Driver(
    id: string,
    number: int,
    code: string,
    firstname: string,
    lastname: string,
    fullname: string,
    nationality: string,
    team: string,
    active: bool)

  /** A race weekend; `status` is `UPCOMING`, `LIVE` or `COMPLETED` in practice. */
  datatype Race = Race(
    id: string,
    name: string,
    round: int,
    circuit: string,
    date: string,
    season: int,
    status: string,
    resultsImported: bool,
    hasSprint: bool)

  datatype User = User(id: string, name: Nullable, email: string, role: string, totalPoints: int)

  /** A user's guesses for one race and the points they earned. */
  datatype Prediction = Prediction(
    id: string,
    userId: string,
    raceId: string,
    positions: seq<string>,
    polePositionPrediction: Nullable,
    fastestLapPrediction: Nullable,
    sprintPositions: Option<seq<string>>,
    sprintPolePrediction: Nullable,
    points: int)

  /**
   * A row of the one `raceResult` table. Rows imported through the results
   * route carry the scoring fields: the two finishing orders of
   * `{ driverId, position }` entries, the pole, the fastest lap and the
   * sprint pole. Rows the development scripts write carry only `positions`,
   * a plain order of driver ids, and leave the other columns null.
   */
  datatype RaceResult = RaceResult(
    id: string,
    raceId: string,
    polePosition: Nullable,
    fastestLap: Nullable,
    raceResult: Option<seq<DriverPosition>>,
    sprintRace: bool,
    sprintPolePosition: Nullable,
    sprintResult: Option<seq<DriverPosition>>,
    positions: Option<seq<string>>)

  /** The row `raceResult.create({ data: { raceId, positions } })` writes: every unset column null, `sprintRace` false. */
  function PositionsResult(id: string, raceId: string, positions: seq<string>): (r: RaceResult)
    ensures r.id == id && r.raceId == raceId && r.positions == Some(positions)
    ensures r.raceResult.None? && r.sprintResult.None? && !r.sprintRace
    ensures r.polePosition == Null && r.fastestLap == Null && r.sprintPolePosition == Null
  {
    RaceResult(id, raceId, Null, Null, None, false, Null, None, Some(positions))
  }

  /** Some result row is for this race. */
  predicate HasResult(s: seq<RaceResult>, raceId: string) {
    exists k :: 0 <= k < |s| && s[k].raceId == raceId
  }

  function ResultRowIds(s: seq<RaceResult>): (r: seq<string>)
    ensures |r| == |s| && forall k :: 0 <= k < |s| ==> r[k] == s[k].id
  {
    seq(|s|, k requires 0 <= k < |s| => s[k].id)
  }

  const Upcoming: string := "UPCOMING"
  const Live: string := "LIVE"
  const Completed: string := "COMPLETED"
  const AdminRole: string := "ADMIN"

  function DriverIds(s: seq<Driver>): (r: seq<string>)
    ensures |r| == |s| && forall k :: 0 <= k < |s| ==> r[k] == s[k].id
  {
    seq(|s|, k requires 0 <= k < |s| => s[k].id)
  }

  function RaceIds(s: seq<Race>): (r: seq<string>)
    ensures |r| == |s| && forall k :: 0 <= k < |s| ==> r[k] == s[k].id
  {
    seq(|s|, k requires 0 <= k < |s| => s[k].id)
  }

  function UserIds(s: seq<User>): (r: seq<string>)
    ensures |r| == |s| && forall k :: 0 <= k < |s| ==> r[k] == s[k].id
  {
    seq(|s|, k requires 0 <= k < |s| => s[k].id)
  }

  function PredictionIds(s: seq<Prediction>): (r: seq<string>)
    ensures |r| == |s| && forall k :: 0 <= k < |s| ==> r[k] == s[k].id
  {
    seq(|s|, k requires 0 <= k < |s| => s[k].id)
  }

  /** `findFirst({ where: { userId, raceId } })`: the first prediction of a (user, race) pair. */
  function FindPrediction(s: seq<Prediction>, userId: string, raceId: string): Option<nat> {
    FindFirst(s, (p: Prediction) => p.userId == userId && p.raceId == raceId)
  }

  /** `findUnique({ where: { id } })` on races. */
  function FindRace(s: seq<Race>, id: string): Option<nat> {
    FindFirst(s, (r: Race) => r.id == id)
  }

  /** `findUnique({ where: { id } })` on users. */
  function FindUser(s: seq<User>, id: string): Option<nat> {
    FindFirst(s, (u: User) => u.id == id)
  }

  /** Some race has this (round, season). */
  predicate HasRound(s: seq<Race>, round: int, season: int) {
    exists k :: 0 <= k < |s| && s[k].round == round && s[k].season == season
  }

  /** Some driver has this code. */
  predicate HasCode(s: seq<Driver>, code: string) {
    exists k :: 0 <= k < |s| && s[k].code == code
  }

  /** Some user has this email. */
  predicate HasEmail(s: seq<User>, email: string) {
    exists k :: 0 <= k < |s| && s[k].email == email
  }

  /** `findMany({ where: { userId } })` summed: a user's total over all their predictions. */
  function UserTotal(s: seq<Prediction>, userId: string): int {
    if s == [] then 0
    else UserTotal(s[..|s| - 1], userId) + (if s[|s| - 1].userId == userId then s[|s| - 1].points else 0)
  }

  /** No two drivers share an id. */
  predicate UniqueDriverIds(s: seq<Driver>) {
    forall a, b :: 0 <= a < b < |s| ==> s[a].id != s[b].id
  }

  /** No two drivers share a code. */
  predicate UniqueCodes(s: seq<Driver>) {
    forall a, b :: 0 <= a < b < |s| ==> s[a].code != s[b].code
  }

  /** No two races share an id. */
  predicate UniqueRaceIds(s: seq<Race>) {
    forall a, b :: 0 <= a < b < |s| ==> s[a].id != s[b].id
  }

  /** No two races share a (round, season). */
  predicate UniqueRounds(s: seq<Race>) {
    forall a, b :: 0 <= a < b < |s| ==> s[a].round != s[b].round || s[a].season != s[b].season
  }

  /** No two users share an id. */
  predicate UniqueUserIds(s: seq<User>) {
    forall a, b :: 0 <= a < b < |s| ==> s[a].id != s[b].id
  }

  /** No two users share an email. */
  predicate UniqueEmails(s: seq<User>) {
    forall a, b :: 0 <= a < b < |s| ==> s[a].email != s[b].email
  }

  /** No two predictions share an id. */
  predicate UniquePredictionIds(s: seq<Prediction>) {
    forall a, b :: 0 <= a < b < |s| ==> s[a].id != s[b].id
  }

  /** No two predictions share a (user, race). */
  predicate OnePerUserAndRace(s: seq<Prediction>) {
    forall a, b :: 0 <= a < b < |s| ==> s[a].userId != s[b].userId || s[a].raceId != s[b].raceId
  }

  /** Some prediction exists for (userId, raceId). */
  predicate HasPrediction(s: seq<Prediction>, userId: string, raceId: string) {
    exists k :: 0 <= k < |s| && s[k].userId == userId && s[k].raceId == raceId
  }

  /** `t` is `s` with one row added at the end. */
  predicate AppendedOne<T(==)>(s: seq<T>, t: seq<T>) {
    |t| == |s| + 1 && t[..|s|] == s
  }

  /** A string not among `ids`: one longer than all of them. */
  function LongerThanAll(ids: seq<string>): (r: string)
    ensures forall k :: 0 <= k < |ids| ==> |r| > |ids[k]|
  {
    if ids == [] then "c"
    else
      var t := LongerThanAll(ids[..|ids| - 1]);
      if |t| > |ids[|ids| - 1]| then t else ids[|ids| - 1] + "c"
  }

  /** There is always an id the database has not handed out yet. */
  lemma FreshIdExists(ids: seq<string>)
    ensures exists id :: id !in ids
  {
    var t := LongerThanAll(ids);
    assert t !in ids;
  }

  /**
   * Row ids are unique in every table; a driver code, a race's (round,
   * season), a user's email and a prediction's (user, race) occur once;
   * predictions and results refer to rows that exist.
   */
  ghost predicate ValidTables(drivers: seq<Driver>, races: seq<Race>, users: seq<User>,
                              predictions: seq<Prediction>, results: seq<RaceResult>)
  {
    && UniqueDriverIds(drivers) && UniqueCodes(drivers)
    && UniqueRaceIds(races) && UniqueRounds(races)
    && UniqueUserIds(users) && UniqueEmails(users)
    && UniquePredictionIds(predictions) && OnePerUserAndRace(predictions)
    && (forall k :: 0 <= k < |predictions| ==> predictions[k].userId in UserIds(users))
    && (forall k :: 0 <= k < |predictions| ==> predictions[k].raceId in RaceIds(races))
    && (forall k :: 0 <= k < |results| ==> results[k].raceId in RaceIds(races))
  }

  /** Two prediction tables with the same rows up to `points`. */
  predicate SamePredictionKeys(a: seq<Prediction>, b: seq<Prediction>) {
    |a| == |b| && forall k :: 0 <= k < |a| ==>
      a[k].id == b[k].id && a[k].userId == b[k].userId && a[k].raceId == b[k].raceId
  }

  /** Two user tables with the same rows up to `totalPoints`. */
  predicate SameUserKeys(a: seq<User>, b: seq<User>) {
    |a| == |b| && forall k :: 0 <= k < |a| ==> a[k].id == b[k].id && a[k].email == b[k].email
  }

  /** Rewriting prediction points and user totals keeps every table rule. */
  lemma ValidAfterRewrite(drivers: seq<Driver>, races: seq<Race>, users: seq<User>, users': seq<User>,
                          predictions: seq<Prediction>, predictions': seq<Prediction>,
                          results: seq<RaceResult>)
    requires ValidTables(drivers, races, users, predictions, results)
    requires SameUserKeys(users, users') && SamePredictionKeys(predictions, predictions')
    ensures ValidTables(drivers, races, users', predictions', results)
  {
    assert UserIds(users') == UserIds(users);
    assert UniqueUserIds(users') by {
      forall a, b | 0 <= a < b < |users'| ensures users'[a].id != users'[b].id {
        assert users[a].id != users[b].id;
      }
    }
    assert UniqueEmails(users') by {
      forall a, b | 0 <= a < b < |users'| ensures users'[a].email != users'[b].email {
        assert users[a].email != users[b].email;
      }
    }
    assert UniquePredictionIds(predictions') by {
      forall a, b | 0 <= a < b < |predictions'| ensures predictions'[a].id != predictions'[b].id {
        assert predictions[a].id != predictions[b].id;
      }
    }
    assert OnePerUserAndRace(predictions') by {
      forall a, b | 0 <= a < b < |predictions'|
        ensures predictions'[a].userId != predictions'[b].userId || predictions'[a].raceId != predictions'[b].raceId
      {
        assert predictions[a].userId != predictions[b].userId || predictions[a].raceId != predictions[b].raceId;
      }
    }
    assert forall k :: 0 <= k < |predictions'| ==> predictions'[k].userId in UserIds(users') by {
      forall k | 0 <= k < |predictions'| ensures predictions'[k].userId in UserIds(users') {
        assert predictions[k].userId in UserIds(users);
      }
    }
    assert forall k :: 0 <= k < |predictions'| ==> predictions'[k].raceId in RaceIds(races) by {
      forall k | 0 <= k < |predictions'| ensures predictions'[k].raceId in RaceIds(races) {
        assert predictions[k].raceId in RaceIds(races);
      }
    }
  }

  /** Appending a race with a new id and a new (round, season) keeps every table rule. */
  lemma ValidAfterAddRace(drivers: seq<Driver>, races: seq<Race>, race: Race, users: seq<User>,
                          predictions: seq<Prediction>, results: seq<RaceResult>)
    requires ValidTables(drivers, races, users, predictions, results)
    requires race.id !in RaceIds(races) && !HasRound(races, race.round, race.season)
    ensures ValidTables(drivers, races + [race], users, predictions, results)
  {
    var races' := races + [race];
    assert RaceIds(races') == RaceIds(races) + [race.id];
    assert forall k :: 0 <= k < |races| ==> races'[k] == races[k];
  }

  /** Appending a driver with a new id and a new code keeps every table rule. */
  lemma ValidAfterAddDriver(drivers: seq<Driver>, driver: Driver, races: seq<Race>, users: seq<User>,
                            predictions: seq<Prediction>, results: seq<RaceResult>)
    requires ValidTables(drivers, races, users, predictions, results)
    requires driver.id !in DriverIds(drivers) && !HasCode(drivers, driver.code)
    ensures ValidTables(drivers + [driver], races, users, predictions, results)
  {
    var drivers' := drivers + [driver];
    assert forall k :: 0 <= k < |drivers| ==> drivers'[k] == drivers[k];
  }

  class Store {
    var drivers: seq<Driver>
    var races: seq<Race>
    var users: seq<User>
    var predictions: seq<Prediction>
    var results: seq<RaceResult>

    /** The table rules hold of the current contents. */
    ghost predicate Valid()
      reads this
    {
      ValidTables(drivers, races, users, predictions, results)
    }

    constructor ()
      ensures Valid()
      ensures drivers == [] && races == [] && users == [] && predictions == []
      ensures results == []
    {
      drivers, races, users, predictions := [], [], [], [];
      results := [];
    }
  }
}
