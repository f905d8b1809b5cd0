/**
 * The store operations the development scripts are built from: insert a
 * driver, race or user only when no row with the same code, (round,
 * season) or email exists; create a prediction only when the (user, race)
 * pair has none; create or replace the `positions` of a race's result; mark a race
 * completed with its results imported.
 *
 * A created row gets an id the table does not hold yet (the database's
 * generated id); columns the scripts leave out take the schema defaults
 * (null guesses, no sprint order, 0 points).
 */
module DevSeeding {
  import opened Wrappers
  import opened Js
  import opened Seqs
  import opened Sorting
  import opened Db

  /** `driver.findUnique({ where: { code } })`, then `driver.create` when there is none. */
  method InsertDriverIfAbsent(db: Store, driver: Driver) returns (created: bool)
    requires db.Valid()
    modifies db
    ensures db.Valid()
    ensures created == !HasCode(old(db.drivers), driver.code)
    ensures created ==> (AppendedOne(old(db.drivers), db.drivers) &&
      db.drivers[|old(db.drivers)|] == driver.(id := db.drivers[|old(db.drivers)|].id) &&
      db.drivers[|old(db.drivers)|].id !in DriverIds(old(db.drivers)))
    ensures !created ==> db.drivers == old(db.drivers)
    ensures db.races == old(db.races) && db.users == old(db.users) && db.predictions == old(db.predictions)
    ensures db.results == old(db.results)
  {
    created := !HasCode(db.drivers, driver.code);
    if created {
      var id := LongerThanAll(DriverIds(db.drivers));
      db.drivers := db.drivers + [driver.(id := id)];
    }
  }

  /** `race.findFirst({ where: { round, season } })`, then `race.create` when there is none. */
  method InsertRaceIfAbsent(db: Store, race: Race) returns (created: bool)
    requires db.Valid()
    modifies db
    ensures db.Valid()
    ensures created == !HasRound(old(db.races), race.round, race.season)
    ensures created ==> (AppendedOne(old(db.races), db.races) &&
      db.races[|old(db.races)|] == race.(id := db.races[|old(db.races)|].id) &&
      db.races[|old(db.races)|].id !in RaceIds(old(db.races)))
    ensures !created ==> db.races == old(db.races)
    ensures db.drivers == old(db.drivers) && db.users == old(db.users) && db.predictions == old(db.predictions)
    ensures db.results == old(db.results)
  {
    created := !HasRound(db.races, race.round, race.season);
    if created {
      var id := LongerThanAll(RaceIds(db.races));
      var races := db.races + [race.(id := id)];
      assert forall k :: 0 <= k < |db.races| ==> RaceIds(db.races)[k] == RaceIds(races)[k];
      db.races := races;
    }
  }

  /** `user.findFirst({ where: { email } })`, then `user.create` when there is none. */
  method InsertUserIfAbsent(db: Store, user: User) returns (created: bool)
    requires db.Valid()
    modifies db
    ensures db.Valid()
    ensures created == !HasEmail(old(db.users), user.email)
    ensures created ==> (AppendedOne(old(db.users), db.users) &&
      db.users[|old(db.users)|] == user.(id := db.users[|old(db.users)|].id) &&
      db.users[|old(db.users)|].id !in UserIds(old(db.users)))
    ensures !created ==> db.users == old(db.users)
    ensures db.drivers == old(db.drivers) && db.races == old(db.races) && db.predictions == old(db.predictions)
    ensures db.results == old(db.results)
  {
    created := !HasEmail(db.users, user.email);
    if created {
      var id := LongerThanAll(UserIds(db.users));
      var users := db.users + [user.(id := id)];
      assert forall k :: 0 <= k < |db.users| ==> UserIds(db.users)[k] == UserIds(users)[k];
      db.users := users;
    }
  }

  /**
   * The driver loop after i seeds: the rows that were there are kept, the
   * first i seeds are present, every added row is a seed with a fresh id, and
   * nothing is added when every seed was already present.
   */
  ghost predicate SeededDrivers(d0: seq<Driver>, cur: seq<Driver>, seeds: seq<Driver>, i: nat)
    requires i <= |seeds|
  {
    && |d0| <= |cur| && cur[..|d0|] == d0
    && (forall j :: 0 <= j < i ==> HasCode(cur, seeds[j].code))
    && (forall k :: |d0| <= k < |cur| ==> exists j :: 0 <= j < i && cur[k] == seeds[j].(id := cur[k].id))
    && ((forall j :: 0 <= j < |seeds| ==> HasCode(d0, seeds[j].code)) ==> cur == d0)
  }

  /** One insert-if-absent keeps `SeededDrivers` one seed further. */
  lemma SeedDriverStep(d0: seq<Driver>, before: seq<Driver>, after: seq<Driver>, seeds: seq<Driver>, i: nat, created: bool)
    requires i < |seeds| && SeededDrivers(d0, before, seeds, i)
    requires created == !HasCode(before, seeds[i].code)
    requires created ==> AppendedOne(before, after) && after[|before|] == seeds[i].(id := after[|before|].id)
    requires !created ==> after == before
    ensures SeededDrivers(d0, after, seeds, i + 1)
  {
    if created {
      forall j | 0 <= j < i + 1 ensures HasCode(after, seeds[j].code) {
        if j == i {
          assert after[|before|].code == seeds[i].code;
        } else {
          assert HasCode(before, seeds[j].code);
          var k :| 0 <= k < |before| && before[k].code == seeds[j].code;
          assert after[k] == before[k];
        }
      }
      assert after[..|d0|] == before[..|d0|];
      forall k | |d0| <= k < |after|
        ensures exists j :: 0 <= j < i + 1 && after[k] == seeds[j].(id := after[k].id)
      {
        if k < |before| {
          assert after[k] == before[k];
        } else {
          assert after[k] == seeds[i].(id := after[k].id);
        }
      }
    }
  }

  /**
   * The driver loop: every seed is present afterwards, the rows already there
   * are kept, only seeds are added, and running it again on the result adds
   * nothing.
   */
  method SeedDrivers(db: Store, seeds: seq<Driver>)
    requires db.Valid()
    modifies db
    ensures db.Valid()
    ensures SeededDrivers(old(db.drivers), db.drivers, seeds, |seeds|)
    ensures db.races == old(db.races) && db.users == old(db.users)
    ensures db.predictions == old(db.predictions) && db.results == old(db.results)
  {
    ghost var d0 := db.drivers;
    for i := 0 to |seeds|
      invariant db.Valid()
      invariant SeededDrivers(d0, db.drivers, seeds, i)
      invariant db.races == old(db.races) && db.users == old(db.users)
      invariant db.predictions == old(db.predictions) && db.results == old(db.results)
    {
      ghost var before := db.drivers;
      var created := InsertDriverIfAbsent(db, seeds[i]);
      SeedDriverStep(d0, before, db.drivers, seeds, i, created);
    }
  }

  /**
   * The race loop after i seeds: the rows that were there are kept, the
   * first i seeds are present, every added row is a seed with a fresh id, and
   * nothing is added when every seed was already present.
   */
  ghost predicate SeededRaces(r0: seq<Race>, cur: seq<Race>, seeds: seq<Race>, i: nat)
    requires i <= |seeds|
  {
    && |r0| <= |cur| && cur[..|r0|] == r0
    && (forall j :: 0 <= j < i ==> HasRound(cur, seeds[j].round, seeds[j].season))
    && (forall k :: |r0| <= k < |cur| ==> exists j :: 0 <= j < i && cur[k] == seeds[j].(id := cur[k].id))
    && ((forall j :: 0 <= j < |seeds| ==> HasRound(r0, seeds[j].round, seeds[j].season)) ==> cur == r0)
  }

  /** One insert-if-absent keeps `SeededRaces` one seed further. */
  lemma SeedRaceStep(r0: seq<Race>, before: seq<Race>, after: seq<Race>, seeds: seq<Race>, i: nat, created: bool)
    requires i < |seeds| && SeededRaces(r0, before, seeds, i)
    requires created == !HasRound(before, seeds[i].round, seeds[i].season)
    requires created ==> AppendedOne(before, after) && after[|before|] == seeds[i].(id := after[|before|].id)
    requires !created ==> after == before
    ensures SeededRaces(r0, after, seeds, i + 1)
  {
    if created {
      forall j | 0 <= j < i + 1 ensures HasRound(after, seeds[j].round, seeds[j].season) {
        if j == i {
          assert after[|before|].round == seeds[i].round;
        } else {
          assert HasRound(before, seeds[j].round, seeds[j].season);
          var k :| 0 <= k < |before| && before[k].round == seeds[j].round && before[k].season == seeds[j].season;
          assert after[k] == before[k];
        }
      }
      assert after[..|r0|] == before[..|r0|];
      forall k | |r0| <= k < |after|
        ensures exists j :: 0 <= j < i + 1 && after[k] == seeds[j].(id := after[k].id)
      {
        if k < |before| {
          assert after[k] == before[k];
        } else {
          assert after[k] == seeds[i].(id := after[k].id);
        }
      }
    }
  }

  /**
   * The race loop: every seed is present afterwards, the rows already there
   * are kept, only seeds are added, and running it again on the result adds
   * nothing.
   */
  method SeedRaces(db: Store, seeds: seq<Race>)
    requires db.Valid()
    modifies db
    ensures db.Valid()
    ensures SeededRaces(old(db.races), db.races, seeds, |seeds|)
    ensures db.drivers == old(db.drivers) && db.users == old(db.users)
    ensures db.predictions == old(db.predictions) && db.results == old(db.results)
  {
    ghost var r0 := db.races;
    for i := 0 to |seeds|
      invariant db.Valid()
      invariant SeededRaces(r0, db.races, seeds, i)
      invariant db.drivers == old(db.drivers) && db.users == old(db.users)
      invariant db.predictions == old(db.predictions) && db.results == old(db.results)
    {
      ghost var before := db.races;
      var created := InsertRaceIfAbsent(db, seeds[i]);
      SeedRaceStep(r0, before, db.races, seeds, i, created);
    }
  }

  /**
   * The user loop after i seeds: the rows that were there are kept, the
   * first i seeds are present, every added row is a seed with a fresh id, and
   * nothing is added when every seed was already present.
   */
  ghost predicate SeededUsers(u0: seq<User>, cur: seq<User>, seeds: seq<User>, i: nat)
    requires i <= |seeds|
  {
    && |u0| <= |cur| && cur[..|u0|] == u0
    && (forall j :: 0 <= j < i ==> HasEmail(cur, seeds[j].email))
    && (forall k :: |u0| <= k < |cur| ==> exists j :: 0 <= j < i && cur[k] == seeds[j].(id := cur[k].id))
    && ((forall j :: 0 <= j < |seeds| ==> HasEmail(u0, seeds[j].email)) ==> cur == u0)
  }

  /** One insert-if-absent keeps `SeededUsers` one seed further. */
  lemma SeedUserStep(u0: seq<User>, before: seq<User>, after: seq<User>, seeds: seq<User>, i: nat, created: bool)
    requires i < |seeds| && SeededUsers(u0, before, seeds, i)
    requires created == !HasEmail(before, seeds[i].email)
    requires created ==> AppendedOne(before, after) && after[|before|] == seeds[i].(id := after[|before|].id)
    requires !created ==> after == before
    ensures SeededUsers(u0, after, seeds, i + 1)
  {
    if created {
      forall j | 0 <= j < i + 1 ensures HasEmail(after, seeds[j].email) {
        if j == i {
          assert after[|before|].email == seeds[i].email;
        } else {
          assert HasEmail(before, seeds[j].email);
          var k :| 0 <= k < |before| && before[k].email == seeds[j].email;
          assert after[k] == before[k];
        }
      }
      assert after[..|u0|] == before[..|u0|];
      forall k | |u0| <= k < |after|
        ensures exists j :: 0 <= j < i + 1 && after[k] == seeds[j].(id := after[k].id)
      {
        if k < |before| {
          assert after[k] == before[k];
        } else {
          assert after[k] == seeds[i].(id := after[k].id);
        }
      }
    }
  }

  /**
   * The user loop: every seed is present afterwards, the rows already there
   * are kept, only seeds are added, and running it again on the result adds
   * nothing.
   */
  method SeedUsers(db: Store, seeds: seq<User>)
    requires db.Valid()
    modifies db
    ensures db.Valid()
    ensures SeededUsers(old(db.users), db.users, seeds, |seeds|)
    ensures db.drivers == old(db.drivers) && db.races == old(db.races)
    ensures db.predictions == old(db.predictions) && db.results == old(db.results)
  {
    ghost var u0 := db.users;
    for i := 0 to |seeds|
      invariant db.Valid()
      invariant SeededUsers(u0, db.users, seeds, i)
      invariant db.drivers == old(db.drivers) && db.races == old(db.races)
      invariant db.predictions == old(db.predictions) && db.results == old(db.results)
    {
      ghost var before := db.users;
      var created := InsertUserIfAbsent(db, seeds[i]);
      SeedUserStep(u0, before, db.users, seeds, i, created);
    }
  }

  /** The row `prediction.create({ data: { userId, raceId, positions, points } })` writes. */
  function NewPrediction(id: string, userId: string, raceId: string, positions: seq<string>, points: int): Prediction {
    Prediction(id, userId, raceId, positions, Null, Null, None, Null, points)
  }

  /** `prediction.findFirst({ where: { userId, raceId } })`, then `prediction.create` when there is none. */
  method CreatePredictionIfAbsent(db: Store, userId: string, raceId: string, positions: seq<string>, points: int)
    returns (created: bool)
    requires db.Valid()
    requires userId in UserIds(db.users) && raceId in RaceIds(db.races)
    modifies db
    ensures db.Valid()
    ensures created == !HasPrediction(old(db.predictions), userId, raceId)
    ensures created ==> (AppendedOne(old(db.predictions), db.predictions) &&
      var id := db.predictions[|old(db.predictions)|].id;
      db.predictions[|old(db.predictions)|] == NewPrediction(id, userId, raceId, positions, points) &&
      id !in PredictionIds(old(db.predictions)))
    ensures !created ==> db.predictions == old(db.predictions)
    ensures db.drivers == old(db.drivers) && db.races == old(db.races) && db.users == old(db.users)
    ensures db.results == old(db.results)
  {
    created := !HasPrediction(db.predictions, userId, raceId);
    if created {
      var id := LongerThanAll(PredictionIds(db.predictions));
      db.predictions := db.predictions + [NewPrediction(id, userId, raceId, positions, points)];
    }
  }

  /** `raceResult.create({ data: { raceId, positions } })`. */
  method CreatePositionResult(db: Store, raceId: string, positions: seq<string>)
    requires db.Valid() && raceId in RaceIds(db.races)
    modifies db
    ensures db.Valid()
    ensures AppendedOne(old(db.results), db.results)
    ensures var id := db.results[|old(db.results)|].id;
      db.results[|old(db.results)|] == PositionsResult(id, raceId, positions) &&
      id !in ResultRowIds(old(db.results))
    ensures db.drivers == old(db.drivers) && db.races == old(db.races) && db.users == old(db.users)
    ensures db.predictions == old(db.predictions)
  {
    var id := LongerThanAll(ResultRowIds(db.results));
    db.results := db.results + [PositionsResult(id, raceId, positions)];
  }

  /** The race table once the race is `COMPLETED` with its results imported. */
  function SetCompleted(s: seq<Race>, raceId: string): (t: seq<Race>)
    ensures |t| == |s|
    ensures forall k :: 0 <= k < |s| ==>
      t[k] == if s[k].id == raceId then s[k].(status := Completed, resultsImported := true) else s[k]
  {
    seq(|s|, k requires 0 <= k < |s| =>
      if s[k].id == raceId then s[k].(status := Completed, resultsImported := true) else s[k])
  }

  /** `race.update({ where: { id }, data: { status: 'COMPLETED', resultsImported: true } })`. */
  method CompleteRace(db: Store, raceId: string)
    requires db.Valid()
    modifies db
    ensures db.Valid()
    ensures db.races == SetCompleted(old(db.races), raceId)
    ensures db.drivers == old(db.drivers) && db.users == old(db.users) && db.predictions == old(db.predictions)
    ensures db.results == old(db.results)
  {
    var races := SetCompleted(db.races, raceId);
    assert RaceIds(races) == RaceIds(db.races);
    db.races := races;
  }

  /** Completing a race changes nothing but that race's status and import flag. */
  lemma SetCompletedOnly(s: seq<Race>, raceId: string, k: nat)
    requires k < |s|
    ensures SetCompleted(s, raceId)[k].id == s[k].id
    ensures SetCompleted(s, raceId)[k].round == s[k].round && SetCompleted(s, raceId)[k].season == s[k].season
    ensures s[k].id == raceId ==>
      SetCompleted(s, raceId)[k].status == Completed && SetCompleted(s, raceId)[k].resultsImported
    ensures s[k].id != raceId ==> SetCompleted(s, raceId)[k] == s[k]
  {
  }

  /** `drivers.map(d => d.id)` over the drivers with `active: true`, in storage order. */
  function ActiveDriverIds(s: seq<Driver>): (r: seq<string>)
    ensures |r| <= |s|
    ensures forall x :: x in r <==> exists k :: 0 <= k < |s| && s[k].active && s[k].id == x
  {
    if s == [] then []
    else
      var rest := ActiveDriverIds(s[..|s| - 1]);
      assert forall k :: 0 <= k < |s| - 1 ==> s[..|s| - 1][k] == s[k];
      rest + (if s[|s| - 1].active then [s[|s| - 1].id] else [])
  }

  /** `race.findMany({ where: { season } })`, in storage order. */
  function SeasonRaces(s: seq<Race>, season: int): (r: seq<Race>)
    ensures |r| <= |s|
    ensures forall x :: x in r <==> x in s && x.season == season
  {
    if s == [] then []
    else
      var rest := SeasonRaces(s[..|s| - 1], season);
      assert s == s[..|s| - 1] + [s[|s| - 1]];
      rest + (if s[|s| - 1].season == season then [s[|s| - 1]] else [])
  }

  function Round(r: Race): int {
    r.round
  }

  /** `race.findMany({ where: { season }, orderBy: { round: 'asc' } })`. */
  function ByRound(s: seq<Race>, season: int): (r: seq<Race>)
    ensures |r| == |SeasonRaces(s, season)|
  {
    SortBy(SeasonRaces(s, season), Round)
  }

  /** The season's races, each once, in ascending round order. */
  lemma ByRoundOrdered(s: seq<Race>, season: int)
    ensures SortedBy(ByRound(s, season), Round)
    ensures multiset(ByRound(s, season)) == multiset(SeasonRaces(s, season))
    ensures forall x :: x in ByRound(s, season) <==> x in s && x.season == season
  {
    SortByIsSorted(SeasonRaces(s, season), Round);
    SortByPermutes(SeasonRaces(s, season), Round);
    forall x ensures x in ByRound(s, season) <==> x in SeasonRaces(s, season) {
      assert x in ByRound(s, season) <==> x in multiset(ByRound(s, season));
    }
  }

  /** The three seeding loops in turn: drivers, races, users. */
  method SeedAll(db: Store, drivers: seq<Driver>, races: seq<Race>, users: seq<User>)
    requires db.Valid()
    modifies db
    ensures db.Valid()
    ensures SeededDrivers(old(db.drivers), db.drivers, drivers, |drivers|)
    ensures SeededRaces(old(db.races), db.races, races, |races|)
    ensures SeededUsers(old(db.users), db.users, users, |users|)
    ensures db.predictions == old(db.predictions) && db.results == old(db.results)
  {
    SeedDrivers(db, drivers);
    SeedRaces(db, races);
    SeedUsers(db, users);
  }
}
