/**
 * `setup-dev.js`: seed drivers and races if absent, make sure the test user
 * exists, and give it a shuffled prediction of every driver for the round-1
 * race of 2025 when it has none.
 */
module SetupDev {
  import opened Wrappers
  import opened Seqs
  import opened Db
  import opened DevScoring
  import opened DevSeeding
  import SimulateRace

  const TestEmail: string := "test@example.com"
  const TestName: string := "Test User"
  const UserRole: string := "USER"
  const FirstRound: int := 1
  const SetupSeason: int := 2025

  /** The row `user.create` writes for the test user, before it has an id. */
  const TestUser: User := User("", Js.Str(TestName), TestEmail, UserRole, 0)

  /** `user.findFirst({ where: { email } })`. */
  function FindEmail(s: seq<User>, email: string): (r: Option<nat>)
    ensures r.Some? ==> r.value < |s| && s[r.value].email == email
    ensures r.None? <==> !HasEmail(s, email)
  {
    FindFirst(s, (u: User) => u.email == email)
  }

  /**
   * Step 3: the test user is the user with the test email, created only when
   * no user has it.
   */
  method EnsureTestUser(db: Store) returns (userId: string)
    requires db.Valid()
    modifies db
    ensures db.Valid()
    ensures FindEmail(db.users, TestEmail).Some?
    ensures userId == db.users[FindEmail(db.users, TestEmail).value].id
    ensures forall a, b :: (0 <= a < |db.users| && 0 <= b < |db.users| &&
      db.users[a].email == TestEmail && db.users[b].email == TestEmail) ==> a == b
    ensures HasEmail(old(db.users), TestEmail) ==> db.users == old(db.users)
    ensures !HasEmail(old(db.users), TestEmail) ==>
      (AppendedOne(old(db.users), db.users) && userId == db.users[|old(db.users)|].id &&
       db.users[|old(db.users)|] == TestUser.(id := userId) && userId !in UserIds(old(db.users)))
    ensures db.drivers == old(db.drivers) && db.races == old(db.races) && db.predictions == old(db.predictions)
    ensures db.results == old(db.results)
  {
    var created := InsertUserIfAbsent(db, TestUser);
    var k := FindEmail(db.users, TestEmail);
    userId := db.users[k.value].id;
    if created {
      ghost var last := |old(db.users)|;
      assert db.users[last].email == TestEmail;
    }
  }

  /**
   * Step 4's outcome: with no round-1 race of the season nothing changes;
   * otherwise every driver id is shuffled, and the user gets a prediction of
   * that order for the race when it has none.
   */
  ghost predicate FirstRacePredicted(races: seq<Race>, drivers: seq<Driver>, userId: string,
                                     p0: seq<Prediction>, p: seq<Prediction>, draws0: seq<nat>, draws: seq<nat>)
  {
    match SimulateRace.FindRound(races, FirstRound, SetupSeason)
    case None => p == p0 && draws == draws0
    case Some(k) =>
      && draws == DrawsAfter(draws0, |drivers|)
      && (HasPrediction(p0, userId, races[k].id) ==> p == p0)
      && (!HasPrediction(p0, userId, races[k].id) ==>
            && AppendedOne(p0, p)
            && p[|p0|] == NewPrediction(p[|p0|].id, userId, races[k].id, ShuffleFrom(DriverIds(drivers), draws0, |drivers|), 0)
            && p[|p0|].id !in PredictionIds(p0)
            && multiset(p[|p0|].positions) == multiset(DriverIds(drivers)))
  }

  /** Step 4, on the store. */
  method PredictFirstRace(db: Store, rng: Rng, userId: string)
    requires db.Valid() && userId in UserIds(db.users)
    modifies db, rng
    ensures db.Valid()
    ensures FirstRacePredicted(db.races, db.drivers, userId, old(db.predictions), db.predictions, old(rng.draws), rng.draws)
    ensures db.drivers == old(db.drivers) && db.races == old(db.races) && db.users == old(db.users)
    ensures db.results == old(db.results)
  {
    var firstRace := SimulateRace.FindRound(db.races, FirstRound, SetupSeason);
    if firstRace.Some? {
      var race := db.races[firstRace.value];
      var driverIds := ShuffledIds(DriverIds(db.drivers), rng);
      assert race.id in RaceIds(db.races);
      var created := CreatePredictionIfAbsent(db, userId, race.id, driverIds, 0);
    }
  }

  /** The script's `main`. */
  method SetupDev(db: Store, rng: Rng, drivers: seq<Driver>, races: seq<Race>) returns (testUserId: string)
    requires db.Valid()
    modifies db, rng
    ensures db.Valid()
    ensures SeededDrivers(old(db.drivers), db.drivers, drivers, |drivers|)
    ensures SeededRaces(old(db.races), db.races, races, |races|)
    ensures FindEmail(db.users, TestEmail).Some? && testUserId == db.users[FindEmail(db.users, TestEmail).value].id
    ensures forall a, b :: (0 <= a < |db.users| && 0 <= b < |db.users| &&
      db.users[a].email == TestEmail && db.users[b].email == TestEmail) ==> a == b
    ensures HasEmail(old(db.users), TestEmail) ==> db.users == old(db.users)
    ensures !HasEmail(old(db.users), TestEmail) ==>
      (AppendedOne(old(db.users), db.users) && db.users[|old(db.users)|] == TestUser.(id := testUserId))
    ensures FirstRacePredicted(db.races, db.drivers, testUserId, old(db.predictions), db.predictions, old(rng.draws), rng.draws)
    ensures db.results == old(db.results)
  {
    SeedDrivers(db, drivers);
    SeedRaces(db, races);
    testUserId := EnsureTestUser(db);
    PredictFirstRace(db, rng, testUserId);
  }
}
