/**
 * `/api/predictions`. `GET` lists predictions scoped to the caller, or to
 * the user an administrator names, optionally for one race. `POST` saves
 * the caller's prediction for an upcoming race: the pair's existing row is
 * updated, or a row is created, so a (user, race) pair never has two.
 */
module PredictionsRoute {
  import opened Wrappers
  import opened Js
  import opened Db

  /** The signed-in user of the session. */
  datatype Caller = Caller(id: string, role: string)

  /** The `where` object `GET` builds; an absent field does not filter. */
  datatype Where = Where(userId: Option<string>, raceId: Option<string>)

  datatype Response =
    | Unauthorized
    | BadRequest(message: string)
    | NotFound(message: string)
    | ServerError(message: string)
    | Listed(predictions: seq<Prediction>)
    | Saved(prediction: Prediction)

  /** A query parameter from `searchParams.get`: `null` when absent, truthy when non-empty. */
  predicate Given(v: Option<string>) {
    v.Some? && v.value != ""
  }

  /** Whose predictions `GET` lists: the named user for an administrator who names one, else the caller. */
  function ScopedUser(caller: Caller, targetUserId: Option<string>): string {
    if caller.role == AdminRole && Given(targetUserId) then targetUserId.value else caller.id
  }

  /** The race filter: present only when `raceId` is given. */
  function RaceFilter(raceId: Option<string>): (r: Option<string>)
    ensures r.Some? <==> Given(raceId)
    ensures r.Some? ==> r == raceId
  {
    if Given(raceId) then raceId else None
  }

  /** The `query` object, built field by field. */
  method BuildQuery(caller: Caller, targetUserId: Option<string>, raceId: Option<string>) returns (query: Where)
    ensures query == Where(Some(ScopedUser(caller, targetUserId)), RaceFilter(raceId))
  {
    query := Where(None, None);
    var isAdmin := caller.role == AdminRole;
    if !isAdmin || !Given(targetUserId) {
      query := query.(userId := Some(caller.id));
    } else if isAdmin && Given(targetUserId) {
      query := query.(userId := targetUserId);
    }
    if Given(raceId) {
      query := query.(raceId := raceId);
    }
  }

  predicate Matches(w: Where, p: Prediction) {
    (w.userId.None? || p.userId == w.userId.value) && (w.raceId.None? || p.raceId == w.raceId.value)
  }

  /** `prediction.findMany({ where })`, in storage order. */
  function Select(s: seq<Prediction>, w: Where): (r: seq<Prediction>)
    ensures forall p :: p in r <==> p in s && Matches(w, p)
  {
    if s == [] then []
    else
      var rest := Select(s[..|s| - 1], w);
      var p := s[|s| - 1];
      assert s == s[..|s| - 1] + [p];
      if Matches(w, p) then rest + [p] else rest
  }

  /** `GET`: 401 without a session, otherwise the scoped predictions. */
  method Get(db: Store, session: Option<Caller>, targetUserId: Option<string>, raceId: Option<string>)
    returns (response: Response)
    ensures session.None? ==> response == Unauthorized
    ensures session.Some? ==>
      response == Listed(Select(db.predictions, Where(Some(ScopedUser(session.value, targetUserId)), RaceFilter(raceId))))
  {
    if session.None? {
      return Unauthorized;
    }
    var query := BuildQuery(session.value, targetUserId, raceId);
    response := Listed(Select(db.predictions, query));
  }

  /**
   * What `GET` lists: a caller who is not an administrator sees exactly
   * their own predictions (of the race, when one is given), whatever user
   * they name; an administrator who names a user sees exactly that user's.
   */
  lemma GetScoping(s: seq<Prediction>, caller: Caller, targetUserId: Option<string>, raceId: Option<string>)
    ensures var listed := Select(s, Where(Some(ScopedUser(caller, targetUserId)), RaceFilter(raceId)));
      forall p :: p in listed <==>
        (p in s && p.userId == (if caller.role == AdminRole && Given(targetUserId) then targetUserId.value else caller.id) &&
         (Given(raceId) ==> p.raceId == raceId.value))
  {
  }

  /** The POST body fields the route reads. */
  datatype Body = Body(
    raceId: Nullable,
    positions: Option<seq<string>>,
    polePositionPrediction: Nullable,
    sprintPolePrediction: Nullable,
    sprintPositions: Option<seq<string>>)

  /** The validation: `raceId` is truthy and `positions` is an array. */
  predicate WellFormed(body: Body) {
    TruthyText(body.raceId) && body.positions.Some?
  }

  /** The update's `data`: new guesses, falsy optional fields stored as null. */
  function Updated(p: Prediction, body: Body): Prediction
    requires body.positions.Some?
  {
    p.(positions := body.positions.value,
       polePositionPrediction := OrNull(body.polePositionPrediction),
       sprintPolePrediction := OrNull(body.sprintPolePrediction),
       sprintPositions := body.sprintPositions)
  }

  /** The create's `data`, with the schema defaults for the rest. */
  function Created(id: string, userId: string, raceId: string, body: Body): Prediction
    requires body.positions.Some?
  {
    Prediction(id, userId, raceId, body.positions.value, OrNull(body.polePositionPrediction), Null,
               body.sprintPositions, OrNull(body.sprintPolePrediction), 0)
  }

  /** The prediction table after the upsert of the pair's guesses. */
  ghost predicate Upserted(p0: seq<Prediction>, p: seq<Prediction>, userId: string, raceId: string, body: Body, saved: Prediction)
    requires body.positions.Some?
  {
    match FindPrediction(p0, userId, raceId)
    case Some(k) => p == p0[k := Updated(p0[k], body)] && saved == p[k]
    case None =>
      AppendedOne(p0, p) && p[|p0|] == Created(p[|p0|].id, userId, raceId, body) &&
      p[|p0|].id !in PredictionIds(p0) && saved == p[|p0|]
  }

  /**
   * After the upsert the pair has exactly one prediction, holding the
   * body's guesses; every other prediction is as it was.
   */
  lemma UpsertEffect(p0: seq<Prediction>, p: seq<Prediction>, userId: string, raceId: string, body: Body, saved: Prediction)
    requires body.positions.Some? && OnePerUserAndRace(p0)
    requires Upserted(p0, p, userId, raceId, body, saved)
    ensures OnePerUserAndRace(p)
    ensures FindPrediction(p, userId, raceId).Some? && p[FindPrediction(p, userId, raceId).value] == saved
    ensures saved.userId == userId && saved.raceId == raceId && saved.positions == body.positions.value
    ensures saved.polePositionPrediction == OrNull(body.polePositionPrediction)
    ensures saved.sprintPolePrediction == OrNull(body.sprintPolePrediction)
    ensures saved.sprintPositions == body.sprintPositions
    ensures forall k :: 0 <= k < |p0| && (p0[k].userId != userId || p0[k].raceId != raceId) ==> p[k] == p0[k]
  {
    match FindPrediction(p0, userId, raceId)
    case Some(k) =>
      forall a, b | 0 <= a < b < |p| ensures p[a].userId != p[b].userId || p[a].raceId != p[b].raceId {
        assert p0[a].userId != p0[b].userId || p0[a].raceId != p0[b].raceId;
      }
      assert p[k].userId == userId && p[k].raceId == raceId;
    case None =>
      forall a, b | 0 <= a < b < |p| ensures p[a].userId != p[b].userId || p[a].raceId != p[b].raceId {
        if b < |p0| {
          assert p[a] == p0[a] && p[b] == p0[b];
        } else {
          assert p[a] == p0[a];
        }
      }
      assert p[|p0|].userId == userId && p[|p0|].raceId == raceId;
      forall k | 0 <= k < |p0| ensures p[k] == p0[k] {
        assert p[..|p0|][k] == p[k];
      }
  }

  const InvalidData: string := "Invalid data. raceId and positions (array) are required"
  const NoRace: string := "Race does not exist"
  const NotUpcoming: string := "Predictions can only be created for upcoming races"
  const SaveFailed: string := "Error creating/updating prediction"

  /** The upsert's outcome: the saved row, or the failed create of a row for an unknown user. */
  ghost predicate Saving(p0: seq<Prediction>, p: seq<Prediction>, users: seq<User>, userId: string, raceId: string,
                         body: Body, response: Response)
    requires body.positions.Some?
  {
    if !HasPrediction(p0, userId, raceId) && userId !in UserIds(users) then
      response == ServerError(SaveFailed) && p == p0
    else
      response.Saved? && Upserted(p0, p, userId, raceId, body, response.prediction)
  }

  /** The upsert: the pair's prediction is updated when there is one, or a new one is created. */
  method Save(db: Store, userId: string, raceId: string, body: Body) returns (response: Response)
    requires db.Valid() && raceId in RaceIds(db.races) && body.positions.Some?
    modifies db
    ensures db.Valid()
    ensures db.drivers == old(db.drivers) && db.races == old(db.races) && db.users == old(db.users)
    ensures db.results == old(db.results)
    ensures Saving(old(db.predictions), db.predictions, db.users, userId, raceId, body, response)
  {
    var existing := FindPrediction(db.predictions, userId, raceId);
    if existing.Some? {
      var k := existing.value;
      var prediction := Updated(db.predictions[k], body);
      ghost var before := db.predictions;
      db.predictions := db.predictions[k := prediction];
      assert SamePredictionKeys(before, db.predictions);
      ValidAfterRewrite(db.drivers, db.races, db.users, db.users, before, db.predictions, db.results);
      response := Saved(prediction);
    } else {
      if userId !in UserIds(db.users) {
        return ServerError(SaveFailed);
      }
      var id := LongerThanAll(PredictionIds(db.predictions));
      var prediction := Created(id, userId, raceId, body);
      db.predictions := db.predictions + [prediction];
      response := Saved(prediction);
    }
  }

  /**
   * `POST`. The rejections come in the source's order and leave the store
   * as it was; creating a row for a user the store does not hold fails on
   * the user reference, which the route reports as a server error.
   */
  method Post(db: Store, session: Option<Caller>, body: Body) returns (response: Response)
    requires db.Valid()
    modifies db
    ensures db.Valid()
    ensures db.drivers == old(db.drivers) && db.races == old(db.races) && db.users == old(db.users)
    ensures db.results == old(db.results)
    ensures !response.Saved? ==> db.predictions == old(db.predictions)
    ensures session.None? ==> response == Unauthorized
    ensures session.Some? && !WellFormed(body) ==> response == BadRequest(InvalidData)
    ensures session.Some? && WellFormed(body) && FindRace(db.races, body.raceId.value).None? ==>
      response == NotFound(NoRace)
    ensures session.Some? && WellFormed(body) && FindRace(db.races, body.raceId.value).Some? ==>
      var race := db.races[FindRace(db.races, body.raceId.value).value];
      var userId := session.value.id;
      && (race.status != Upcoming ==> response == BadRequest(NotUpcoming))
      && (race.status == Upcoming ==> Saving(old(db.predictions), db.predictions, db.users, userId, race.id, body, response))
  {
    if session.None? {
      return Unauthorized;
    }
    var userId := session.value.id;
    if !WellFormed(body) {
      return BadRequest(InvalidData);
    }
    var raceId := body.raceId.value;
    var found := FindRace(db.races, raceId);
    if found.None? {
      return NotFound(NoRace);
    }
    var race := db.races[found.value];
    if race.status != Upcoming {
      return BadRequest(NotUpcoming);
    }
    assert race.id == raceId;
    response := Save(db, userId, raceId, body);
  }
}
