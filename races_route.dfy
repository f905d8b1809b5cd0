/**
 * `/api/races`. `GET` lists the races, newest season first and by round
 * within a season, optionally of one season and of one of the three known
 * statuses. `POST` lets an administrator add a race whose (round, season)
 * is new; its status defaults to `UPCOMING`.
 */
module RacesRoute {
  import opened Wrappers
  import opened Js
  import opened Seqs
  import opened Sorting
  import opened Db

  /** A listed race with the ids of its results (`include: { results: { select: { id } } }`). */
  datatype Listing = Listing(race: Race, resultIds: seq<string>)

  /** The race filter; an absent field does not filter. */
  datatype Where = Where(season: Option<int>, status: Option<string>)

  datatype Response =
    | Unauthorized
    | Forbidden(message: string)
    | BadRequest(message: string)
    | ServerError(message: string)
    | Listed(listings: seq<Listing>)
    | Created(race: Race)

  /** The statuses the status filter accepts. */
  const Statuses: seq<string> := [Upcoming, Live, Completed]

  const NotAdmin: string := "Unauthorized. Admin permissions required"
  const InvalidData: string := "Invalid data. All fields are required"
  const ListFailed: string := "Error getting races"
  const CreateFailed: string := "Error creating race"

  /** A query parameter from `searchParams.get` is truthy: present and non-empty. */
  predicate Given(v: Option<string>) {
    v.Some? && v.value != ""
  }

  /**
   * The spreads building `whereClause`: `season` is `parseInt` of a truthy
   * parameter; `status` is kept only when it is one of the three. `None`
   * when `parseInt` gives `NaN`, which the query rejects.
   */
  function WhereOf(season: Option<string>, status: Option<string>): (r: Option<Where>)
    ensures r.None? <==> Given(season) && ParseInt(season.value).None?
    ensures r.Some? ==> (r.value.season.Some? <==> Given(season))
    ensures r.Some? && Given(season) ==> r.value.season == ParseInt(season.value)
    ensures r.Some? ==> (r.value.status.Some? <==> status.Some? && status.value in Statuses)
    ensures r.Some? && r.value.status.Some? ==> r.value.status == status
  {
    if Given(season) && ParseInt(season.value).None? then None
    else
      Some(Where(if Given(season) then ParseInt(season.value) else None,
                 if Given(status) && status.value in Statuses then status else None))
  }

  predicate Matches(w: Where, r: Race) {
    (w.season.None? || r.season == w.season.value) && (w.status.None? || r.status == w.status.value)
  }

  function BySeasonDesc(r: Race): int { -r.season }

  function ByRound(r: Race): int { r.round }

  /** `orderBy: [{ season: 'desc' }, { round: 'asc' }]`. */
  function RaceOrder(s: seq<Race>): seq<Race> {
    SortByPair(s, BySeasonDesc, ByRound)
  }

  /** `findMany({ where, orderBy })` on races. */
  function Query(s: seq<Race>, w: Where): seq<Race> {
    RaceOrder(Filter(s, (r: Race) => Matches(w, r)))
  }

  /**
   * The query returns the matching races, each as often as it is stored,
   * newest season first and by ascending round within a season.
   */
  lemma QueryCorrect(s: seq<Race>, w: Where)
    ensures multiset(Query(s, w)) == multiset(Filter(s, (r: Race) => Matches(w, r)))
    ensures forall r :: r in Query(s, w) <==> r in s && Matches(w, r)
    ensures forall i, j :: 0 <= i < j < |Query(s, w)| ==>
      Query(s, w)[i].season > Query(s, w)[j].season ||
      (Query(s, w)[i].season == Query(s, w)[j].season && Query(s, w)[i].round <= Query(s, w)[j].round)
  {
    var selected := Filter(s, (r: Race) => Matches(w, r));
    var q := Query(s, w);
    SortByPairCorrect(selected, BySeasonDesc, ByRound);
    forall r ensures r in q <==> r in selected {
      assert r in q <==> r in multiset(q);
      assert r in selected <==> r in multiset(selected);
    }
    forall i, j | 0 <= i < j < |q|
      ensures q[i].season > q[j].season || (q[i].season == q[j].season && q[i].round <= q[j].round)
    {
      assert BySeasonDesc(q[i]) < BySeasonDesc(q[j]) ||
             (BySeasonDesc(q[i]) == BySeasonDesc(q[j]) && ByRound(q[i]) <= ByRound(q[j]));
    }
  }

  /** The ids of a race's results, in storage order. */
  function ResultIds(results: seq<RaceResult>, raceId: string): (r: seq<string>)
    ensures forall id :: id in r <==> exists k :: 0 <= k < |results| && results[k].raceId == raceId && results[k].id == id
  {
    if results == [] then []
    else
      var init := results[..|results| - 1];
      var last := results[|results| - 1];
      assert forall k :: 0 <= k < |init| ==> init[k] == results[k];
      if last.raceId == raceId then ResultIds(init, raceId) + [last.id] else ResultIds(init, raceId)
  }

  function Listings(races: seq<Race>, results: seq<RaceResult>): (r: seq<Listing>)
    ensures |r| == |races|
    ensures forall i :: 0 <= i < |r| ==> r[i] == Listing(races[i], ResultIds(results, races[i].id))
  {
    seq(|races|, i requires 0 <= i < |races| => Listing(races[i], ResultIds(results, races[i].id)))
  }

  /** `GET`: 401 without a session, 500 for a `NaN` season, else the queried races with their results. */
  function Get(signedIn: bool, season: Option<string>, status: Option<string>, races: seq<Race>,
               results: seq<RaceResult>): (r: Response)
    ensures !signedIn ==> r == Unauthorized
    ensures signedIn && Given(season) && ParseInt(season.value).None? ==> r == ServerError(ListFailed)
    ensures signedIn && WhereOf(season, status).Some? ==> r.Listed?
    ensures r.Unauthorized? || r.ServerError? || r.Listed?
    ensures r.Listed? ==>
      var w := WhereOf(season, status).value;
      && (forall x :: x in r.listings <==> x.race in races && Matches(w, x.race) && x.resultIds == ResultIds(results, x.race.id))
      && (forall i, j :: 0 <= i < j < |r.listings| ==>
            r.listings[i].race.season > r.listings[j].race.season ||
            (r.listings[i].race.season == r.listings[j].race.season && r.listings[i].race.round <= r.listings[j].race.round))
  {
    if !signedIn then Unauthorized
    else
      match WhereOf(season, status)
      case None => ServerError(ListFailed)
      case Some(w) =>
        QueryCorrect(races, w);
        var q := Query(races, w);
        var listed := Listings(q, results);
        assert forall x :: x in listed <==> x.race in q && x.resultIds == ResultIds(results, x.race.id) by {
          forall x ensures x in listed <==> x.race in q && x.resultIds == ResultIds(results, x.race.id) {
            if x.race in q {
              var i :| 0 <= i < |q| && q[i] == x.race;
              assert x.resultIds == ResultIds(results, x.race.id) ==> listed[i] == x;
            }
          }
        }
        Listed(listed)
  }

  /** The POST body fields; `round` and `season` are absent or integers. */
  datatype Body = Body(
    name: Nullable,
    round: Option<int>,
    circuit: Nullable,
    date: Nullable,
    season: Option<int>,
    status: Nullable)

  /** `!!n` for a number: present and non-zero. */
  predicate TruthyNumber(n: Option<int>) {
    n.Some? && n.value != 0
  }

  /** The validation: every required field is truthy. */
  predicate Complete(b: Body) {
    TruthyText(b.name) && TruthyNumber(b.round) && TruthyText(b.circuit) && TruthyText(b.date) && TruthyNumber(b.season)
  }

  /** `status = 'UPCOMING'` when the field is absent; `None` for a value the status column does not take. */
  function StatusOf(b: Body): (r: Option<string>)
    ensures b.status.Undefined? ==> r == Some(Upcoming)
    ensures r.Some? ==> r.value in Statuses
    ensures b.status.Str? && b.status.value in Statuses ==> r == Some(b.status.value)
    ensures b.status.Null? || (b.status.Str? && b.status.value !in Statuses) ==> r.None?
  {
    match b.status
    case Undefined => Some(Upcoming)
    case Null => None
    case Str(s) => if s in Statuses then Some(s) else None
  }

  function DuplicateMessage(round: int, season: int): string {
    "A race already exists for round " + IntText(round) + " in season " + IntText(season)
  }

  /** The created row: a fresh id, the body's fields, and no results or sprint yet. */
  function NewRace(races: seq<Race>, b: Body, status: string): (r: Race)
    requires Complete(b)
    ensures r.id !in RaceIds(races)
    ensures r.name == b.name.value && r.round == b.round.value && r.circuit == b.circuit.value
    ensures r.date == b.date.value && r.season == b.season.value && r.status == status
    ensures !r.resultsImported && !r.hasSprint
  {
    var id := LongerThanAll(RaceIds(races));
    Race(id, b.name.value, b.round.value, b.circuit.value, b.date.value, b.season.value, status, false, false)
  }

  /**
   * `POST`. A caller who is not an administrator, an incomplete body and
   * a (round, season) already taken are rejected in that order, leaving
   * the table unchanged; a status the column does not take fails on the
   * insert. Otherwise the new race is appended, so (round, season) stays
   * unique.
   */
  method Post(db: Store, role: Option<string>, body: Body) returns (response: Response)
    requires db.Valid()
    modifies db
    ensures db.Valid() && UniqueRounds(db.races)
    ensures db.drivers == old(db.drivers) && db.users == old(db.users) && db.predictions == old(db.predictions)
    ensures db.results == old(db.results)
    ensures !response.Created? ==> db.races == old(db.races)
    ensures response.Created? ==> db.races == old(db.races) + [response.race]
    ensures role != Some(AdminRole) ==> response == Forbidden(NotAdmin)
    ensures role == Some(AdminRole) && !Complete(body) ==> response == BadRequest(InvalidData)
    ensures role == Some(AdminRole) && Complete(body) ==>
      && (HasRound(old(db.races), body.round.value, body.season.value) ==>
            response == BadRequest(DuplicateMessage(body.round.value, body.season.value)))
      && (!HasRound(old(db.races), body.round.value, body.season.value) && StatusOf(body).None? ==>
            response == ServerError(CreateFailed))
      && (!HasRound(old(db.races), body.round.value, body.season.value) && StatusOf(body).Some? ==>
            response == Created(NewRace(old(db.races), body, StatusOf(body).value)))
  {
    if role != Some(AdminRole) {
      return Forbidden(NotAdmin);
    }
    if !Complete(body) {
      return BadRequest(InvalidData);
    }
    var round, season := body.round.value, body.season.value;
    var existing := FindFirst(db.races, (r: Race) => r.round == round && r.season == season);
    if existing.Some? {
      return BadRequest(DuplicateMessage(round, season));
    }
    var status := StatusOf(body);
    if status.None? {
      return ServerError(CreateFailed);
    }
    var race := NewRace(db.races, body, status.value);
    ValidAfterAddRace(db.drivers, db.races, race, db.users, db.predictions, db.results);
    db.races := db.races + [race];
    response := Created(race);
  }
}
