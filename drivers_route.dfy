/**
 * `/api/drivers`. `GET` without filters lists the active drivers by number
 * for anyone; with an `active` or `team` filter it needs a session and
 * lists the matching rows. `POST` lets an administrator add a driver whose
 * number and code are both new; its id is its code.
 */
module DriversRoute {
  import opened Wrappers
  import opened Js
  import opened Seqs
  import opened Sorting
  import opened Db

  /** The fields the unfiltered list selects. */
  datatype DriverSummary = DriverSummary(id: string, number: int, fullname: string, team: string, active: bool)

  /** The filtered list's `where`: an absent field does not filter. */
  datatype Where = Where(active: Option<bool>, team: Option<string>)

  datatype Response =
    | Unauthorized
    | Forbidden(message: string)
    | BadRequest(message: string)
    | ServerError(message: string)
    | Summaries(summaries: seq<DriverSummary>)
    | Listed(drivers: seq<Driver>)
    | Created(driver: Driver)

  /** A query parameter from `searchParams.get` is truthy: present and non-empty. */
  predicate Given(v: Option<string>) {
    v.Some? && v.value != ""
  }

  function SummaryOf(d: Driver): DriverSummary {
    DriverSummary(d.id, d.number, d.fullname, d.team, d.active)
  }

  function ByNumber(s: DriverSummary): int { s.number }

  /** `findMany({ where: { active: true }, select })`, in storage order. */
  function ActiveSummaries(s: seq<Driver>): (r: seq<DriverSummary>)
    ensures forall x :: x in r <==> exists k :: 0 <= k < |s| && s[k].active && x == SummaryOf(s[k])
  {
    if s == [] then []
    else
      var init := s[..|s| - 1];
      var rest := ActiveSummaries(init);
      var d := s[|s| - 1];
      assert forall k :: 0 <= k < |init| ==> init[k] == s[k];
      if d.active then rest + [SummaryOf(d)] else rest
  }

  /** The unfiltered list: the active drivers ordered by number. */
  function BasicList(s: seq<Driver>): seq<DriverSummary> {
    SortBy(ActiveSummaries(s), ByNumber)
  }

  /**
   * The unfiltered list holds each active driver's summary once per row,
   * nothing else, in ascending number order.
   */
  lemma BasicListCorrect(s: seq<Driver>)
    ensures multiset(BasicList(s)) == multiset(ActiveSummaries(s))
    ensures forall x :: x in BasicList(s) <==> exists k :: 0 <= k < |s| && s[k].active && x == SummaryOf(s[k])
    ensures forall i, j :: 0 <= i < j < |BasicList(s)| ==> BasicList(s)[i].number <= BasicList(s)[j].number
  {
    var sorted := BasicList(s);
    SortByPermutes(ActiveSummaries(s), ByNumber);
    SortByIsSorted(ActiveSummaries(s), ByNumber);
    forall x ensures x in sorted <==> x in ActiveSummaries(s) {
      assert x in sorted <==> x in multiset(sorted);
      assert x in ActiveSummaries(s) <==> x in multiset(ActiveSummaries(s));
    }
    forall i, j | 0 <= i < j < |sorted| ensures sorted[i].number <= sorted[j].number {
      assert ByNumber(sorted[i]) <= ByNumber(sorted[j]);
    }
  }

  /**
   * The spreads building `whereClause`: `active` is compared with `'true'`
   * whenever the parameter is present, even empty; `team` only when truthy.
   */
  function WhereOf(active: Option<string>, team: Option<string>): Where {
    Where(if active.Some? then Some(active.value == "true") else None, if Given(team) then team else None)
  }

  predicate Matches(w: Where, d: Driver) {
    (w.active.None? || d.active == w.active.value) && (w.team.None? || d.team == w.team.value)
  }

  /** `findMany({ where })`, in storage order. */
  function Select(s: seq<Driver>, w: Where): (r: seq<Driver>)
    ensures forall d :: d in r <==> d in s && Matches(w, d)
  {
    if s == [] then []
    else
      var rest := Select(s[..|s| - 1], w);
      var d := s[|s| - 1];
      assert s == s[..|s| - 1] + [d];
      if Matches(w, d) then rest + [d] else rest
  }

  /**
   * `GET`. The list without truthy filters is public; a filter needs a
   * session and then selects on `active` when the parameter is present at
   * all and on `team` when it is non-empty.
   */
  function Get(drivers: seq<Driver>, signedIn: bool, active: Option<string>, team: Option<string>): (r: Response)
    ensures r.Summaries? <==> !Given(active) && !Given(team)
    ensures r.Summaries? ==>
      (forall x :: x in r.summaries <==> exists k :: 0 <= k < |drivers| && drivers[k].active && x == SummaryOf(drivers[k]))
      && (forall i, j :: 0 <= i < j < |r.summaries| ==> r.summaries[i].number <= r.summaries[j].number)
    ensures r == Unauthorized <==> (Given(active) || Given(team)) && !signedIn
    ensures r.Summaries? || r.Unauthorized? || r.Listed?
    ensures r.Listed? ==> forall d :: d in r.drivers <==>
      (d in drivers && (active.Some? ==> d.active == (active.value == "true")) && (Given(team) ==> d.team == team.value))
  {
    if !Given(active) && !Given(team) then
      BasicListCorrect(drivers);
      Summaries(BasicList(drivers))
    else if !signedIn then
      Unauthorized
    else
      Listed(Select(drivers, WhereOf(active, team)))
  }

  /** The POST body fields; `number` is absent or an integer, `active` absent or a boolean. */
  datatype Body = Body(
    number: Option<int>,
    code: Nullable,
    firstname: Nullable,
    lastname: Nullable,
    fullname: Nullable,
    nationality: Nullable,
    team: Nullable,
    active: Option<bool>)

  /** `!!number`: present and non-zero. */
  predicate TruthyNumber(n: Option<int>) {
    n.Some? && n.value != 0
  }

  /** The validation: every required field is truthy. */
  predicate Complete(b: Body) {
    TruthyNumber(b.number) && TruthyText(b.code) && TruthyText(b.firstname) && TruthyText(b.lastname)
    && TruthyText(b.nationality) && TruthyText(b.team)
  }

  const NotAdmin: string := "Unauthorized. Administrator permissions required"
  const InvalidData: string := "Invalid data. All fields are required"
  const CreateFailed: string := "Error creating driver"

  /** `findFirst({ where: { OR: [{ number }, { code }] } })`. */
  function Clash(s: seq<Driver>, number: int, code: string): Option<nat> {
    FindFirst(s, (d: Driver) => d.number == number || d.code == code)
  }

  /** The rejection names the number when the clashing driver has it, otherwise the code. */
  function DuplicateMessage(existing: Driver, number: int, code: string): string {
    if existing.number == number then "A driver with number " + IntText(number) + " already exists"
    else "A driver with code " + code + " already exists"
  }

  /**
   * A clash is found exactly when some driver has the number or the code,
   * and the message names the number exactly when the driver found has it.
   */
  lemma ClashCorrect(s: seq<Driver>, number: int, code: string)
    ensures Clash(s, number, code).Some? <==> exists k :: 0 <= k < |s| && (s[k].number == number || s[k].code == code)
    ensures Clash(s, number, code).None? <==> !HasNumber(s, number) && !HasCode(s, code)
    ensures Clash(s, number, code).Some? ==>
      var d := s[Clash(s, number, code).value];
      (DuplicateMessage(d, number, code) == "A driver with number " + IntText(number) + " already exists" <==>
       d.number == number)
  {
    if Clash(s, number, code).Some? {
      var d := s[Clash(s, number, code).value];
      if d.number != number {
        var text := "A driver with code " + code + " already exists";
        assert text[14] == 'c' && ("A driver with number " + IntText(number) + " already exists")[14] == 'n';
      }
    }
  }

  /** Some driver has this number. */
  predicate HasNumber(s: seq<Driver>, number: int) {
    exists k :: 0 <= k < |s| && s[k].number == number
  }

  /** No two drivers share a number. */
  predicate UniqueNumbers(s: seq<Driver>) {
    forall a, b :: 0 <= a < b < |s| ==> s[a].number != s[b].number
  }

  /** The created row: id is the code, `fullname` defaults to the two names, `active` to true. */
  function NewDriver(b: Body): (r: Driver)
    requires Complete(b)
    ensures r.id == r.code && r.fullname != ""
    ensures r.number == b.number.value && r.code == b.code.value && r.team == b.team.value
    ensures TruthyText(b.fullname) ==> r.fullname == b.fullname.value
    ensures !TruthyText(b.fullname) ==> r.fullname == b.firstname.value + " " + b.lastname.value
    ensures r.active <==> b.active != Some(false)
  {
    var first := b.firstname.value;
    var last := b.lastname.value;
    Driver(b.code.value, b.number.value, b.code.value, first, last,
           if TruthyText(b.fullname) then b.fullname.value else first + " " + last,
           b.nationality.value, b.team.value, if b.active.Some? then b.active.value else true)
  }

  /**
   * `POST`. A caller who is not an administrator, an incomplete body and a
   * clashing number or code are rejected in that order, leaving the table
   * unchanged; a code already used as another driver's id fails on the key.
   * Otherwise the new driver is appended, and codes, numbers and ids stay
   * unique.
   */
  method Post(db: Store, role: Option<string>, body: Body) returns (response: Response)
    requires db.Valid()
    modifies db
    ensures db.Valid()
    ensures db.races == old(db.races) && db.users == old(db.users) && db.predictions == old(db.predictions)
    ensures db.results == old(db.results)
    ensures !response.Created? ==> db.drivers == old(db.drivers)
    ensures response.Created? ==> db.drivers == old(db.drivers) + [response.driver]
    ensures UniqueNumbers(old(db.drivers)) ==> UniqueNumbers(db.drivers)
    ensures role != Some(AdminRole) ==> response == Forbidden(NotAdmin)
    ensures role == Some(AdminRole) && !Complete(body) ==> response == BadRequest(InvalidData)
    ensures role == Some(AdminRole) && Complete(body) ==>
      var clash := Clash(old(db.drivers), body.number.value, body.code.value);
      && (clash.Some? ==>
            response == BadRequest(DuplicateMessage(old(db.drivers)[clash.value], body.number.value, body.code.value)))
      && (clash.None? && body.code.value in DriverIds(old(db.drivers)) ==> response == ServerError(CreateFailed))
      && (clash.None? && body.code.value !in DriverIds(old(db.drivers)) ==> response == Created(NewDriver(body)))
  {
    if role != Some(AdminRole) {
      return Forbidden(NotAdmin);
    }
    if !Complete(body) {
      return BadRequest(InvalidData);
    }
    var number, code := body.number.value, body.code.value;
    var clash := Clash(db.drivers, number, code);
    if clash.Some? {
      return BadRequest(DuplicateMessage(db.drivers[clash.value], number, code));
    }
    if code in DriverIds(db.drivers) {
      return ServerError(CreateFailed);
    }
    var driver := NewDriver(body);
    ghost var before := db.drivers;
    ValidAfterAddDriver(db.drivers, driver, db.races, db.users, db.predictions, db.results);
    db.drivers := db.drivers + [driver];
    assert forall k :: 0 <= k < |before| ==> db.drivers[k] == before[k] && before[k].number != number;
    response := Created(driver);
  }
}
