/**
 * `src/services/openf1.ts`: requests to the OpenF1 API and the little
 * logic around them. The request URL is built from an endpoint and a list
 * of query parameters; `fetch` is the `respond` function passed in, from
 * each URL to the response it gets. `getRaceResults` keeps the latest
 * position sample of every driver and sorts those by position.
 */
module OpenF1 {
  import opened Wrappers
  import opened Seqs
  import opened Sorting
  import Js

  const BaseUrl: string := "https://api.openf1.org/v1"

  /** A parameter value: `string | number | boolean`. */
  datatype ParamValue = Text(text: string) | Number(number: int) | Flag(flag: bool)

  /** One `[key, value]` entry of the params object, in insertion order. */
  datatype Param = Param(key: string, value: ParamValue)

  /** A session key: `string | number`, `'latest'` by default. */
  datatype SessionKey = KeyText(text: string) | KeyNumber(number: int)

  const Latest: SessionKey := KeyText("latest")

  /** What `fetch` gives back: a response, or a thrown network error. */
  datatype Response<T> =
    | Response(ok: bool, status: int, statusText: string, body: T)
    | NetworkError(message: string)

  /** `String(value)`. */
  function ValueText(v: ParamValue): string {
    match v
    case Text(s) => s
    case Number(n) => Js.IntText(n)
    case Flag(b) => if b then "true" else "false"
  }

  /** One `key=value` pair of `searchParams.toString()`. */
  function Pair(p: Param): (r: string)
    ensures '=' in r
  {
    assert (p.key + "=" + ValueText(p.value))[|p.key|] == '=';
    p.key + "=" + ValueText(p.value)
  }

  /** `searchParams.toString()`: the pairs in order, joined by `&`. */
  function QueryString(params: seq<Param>): string {
    if params == [] then ""
    else if |params| == 1 then Pair(params[0])
    else QueryString(params[..|params| - 1]) + "&" + Pair(params[|params| - 1])
  }

  /** The query is empty exactly when there are no parameters. */
  lemma QueryStringEmpty(params: seq<Param>)
    ensures QueryString(params) == "" <==> params == []
  {
    if params != [] {
      var r := QueryString(params);
      var last := Pair(params[|params| - 1]);
      assert '=' in last;
      if |params| > 1 {
        assert r == QueryString(params[..|params| - 1]) + "&" + last;
        assert r[|r| - |last|..] == last;
      }
    }
  }

  /** `searchParams.append(key, value)` extends the query it already spells. */
  lemma QueryStringAppend(params: seq<Param>, p: Param)
    ensures params == [] ==> QueryString(params + [p]) == Pair(p)
    ensures params != [] ==> QueryString(params + [p]) == QueryString(params) + "&" + Pair(p)
  {
    assert (params + [p])[..|params|] == params;
  }

  /** The query after one more `append`, from the query before it. */
  lemma QueryStep(params: seq<Param>, i: nat)
    requires i < |params|
    ensures QueryString(params[..i]) == "" ==> QueryString(params[..i + 1]) == Pair(params[i])
    ensures QueryString(params[..i]) != "" ==>
      QueryString(params[..i + 1]) == QueryString(params[..i]) + "&" + Pair(params[i])
  {
    QueryStringAppend(params[..i], params[i]);
    QueryStringEmpty(params[..i]);
    assert params[..i + 1] == params[..i] + [params[i]];
  }

  /** The URL `fetchFromOpenF1` requests: `?` and the query only when the query is non-empty. */
  function Url(endpoint: string, query: string): string {
    BaseUrl + "/" + endpoint + (if query != "" then "?" + query else "")
  }

  /** The text before the first `?` of a URL. */
  function PathOf(url: string): (r: string)
    ensures '?' !in r
  {
    if url == [] || url[0] == '?' then [] else [url[0]] + PathOf(url[1..])
  }

  /** The text after the first `?` of a URL, empty when it has none. */
  function QueryOf(url: string): string {
    if url == [] then []
    else if url[0] == '?' then url[1..]
    else QueryOf(url[1..])
  }

  lemma {:induction false} SplitAtMark(path: string, rest: string)
    requires '?' !in path
    ensures PathOf(path + rest) == path + PathOf(rest)
    ensures QueryOf(path + rest) == QueryOf(rest)
  {
    if path != [] {
      assert (path + rest)[0] == path[0] != '?';
      assert (path + rest)[1..] == path[1..] + rest;
      SplitAtMark(path[1..], rest);
      assert PathOf(path + rest) == [path[0]] + PathOf(path[1..] + rest);
      assert QueryOf(path + rest) == QueryOf(path[1..] + rest);
      assert path == [path[0]] + path[1..];
    } else {
      assert path + rest == rest;
    }
  }

  /**
   * The URL splits back into its parts: the path is the base, `/` and the
   * endpoint, and the query is what follows `?`, when the endpoint itself
   * has no `?`.
   */
  lemma UrlParts(endpoint: string, query: string)
    requires '?' !in endpoint
    ensures PathOf(Url(endpoint, query)) == BaseUrl + "/" + endpoint
    ensures QueryOf(Url(endpoint, query)) == query
    ensures '?' in Url(endpoint, query) <==> query != ""
  {
    var path := BaseUrl + "/" + endpoint;
    var rest := if query != "" then "?" + query else "";
    assert Url(endpoint, query) == path + rest;
    assert '?' !in path;
    SplitAtMark(path, rest);
    if query != "" {
      assert rest[0] == '?';
    }
  }

  /** The request's outcome: the body, or the error `fetchFromOpenF1` throws. */
  function Outcome<T>(response: Response<T>): (r: Result<T, string>)
    ensures r.Success? <==> response.Response? && response.ok
    ensures r.Success? ==> r.value == response.body
    ensures response.NetworkError? ==> r == Failure(response.message)
    ensures response.Response? && !response.ok ==>
      r == Failure("OpenF1 API error: " + Js.IntText(response.status) + " " + response.statusText)
  {
    match response
    case NetworkError(m) => Failure(m)
    case Response(ok, status, statusText, body) =>
      if ok then Success(body) else Failure("OpenF1 API error: " + Js.IntText(status) + " " + statusText)
  }

  /** `fetchFromOpenF1`: append every parameter, build the URL, fetch it. */
  method FetchFromOpenF1<T>(endpoint: string, params: seq<Param>, respond: string -> Response<T>)
    returns (url: string, r: Result<T, string>)
    ensures url == Url(endpoint, QueryString(params))
    ensures r == Outcome(respond(url))
  {
    var query := "";
    for i := 0 to |params|
      invariant query == QueryString(params[..i])
    {
      QueryStep(params, i);
      if query == "" {
        query := Pair(params[i]);
      } else {
        query := query + "&" + Pair(params[i]);
      }
    }
    assert params[..|params|] == params;
    url := Url(endpoint, query);
    r := Outcome(respond(url));
  }

  function KeyValue(key: SessionKey): ParamValue {
    match key
    case KeyText(s) => Text(s)
    case KeyNumber(n) => Number(n)
  }

  /** `{ session_key: sessionKey }`, the params of `getDrivers`, `getSession` and `getRaceResults`. */
  function SessionParams(key: SessionKey): seq<Param> {
    [Param("session_key", KeyValue(key))]
  }

  /** `if (year)`: a number is truthy when it is not zero. */
  predicate Truthy(n: Option<int>) {
    n.Some? && n.value != 0
  }

  /** The params of `getSessions`: `year` only when it is truthy. */
  function SessionsParams(year: Option<int>): (r: seq<Param>)
    ensures r != [] <==> Truthy(year)
    ensures r != [] ==> r == [Param("year", Number(year.value))]
  {
    if Truthy(year) then [Param("year", Number(year.value))] else []
  }

  /**
   * The params of `getLaps`, `getStints`, `getPitStops` and `getTeamRadio`:
   * the session key, then `driver_number` only when it is truthy.
   */
  function SessionDriverParams(key: SessionKey, driverNumber: Option<int>): (r: seq<Param>)
    ensures |r| >= 1 && r[0] == Param("session_key", KeyValue(key))
    ensures |r| == 2 <==> Truthy(driverNumber)
    ensures |r| <= 2 && (|r| == 2 ==> r[1] == Param("driver_number", Number(driverNumber.value)))
  {
    SessionParams(key) + if Truthy(driverNumber) then [Param("driver_number", Number(driverNumber.value))] else []
  }

  /** `getSessions(year)` sends a query exactly when the year is truthy. */
  lemma SessionsUrlQuery(year: Option<int>)
    ensures '?' in Url("sessions", QueryString(SessionsParams(year))) <==> Truthy(year)
    ensures Truthy(year) ==> QueryOf(Url("sessions", QueryString(SessionsParams(year)))) == "year=" + Js.IntText(year.value)
  {
    QueryStringEmpty(SessionsParams(year));
    UrlParts("sessions", QueryString(SessionsParams(year)));
  }

  /** Without a truthy driver number the query is the session key alone. */
  lemma SessionOnlyQuery(endpoint: string, key: SessionKey, driverNumber: Option<int>)
    requires '?' !in endpoint && !Truthy(driverNumber)
    ensures QueryOf(Url(endpoint, QueryString(SessionDriverParams(key, driverNumber)))) ==
      "session_key=" + ValueText(KeyValue(key))
  {
    var params := SessionDriverParams(key, driverNumber);
    assert QueryString(params) == Pair(params[0]);
    UrlParts(endpoint, QueryString(params));
  }

  /** `getDrivers`, `getSession` and `getRaceResults` send the session key as the only parameter. */
  lemma SessionQuery(endpoint: string, key: SessionKey)
    requires '?' !in endpoint
    ensures QueryOf(Url(endpoint, QueryString(SessionParams(key)))) == "session_key=" + ValueText(KeyValue(key))
  {
    SessionOnlyQuery(endpoint, key, None);
  }

  /** With a truthy driver number the query carries both parameters, the session key first. */
  lemma SessionDriverQuery(endpoint: string, key: SessionKey, driverNumber: Option<int>)
    requires '?' !in endpoint && Truthy(driverNumber)
    ensures QueryOf(Url(endpoint, QueryString(SessionDriverParams(key, driverNumber)))) ==
      Pair(Param("session_key", KeyValue(key))) + "&" + Pair(Param("driver_number", Number(driverNumber.value)))
  {
    var params := SessionDriverParams(key, driverNumber);
    assert params[..1] == [params[0]];
    assert QueryString(params[..1]) == Pair(params[0]);
    var q := QueryString(params);
    assert q == Pair(params[0]) + "&" + Pair(params[1]);
    UrlParts(endpoint, q);
  }

  /** `OpenF1Session`. */
  datatype Session = Session(
    sessionKey: int, meetingKey: int, sessionName: string, sessionType: string,
    dateStart: string, dateEnd: string, circuitKey: int, circuitShortName: string,
    countryName: string, countryCode: string, year: int, location: string, gmtOffset: string)

  function SessionKeyText(key: SessionKey): string {
    ValueText(KeyValue(key))
  }

  /** `getSession` once the sessions are fetched: the first one, or an error for none. */
  function GetSession(fetched: Result<seq<Session>, string>, key: SessionKey): (r: Result<Session, string>)
    ensures r.Success? <==> fetched.Success? && fetched.value != []
    ensures r.Success? ==> r.value == fetched.value[0]
    ensures fetched.Failure? ==> r == Failure(fetched.error)
    ensures fetched.Success? && fetched.value == [] ==> r == Failure("No session found with key " + SessionKeyText(key))
  {
    match fetched
    case Failure(e) => Failure(e)
    case Success(sessions) =>
      if |sessions| == 0 then Failure("No session found with key " + SessionKeyText(key)) else Success(sessions[0])
  }

  /** `OpenF1Position`; `date` is the instant `new Date(pos.date)` denotes. */
  datatype Position = Position(driverNumber: int, position: int, date: int, meetingKey: int, sessionKey: int)

  function DriverNumber(p: Position): int { p.driverNumber }

  function PositionOf(p: Position): int { p.position }

  /** `driverMap.get(n)`: where the driver's entry sits in the map's insertion order. */
  function FindDriver(m: seq<Position>, n: int): (r: Option<nat>)
    ensures r.Some? ==> r.value < |m| && m[r.value].driverNumber == n
    ensures r.None? <==> forall k :: 0 <= k < |m| ==> m[k].driverNumber != n
  {
    FindFirst(m, (p: Position) => p.driverNumber == n)
  }

  /** The body of the `forEach`: set the entry when it is missing or strictly older. */
  function Keep(m: seq<Position>, pos: Position): seq<Position> {
    match FindDriver(m, pos.driverNumber)
    case None => m + [pos]
    case Some(k) => if pos.date > m[k].date then m[k := pos] else m
  }

  /** The map's values, in insertion order, after the `forEach` over `s`. */
  function LatestByDriver(s: seq<Position>): seq<Position> {
    if s == [] then [] else Keep(LatestByDriver(s[..|s| - 1]), s[|s| - 1])
  }

  /** What `getRaceResults` returns for the fetched positions. */
  function RaceResults(positions: seq<Position>): seq<Position> {
    SortBy(LatestByDriver(positions), PositionOf)
  }

  /** `getRaceResults` once the positions are fetched. */
  method GetRaceResults(positions: seq<Position>) returns (results: seq<Position>)
    ensures results == RaceResults(positions)
  {
    var driverMap: seq<Position> := [];
    for i := 0 to |positions|
      invariant driverMap == LatestByDriver(positions[..i])
    {
      var pos := positions[i];
      var existing := FindDriver(driverMap, pos.driverNumber);
      if existing.None? {
        driverMap := driverMap + [pos];
      } else if pos.date > driverMap[existing.value].date {
        driverMap := driverMap[existing.value := pos];
      }
      assert positions[..i + 1][..i] == positions[..i];
    }
    assert positions[..|positions|] == positions;
    results := SortBy(driverMap, PositionOf);
  }

  /** Some sample in `s` is of driver `n`. */
  ghost predicate HasDriver(s: seq<Position>, n: int) {
    exists j :: 0 <= j < |s| && s[j].driverNumber == n
  }

  /**
   * Sample `m` is the one kept for its driver: no sample of that driver is
   * later, and every earlier one is strictly earlier.
   */
  ghost predicate KeptAt(s: seq<Position>, m: nat) {
    m < |s| &&
    forall j :: 0 <= j < |s| && s[j].driverNumber == s[m].driverNumber ==>
      s[j].date <= s[m].date && (j < m ==> s[j].date < s[m].date)
  }

  /** `e` is the latest sample of its driver, the first one seen on a tie. */
  ghost predicate IsLatest(s: seq<Position>, e: Position) {
    exists m: nat :: KeptAt(s, m) && s[m] == e
  }

  /** What the map holds after the samples `s`. */
  ghost predicate Summarises(s: seq<Position>, m: seq<Position>) {
    && KeysDistinct(m, DriverNumber)
    && (forall n :: HasDriver(m, n) <==> HasDriver(s, n))
    && (forall k :: 0 <= k < |m| ==> IsLatest(s, m[k]))
  }

  /** A kept sample stays kept under a later sample of another driver, or an older-or-equal one. */
  lemma KeptAtExtend(s: seq<Position>, m: nat, pos: Position)
    requires KeptAt(s, m)
    requires pos.driverNumber == s[m].driverNumber ==> pos.date <= s[m].date
    ensures KeptAt(s + [pos], m)
  {
    var t := s + [pos];
    forall j | 0 <= j < |t| && t[j].driverNumber == t[m].driverNumber
      ensures t[j].date <= t[m].date && (j < m ==> t[j].date < t[m].date)
    {
      if j < |s| {
        assert t[j] == s[j];
      }
    }
  }

  /** The entries of other drivers are untouched by a sample of `pos.driverNumber`. */
  lemma OthersStayLatest(s: seq<Position>, m: seq<Position>, pos: Position, k: nat)
    requires Summarises(s, m) && k < |m| && m[k].driverNumber != pos.driverNumber
    ensures IsLatest(s + [pos], m[k])
  {
    assert IsLatest(s, m[k]);
    var w: nat :| KeptAt(s, w) && s[w] == m[k];
    KeptAtExtend(s, w, pos);
    assert (s + [pos])[w] == s[w];
  }

  /** A driver seen for the first time is appended with the new sample. */
  lemma KeepNew(s: seq<Position>, m: seq<Position>, pos: Position)
    requires Summarises(s, m) && FindDriver(m, pos.driverNumber).None?
    ensures Summarises(s + [pos], m + [pos])
  {
    var t, m' := s + [pos], m + [pos];
    assert !HasDriver(s, pos.driverNumber);
    forall n ensures HasDriver(m', n) <==> HasDriver(t, n) {
      if HasDriver(m, n) {
        var j :| 0 <= j < |m| && m[j].driverNumber == n;
        assert m'[j] == m[j];
      }
      if HasDriver(s, n) {
        var j :| 0 <= j < |s| && s[j].driverNumber == n;
        assert t[j] == s[j];
      }
      if HasDriver(m', n) && !HasDriver(m, n) {
        assert m'[|m|].driverNumber == n;
        assert t[|s|].driverNumber == n;
      }
      if HasDriver(t, n) && !HasDriver(s, n) {
        assert m'[|m|].driverNumber == n;
      }
    }
    forall k | 0 <= k < |m'| ensures IsLatest(t, m'[k]) {
      if k < |m| {
        OthersStayLatest(s, m, pos, k);
      } else {
        assert KeptAt(t, |s|);
      }
    }
  }

  /** A strictly later sample replaces its driver's entry in place. */
  lemma KeepLater(s: seq<Position>, m: seq<Position>, pos: Position, i: nat)
    requires Summarises(s, m) && FindDriver(m, pos.driverNumber) == Some(i) && pos.date > m[i].date
    ensures Summarises(s + [pos], m[i := pos])
  {
    var t, m' := s + [pos], m[i := pos];
    forall a, b | 0 <= a < b < |m'| ensures m'[a].driverNumber != m'[b].driverNumber {
      assert m[a].driverNumber != m[b].driverNumber;
    }
    forall n ensures HasDriver(m', n) <==> HasDriver(t, n) {
      if HasDriver(m, n) {
        var j :| 0 <= j < |m| && m[j].driverNumber == n;
        assert m'[j].driverNumber == n;
      }
      if HasDriver(m', n) {
        var j :| 0 <= j < |m'| && m'[j].driverNumber == n;
        assert m[j].driverNumber == n;
      }
      if HasDriver(s, n) {
        var j :| 0 <= j < |s| && s[j].driverNumber == n;
        assert t[j] == s[j];
      }
      if HasDriver(t, n) {
        var j :| 0 <= j < |t| && t[j].driverNumber == n;
        if j < |s| {
          assert t[j] == s[j];
        } else {
          assert HasDriver(m, pos.driverNumber) by { assert m[i].driverNumber == pos.driverNumber; }
        }
      }
    }
    forall k | 0 <= k < |m'| ensures IsLatest(t, m'[k]) {
      if k != i {
        assert m[k].driverNumber != m[i].driverNumber;
        OthersStayLatest(s, m, pos, k);
      } else {
        assert IsLatest(s, m[i]);
        var w: nat :| KeptAt(s, w) && s[w] == m[i];
        assert KeptAt(t, |s|) by {
          forall j | 0 <= j < |t| && t[j].driverNumber == pos.driverNumber ensures t[j].date <= pos.date {
            if j < |s| {
              assert t[j] == s[j];
            }
          }
        }
      }
    }
  }

  /** An older-or-equal sample leaves the map as it is. */
  lemma KeepOlder(s: seq<Position>, m: seq<Position>, pos: Position, i: nat)
    requires Summarises(s, m) && FindDriver(m, pos.driverNumber) == Some(i) && pos.date <= m[i].date
    ensures Summarises(s + [pos], m)
  {
    var t := s + [pos];
    forall n ensures HasDriver(m, n) <==> HasDriver(t, n) {
      if HasDriver(s, n) {
        var j :| 0 <= j < |s| && s[j].driverNumber == n;
        assert t[j] == s[j];
      }
      if HasDriver(t, n) {
        var j :| 0 <= j < |t| && t[j].driverNumber == n;
        if j < |s| {
          assert t[j] == s[j];
        } else {
          assert HasDriver(m, pos.driverNumber) by { assert m[i].driverNumber == pos.driverNumber; }
        }
      }
    }
    forall k | 0 <= k < |m| ensures IsLatest(t, m[k]) {
      if k != i {
        OthersStayLatest(s, m, pos, k);
      } else {
        assert IsLatest(s, m[i]);
        var w: nat :| KeptAt(s, w) && s[w] == m[i];
        KeptAtExtend(s, w, pos);
        assert t[w] == s[w];
      }
    }
  }

  /** Each step of the `forEach` keeps the map a summary of the samples seen. */
  lemma KeepStep(s: seq<Position>, m: seq<Position>, pos: Position)
    requires Summarises(s, m)
    ensures Summarises(s + [pos], Keep(m, pos))
  {
    match FindDriver(m, pos.driverNumber)
    case None => KeepNew(s, m, pos);
    case Some(i) =>
      if pos.date > m[i].date {
        KeepLater(s, m, pos, i);
      } else {
        KeepOlder(s, m, pos, i);
      }
  }

  lemma {:induction false} LatestSummarises(s: seq<Position>)
    ensures Summarises(s, LatestByDriver(s))
  {
    if s != [] {
      var init := s[..|s| - 1];
      LatestSummarises(init);
      KeepStep(init, LatestByDriver(init), s[|s| - 1]);
      assert init + [s[|s| - 1]] == s;
    }
  }

  /**
   * `getRaceResults` returns one entry for every driver with a sample and
   * for no other, each entry the latest sample of its driver (the first
   * one seen among equally late ones), ascending by position.
   */
  lemma RaceResultsCorrect(positions: seq<Position>)
    ensures KeysDistinct(RaceResults(positions), DriverNumber)
    ensures forall n :: HasDriver(RaceResults(positions), n) <==> HasDriver(positions, n)
    ensures forall k :: 0 <= k < |RaceResults(positions)| ==> IsLatest(positions, RaceResults(positions)[k])
    ensures SortedBy(RaceResults(positions), PositionOf)
  {
    var m := LatestByDriver(positions);
    var r := RaceResults(positions);
    LatestSummarises(positions);
    SortByPermutes(m, PositionOf);
    SortByIsSorted(m, PositionOf);
    PermutedKeysDistinct(m, r, DriverNumber);
    forall k | 0 <= k < |r| ensures IsLatest(positions, r[k]) && HasDriver(m, r[k].driverNumber) {
      assert r[k] in multiset(m);
      var j :| 0 <= j < |m| && m[j] == r[k];
    }
    forall n ensures HasDriver(r, n) <==> HasDriver(m, n) {
      if HasDriver(m, n) {
        var j :| 0 <= j < |m| && m[j].driverNumber == n;
        assert m[j] in multiset(r);
        var k :| 0 <= k < |r| && r[k] == m[j];
      }
    }
  }

  /** `mapOpenF1DriverToInternalDriver`'s input. */
  datatype OpenF1Driver = OpenF1Driver(
    driverNumber: int, nameAcronym: string, fullName: string, firstName: string, lastName: string,
    broadcastName: string, teamName: string, teamColour: string, countryCode: string,
    headshotUrl: string, sessionKey: int, meetingKey: int)

  /** The internal driver it maps to. */
  datatype InternalDriver = InternalDriver(
    number: int, code: string, firstname: string, lastname: string, fullname: string,
    nationality: string, team: string, active: bool, imageUrl: string, teamColor: string)

  /** `mapOpenF1DriverToInternalDriver`. */
  function MapDriver(d: OpenF1Driver): (r: InternalDriver)
    ensures r.active
  {
    InternalDriver(d.driverNumber, d.nameAcronym, d.firstName, d.lastName, d.fullName,
                   d.countryCode, d.teamName, true, d.headshotUrl, d.teamColour)
  }

  /**
   * The mapping is a renaming: two drivers map alike exactly when they agree
   * on the nine fields it reads, so the broadcast name and the session and
   * meeting keys are dropped and nothing else is.
   */
  lemma MapDriverRenames(d: OpenF1Driver, e: OpenF1Driver)
    ensures MapDriver(d) == MapDriver(e) <==>
      d.(broadcastName := "", sessionKey := 0, meetingKey := 0) == e.(broadcastName := "", sessionKey := 0, meetingKey := 0)
  {
  }
}
