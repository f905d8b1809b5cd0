/**
 * `GET /api/standings`: every user with the predictions they made for
 * completed races (of one season when one is asked for), their point total,
 * the number of those races, their five best races, ranked by total.
 */
module Standings {
  import opened Wrappers
  import opened Js
  import opened Seqs
  import opened Sorting
  import opened Db
  import RacesRoute

  /** How many of a user's best races a standing lists. */
  const TopCount: int := 5

  /** The race fields the query selects. */
  datatype RaceRef = RaceRef(id: string, name: string, round: int, season: int)

  /** One selected prediction: its points and its race. */
  datatype PredictionRow = PredictionRow(points: int, race: RaceRef)

  /** One selected user with the predictions the nested `where` lets through. */
  datatype UserRow = UserRow(id: string, name: Nullable, predictions: seq<PredictionRow>)

  datatype TopRace = TopRace(raceId: string, raceName: string, round: int, season: int, points: int)

  datatype Standing = Standing(userId: string, name: Nullable, totalPoints: int, racesParticipated: nat,
                               topRaces: seq<TopRace>)

  /** A standing with the `position` the final `map` adds. */
  datatype Ranked = Ranked(standing: Standing, position: int)

  datatype Response = Unauthorized | Ok(standings: seq<Ranked>) | ServerError(message: string)

  const ListFailed: string := "Error getting standings"

  /** The nested filter: the race is completed, and of the season when one is given. */
  predicate Counted(r: Race, season: Option<int>) {
    r.status == Completed && (season.None? || r.season == season.value)
  }

  function RefOf(r: Race): RaceRef {
    RaceRef(r.id, r.name, r.round, r.season)
  }

  /** The nested `where` lets the prediction through for the user: its race exists and is counted. */
  predicate Selected(p: Prediction, races: seq<Race>, userId: string, season: Option<int>) {
    p.userId == userId &&
    match FindRace(races, p.raceId)
    case None => false
    case Some(k) => Counted(races[k], season)
  }

  /** The selected fields of a prediction whose race exists. */
  function RowOf(p: Prediction, races: seq<Race>): PredictionRow
    requires FindRace(races, p.raceId).Some?
  {
    PredictionRow(p.points, RefOf(races[FindRace(races, p.raceId).value]))
  }

  /** The storage positions of the predictions the nested `where` lets through, ascending. */
  ghost function SelectedIndices(preds: seq<Prediction>, races: seq<Race>, userId: string, season: Option<int>)
    : (r: seq<nat>)
    ensures forall i :: 0 <= i < |r| ==> r[i] < |preds| && Selected(preds[r[i]], races, userId, season)
    ensures forall i, j :: 0 <= i < j < |r| ==> r[i] < r[j]
    ensures forall j :: 0 <= j < |preds| && Selected(preds[j], races, userId, season) ==> j in r
  {
    if preds == [] then []
    else
      var init := preds[..|preds| - 1];
      var rest := SelectedIndices(init, races, userId, season);
      assert forall j :: 0 <= j < |init| ==> init[j] == preds[j];
      if Selected(preds[|preds| - 1], races, userId, season) then rest + [|preds| - 1] else rest
  }

  /** The points of the predictions at the given positions, in that order. */
  ghost function PointsAt(preds: seq<Prediction>, idx: seq<nat>): (r: seq<int>)
    requires forall i :: 0 <= i < |idx| ==> idx[i] < |preds|
    ensures |r| == |idx| && forall i :: 0 <= i < |idx| ==> r[i] == preds[idx[i]].points
  {
    seq(|idx|, i requires 0 <= i < |idx| => preds[idx[i]].points)
  }

  /** A user's predictions as the query selects them, in storage order. */
  function UserPredictions(preds: seq<Prediction>, races: seq<Race>, userId: string, season: Option<int>)
    : (r: seq<PredictionRow>)
    ensures |r| <= |preds|
  {
    if preds == [] then []
    else
      var rest := UserPredictions(preds[..|preds| - 1], races, userId, season);
      var p := preds[|preds| - 1];
      match FindRace(races, p.raceId)
      case None => rest
      case Some(k) =>
        if p.userId == userId && Counted(races[k], season) then rest + [PredictionRow(p.points, RefOf(races[k]))]
        else rest
  }

  /** Row `i` of `r` is the selected fields of the prediction stored at `idx[i]`, for every row. */
  ghost predicate RowsAt(r: seq<PredictionRow>, preds: seq<Prediction>, idx: seq<nat>, races: seq<Race>) {
    |r| == |idx| &&
    forall i :: 0 <= i < |r| ==>
      idx[i] < |preds| && FindRace(races, preds[idx[i]].raceId).Some? && r[i] == RowOf(preds[idx[i]], races)
  }

  lemma RowsAtGrow(r: seq<PredictionRow>, init: seq<Prediction>, p: Prediction, idx: seq<nat>, races: seq<Race>)
    requires RowsAt(r, init, idx, races)
    ensures RowsAt(r, init + [p], idx, races)
  {
    assert forall j :: 0 <= j < |init| ==> (init + [p])[j] == init[j];
  }

  lemma RowsAtPush(r: seq<PredictionRow>, preds: seq<Prediction>, idx: seq<nat>, races: seq<Race>, j: nat)
    requires RowsAt(r, preds, idx, races) && j < |preds| && FindRace(races, preds[j].raceId).Some?
    ensures RowsAt(r + [RowOf(preds[j], races)], preds, idx + [j], races)
  {
  }

  /**
   * The rows selected for a user are, in storage order, exactly the rows of
   * the user's predictions whose race exists, is completed and, when a
   * season is given, is of that season.
   */
  lemma {:induction false} UserPredictionsSelected(preds: seq<Prediction>, races: seq<Race>, userId: string,
                                                   season: Option<int>)
    ensures RowsAt(UserPredictions(preds, races, userId, season), preds, SelectedIndices(preds, races, userId, season), races)
  {
    if preds != [] {
      var init, p := preds[..|preds| - 1], preds[|preds| - 1];
      assert preds == init + [p];
      UserPredictionsSelected(init, races, userId, season);
      var rest, idx0 := UserPredictions(init, races, userId, season), SelectedIndices(init, races, userId, season);
      RowsAtGrow(rest, init, p, idx0, races);
      if Selected(p, races, userId, season) {
        RowsAtPush(rest, preds, idx0, races, |preds| - 1);
      }
    }
  }

  /** `prisma.user.findMany` with the nested prediction filter. */
  function Query(users: seq<User>, preds: seq<Prediction>, races: seq<Race>, season: Option<int>)
    : (r: seq<UserRow>)
    ensures |r| == |users|
    ensures forall i :: 0 <= i < |r| ==> r[i].id == users[i].id && r[i].name == users[i].name
  {
    seq(|users|, i requires 0 <= i < |users| =>
      UserRow(users[i].id, users[i].name, UserPredictions(preds, races, users[i].id, season)))
  }

  /** `reduce((sum, pred) => sum + pred.points, 0)`. */
  function Total(rows: seq<PredictionRow>): int {
    if rows == [] then 0 else Total(rows[..|rows| - 1]) + rows[|rows| - 1].points
  }

  /** The points of each row, in order. */
  function PointsOf(rows: seq<PredictionRow>): (r: seq<int>)
    ensures |r| == |rows| && forall k :: 0 <= k < |rows| ==> r[k] == rows[k].points
  {
    seq(|rows|, k requires 0 <= k < |rows| => rows[k].points)
  }

  /** The `reduce` is the sum of the rows' points. */
  lemma {:induction false} TotalIsSum(rows: seq<PredictionRow>)
    ensures Total(rows) == Sum(PointsOf(rows))
  {
    if rows != [] {
      var init := rows[..|rows| - 1];
      TotalIsSum(init);
      assert PointsOf(rows)[..|rows| - 1] == PointsOf(init);
    }
  }

  /** Rows that are the selected fields of the predictions at `idx` carry their points. */
  lemma RowsAtPoints(r: seq<PredictionRow>, preds: seq<Prediction>, idx: seq<nat>, races: seq<Race>)
    requires RowsAt(r, preds, idx, races)
    ensures PointsOf(r) == PointsAt(preds, idx)
  {
  }

  /**
   * For any season filter, a user's standing totals the points of exactly
   * the predictions the nested `where` lets through, and counts them.
   */
  lemma StandingCountsSelected(users: seq<User>, preds: seq<Prediction>, races: seq<Race>, season: Option<int>, u: nat)
    requires u < |users|
    ensures var st := StandingOf(Query(users, preds, races, season)[u]);
      var idx := SelectedIndices(preds, races, users[u].id, season);
      && st.userId == users[u].id && st.name == users[u].name
      && st.totalPoints == Sum(PointsAt(preds, idx))
      && st.racesParticipated == |idx|
  {
    var rows := UserPredictions(preds, races, users[u].id, season);
    var idx := SelectedIndices(preds, races, users[u].id, season);
    UserPredictionsSelected(preds, races, users[u].id, season);
    TotalIsSum(rows);
    RowsAtPoints(rows, preds, idx, races);
    assert Query(users, preds, races, season)[u] == UserRow(users[u].id, users[u].name, rows);
  }

  /**
   * When every prediction of the user is for an existing completed race and
   * no season is asked for, the standing's total is the user's total over
   * all their predictions, the value the stored `totalPoints` is kept at.
   */
  lemma {:induction false} TotalIsUserTotal(preds: seq<Prediction>, races: seq<Race>, userId: string)
    requires forall j :: 0 <= j < |preds| && preds[j].userId == userId ==>
      (FindRace(races, preds[j].raceId).Some? && races[FindRace(races, preds[j].raceId).value].status == Completed)
    ensures Total(UserPredictions(preds, races, userId, None)) == UserTotal(preds, userId)
  {
    if preds != [] {
      var init := preds[..|preds| - 1];
      TotalIsUserTotal(init, races, userId);
      var rest := UserPredictions(init, races, userId, None);
      var p := preds[|preds| - 1];
      if p.userId == userId {
        var k := FindRace(races, p.raceId).value;
        var row := PredictionRow(p.points, RefOf(races[k]));
        assert UserPredictions(preds, races, userId, None) == rest + [row];
        assert (rest + [row])[..|rest|] == rest;
      }
    }
  }

  /** The descending comparator `b.points - a.points` as an ascending key. */
  function ByPointsDesc(p: PredictionRow): int { -p.points }

  /** `b.totalPoints - a.totalPoints` likewise. */
  function ByTotalDesc(s: Standing): int { -s.totalPoints }

  /** The predictions `topRaces` is made from: the first five after the descending sort. */
  function Best(rows: seq<PredictionRow>): (r: seq<PredictionRow>)
    ensures |r| == if |rows| < TopCount then |rows| else TopCount
  {
    Slice(SortBy(rows, ByPointsDesc), 0, TopCount)
  }

  /** The predictions that sort leaves out of `topRaces`. */
  function Dropped(rows: seq<PredictionRow>): seq<PredictionRow> {
    var sorted := SortBy(rows, ByPointsDesc);
    sorted[|Best(rows)|..]
  }

  function TopRaceOf(p: PredictionRow): TopRace {
    TopRace(p.race.id, p.race.name, p.race.round, p.race.season, p.points)
  }

  /** The `topRaces` projection. */
  function TopRaces(rows: seq<PredictionRow>): (r: seq<TopRace>)
    ensures |r| == |Best(rows)|
    ensures forall k :: 0 <= k < |r| ==> r[k] == TopRaceOf(Best(rows)[k])
  {
    var best := Best(rows);
    seq(|best|, k requires 0 <= k < |best| => TopRaceOf(best[k]))
  }

  /**
   * `topRaces` holds at most five of the user's own predictions, best first,
   * and every prediction left out scores no more than any listed one.
   */
  lemma TopRacesAreBest(rows: seq<PredictionRow>)
    ensures |TopRaces(rows)| <= TopCount && (|rows| >= TopCount ==> |TopRaces(rows)| == TopCount)
    ensures forall i, j :: 0 <= i < j < |TopRaces(rows)| ==> TopRaces(rows)[i].points >= TopRaces(rows)[j].points
    ensures multiset(Best(rows)) + multiset(Dropped(rows)) == multiset(rows)
    ensures forall x, y :: x in Best(rows) && y in Dropped(rows) ==> y.points <= x.points
  {
    var sorted := SortBy(rows, ByPointsDesc);
    var n := |Best(rows)|;
    SortByIsSorted(rows, ByPointsDesc);
    SortByPermutes(rows, ByPointsDesc);
    assert Best(rows) == sorted[..n];
    assert sorted == sorted[..n] + sorted[n..];
    forall x, y | x in Best(rows) && y in Dropped(rows) ensures y.points <= x.points {
      var i :| 0 <= i < n && sorted[i] == x;
      var j :| n <= j < |sorted| && sorted[j] == y;
      assert ByPointsDesc(sorted[i]) <= ByPointsDesc(sorted[j]);
    }
    forall i, j | 0 <= i < j < |TopRaces(rows)| ensures TopRaces(rows)[i].points >= TopRaces(rows)[j].points {
      assert ByPointsDesc(sorted[i]) <= ByPointsDesc(sorted[j]);
    }
  }

  /** One user's standing, before ranking. */
  function StandingOf(u: UserRow): Standing {
    Standing(u.id, u.name, Total(u.predictions), |u.predictions|, TopRaces(u.predictions))
  }

  /** `users.map(...)`. */
  function StandingsOf(rows: seq<UserRow>): (r: seq<Standing>)
    ensures |r| == |rows|
    ensures forall i :: 0 <= i < |r| ==> r[i] == StandingOf(rows[i])
  {
    seq(|rows|, i requires 0 <= i < |rows| => StandingOf(rows[i]))
  }

  /** `.map((user, index) => ({ ...user, position: index + 1 }))`. */
  function Rank(s: seq<Standing>): (r: seq<Ranked>)
    ensures |r| == |s|
    ensures forall i :: 0 <= i < |r| ==> r[i] == Ranked(s[i], i + 1)
  {
    seq(|s|, i requires 0 <= i < |s| => Ranked(s[i], i + 1))
  }

  /** The ranking the route returns for the selected users. */
  function Ranking(rows: seq<UserRow>): seq<Ranked> {
    Rank(SortBy(StandingsOf(rows), ByTotalDesc))
  }

  function StandingsIn(r: seq<Ranked>): (s: seq<Standing>)
    ensures |s| == |r| && forall i :: 0 <= i < |s| ==> s[i] == r[i].standing
  {
    seq(|r|, i requires 0 <= i < |r| => r[i].standing)
  }

  /** The ranking is highest total first, and the positions are 1, 2, ... in that order. */
  lemma RankingOrdered(rows: seq<UserRow>)
    ensures |Ranking(rows)| == |rows|
    ensures forall i :: 0 <= i < |Ranking(rows)| ==> Ranking(rows)[i].position == i + 1
    ensures forall i, j :: 0 <= i < j < |Ranking(rows)| ==>
      Ranking(rows)[i].standing.totalPoints >= Ranking(rows)[j].standing.totalPoints
  {
    var sorted := SortBy(StandingsOf(rows), ByTotalDesc);
    SortByIsSorted(StandingsOf(rows), ByTotalDesc);
    forall i, j | 0 <= i < j < |sorted| ensures sorted[i].totalPoints >= sorted[j].totalPoints {
      assert ByTotalDesc(sorted[i]) <= ByTotalDesc(sorted[j]);
    }
  }

  /**
   * The ranking holds exactly one standing per selected user: its
   * standings are those of the users, rearranged.
   */
  lemma RankingOnePerUser(rows: seq<UserRow>)
    ensures multiset(StandingsIn(Ranking(rows))) == multiset(StandingsOf(rows))
    ensures forall i :: 0 <= i < |Ranking(rows)| ==>
      exists u :: 0 <= u < |rows| && Ranking(rows)[i].standing == StandingOf(rows[u])
  {
    var standings := StandingsOf(rows);
    var sorted := SortBy(standings, ByTotalDesc);
    SortByPermutes(standings, ByTotalDesc);
    assert StandingsIn(Ranking(rows)) == sorted;
    forall i | 0 <= i < |sorted| ensures exists u :: 0 <= u < |rows| && sorted[i] == StandingOf(rows[u]) {
      assert sorted[i] in multiset(standings);
      var u :| 0 <= u < |standings| && standings[u] == sorted[i];
    }
  }

  /**
   * `GET`: 401 without a signed-in user; a `season` parameter that is
   * present and non-empty filters on `parseInt` of it, and one that parses
   * to `NaN` is rejected by the query with a 500; otherwise the ranking.
   */
  method Get(signedIn: bool, season: Option<string>, users: seq<User>, preds: seq<Prediction>, races: seq<Race>)
    returns (response: Response)
    ensures !signedIn ==> response == Unauthorized
    ensures signedIn && RacesRoute.Given(season) && ParseInt(season.value).None? ==> response == ServerError(ListFailed)
    ensures signedIn && !RacesRoute.Given(season) ==> response == Ok(Ranking(Query(users, preds, races, None)))
    ensures signedIn && RacesRoute.Given(season) && ParseInt(season.value).Some? ==>
      response == Ok(Ranking(Query(users, preds, races, ParseInt(season.value))))
  {
    if !signedIn {
      return Unauthorized;
    }
    var filter: Option<int> := None;
    if RacesRoute.Given(season) {
      var parsed := ParseInt(season.value);
      if parsed.None? {
        return ServerError(ListFailed);
      }
      filter := parsed;
    }
    var rows := Query(users, preds, races, filter);
    var standings := StandingsOf(rows);
    var a := new Standing[|standings|](i requires 0 <= i < |standings| => standings[i]);
    assert a[..] == standings;
    SortInPlace(a, ByTotalDesc);
    response := Ok(Rank(a[..]));
  }
}
