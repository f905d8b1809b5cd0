/**
 * `GET /api/races/user-points`: every race (of one season when one is
 * asked for), in the race listing's order, with the points the signed-in
 * user's prediction for it earned, 0 when they made none.
 */
module UserPointsRoute {
  import opened Wrappers
  import opened Js
  import opened Seqs
  import opened Db
  import RacesRoute

  /** One entry of the response: the race's fields and `userPoints`. */
  datatype RacePoints = RacePoints(
    id: string,
    name: string,
    round: int,
    circuit: string,
    date: string,
    season: int,
    status: string,
    resultsImported: bool,
    userPoints: int)

  datatype Response = Unauthorized | ServerError(message: string) | Ok(races: seq<RacePoints>)

  const ListFailed: string := "An error occurred while fetching races with user points."

  /** `race.predictions[0]?.points || 0`: the points of the user's first prediction for the race, or 0. */
  function PointsFor(preds: seq<Prediction>, userId: string, raceId: string): int {
    match FindPrediction(preds, userId, raceId)
    case None => 0
    case Some(k) => preds[k].points
  }

  function WithPoints(r: Race, preds: seq<Prediction>, userId: string): RacePoints {
    RacePoints(r.id, r.name, r.round, r.circuit, r.date, r.season, r.status, r.resultsImported,
               PointsFor(preds, userId, r.id))
  }

  /** `races.map(race => ({ ...fields, userPoints }))`. */
  function Project(races: seq<Race>, preds: seq<Prediction>, userId: string): (r: seq<RacePoints>)
    ensures |r| == |races|
    ensures forall i :: 0 <= i < |r| ==> r[i] == WithPoints(races[i], preds, userId)
  {
    seq(|races|, i requires 0 <= i < |races| => WithPoints(races[i], preds, userId))
  }

  /**
   * Entry i is race i with its fields unchanged; its `userPoints` is the
   * points of the user's prediction for that race when there is one (there
   * is at most one per pair), and 0 when there is none.
   */
  lemma ProjectCorrect(races: seq<Race>, preds: seq<Prediction>, userId: string)
    requires OnePerUserAndRace(preds)
    ensures forall i :: 0 <= i < |races| ==>
      var e := Project(races, preds, userId)[i];
      var r := races[i];
      && e.id == r.id && e.name == r.name && e.round == r.round && e.circuit == r.circuit && e.date == r.date
      && e.season == r.season && e.status == r.status && e.resultsImported == r.resultsImported
      && (!HasPrediction(preds, userId, r.id) ==> e.userPoints == 0)
      && (forall k :: 0 <= k < |preds| && preds[k].userId == userId && preds[k].raceId == r.id ==>
            e.userPoints == preds[k].points)
  {
    forall i, k | 0 <= i < |races| && 0 <= k < |preds| && preds[k].userId == userId && preds[k].raceId == races[i].id
      ensures Project(races, preds, userId)[i].userPoints == preds[k].points
    {
      var f := FindPrediction(preds, userId, races[i].id).value;
      assert preds[f].userId == preds[k].userId && preds[f].raceId == preds[k].raceId;
    }
  }

  /**
   * `GET`: 401 without a user id in the session, 500 for a `NaN` season,
   * otherwise the race listing's query, each race with the user's points.
   */
  function Get(userId: Option<string>, season: Option<string>, races: seq<Race>, preds: seq<Prediction>): (r: Response)
    ensures !RacesRoute.Given(userId) ==> r == Unauthorized
    ensures RacesRoute.Given(userId) && RacesRoute.Given(season) && ParseInt(season.value).None? ==>
      r == ServerError(ListFailed)
    ensures RacesRoute.Given(userId) && RacesRoute.WhereOf(season, None).Some? ==> r.Ok?
    ensures r.Ok? ==>
      var w := RacesRoute.WhereOf(season, None).value;
      r.races == Project(RacesRoute.Query(races, w), preds, userId.value) && w.status.None?
  {
    if !RacesRoute.Given(userId) then Unauthorized
    else
      match RacesRoute.WhereOf(season, None)
      case None => ServerError(ListFailed)
      case Some(w) => Ok(Project(RacesRoute.Query(races, w), preds, userId.value))
  }
}
