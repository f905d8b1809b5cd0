/**
 * `simulate-race-result.js`: the round-1 race of 2025 gets a shuffled
 * finishing order of the active drivers as the `positions` of its result (replacing
 * the race's existing result, or creating one), is marked completed with
 * its results imported, and every prediction of the race stores its credit
 * under the development table. User totals are not touched.
 */
module SimulateRace {
  import opened Wrappers
  import opened Seqs
  import opened Db
  import opened DevScoring
  import opened DevSeeding

  const SimulatedRound: int := 1
  const SimulatedSeason: int := 2025

  /** What the script ends with. */
  datatype Simulation =
    | NoRace
    | NoDrivers
    | Simulated(raceId: string, positions: seq<string>)

  /** `race.findFirst({ where: { round, season } })`. */
  function FindRound(s: seq<Race>, round: int, season: int): (r: Option<nat>)
    ensures r.Some? ==> r.value < |s| && s[r.value].round == round && s[r.value].season == season
    ensures r.None? <==> !HasRound(s, round, season)
  {
    FindFirst(s, (x: Race) => x.round == round && x.season == season)
  }

  /** `raceResult.findFirst({ where: { raceId } })`. */
  function FindResult(s: seq<RaceResult>, raceId: string): (r: Option<nat>)
    ensures r.Some? ==> r.value < |s| && s[r.value].raceId == raceId
    ensures r.None? <==> !HasResult(s, raceId)
  {
    FindFirst(s, (x: RaceResult) => x.raceId == raceId)
  }

  /**
   * The result table after the upsert: the race's first result holds the
   * new order, or, when it had none, one new row for the race holds it.
   */
  ghost predicate Upserted(s: seq<RaceResult>, t: seq<RaceResult>, raceId: string, positions: seq<string>) {
    match FindResult(s, raceId)
    case Some(k) => t == s[k := s[k].(positions := Some(positions))]
    case None => AppendedOne(s, t) && t[|s|] == PositionsResult(t[|s|].id, raceId, positions) &&
                 t[|s|].id !in ResultRowIds(s)
  }

  /** The result upsert, on the store. */
  method UpsertPositionResult(db: Store, raceId: string, positions: seq<string>)
    requires db.Valid() && raceId in RaceIds(db.races)
    modifies db
    ensures db.Valid()
    ensures Upserted(old(db.results), db.results, raceId, positions)
    ensures db.drivers == old(db.drivers) && db.races == old(db.races) && db.users == old(db.users)
    ensures db.predictions == old(db.predictions)
  {
    var existing := FindResult(db.results, raceId);
    if existing.Some? {
      var k := existing.value;
      db.results := db.results[k := db.results[k].(positions := Some(positions))];
    } else {
      CreatePositionResult(db, raceId, positions);
    }
  }

  /** The script's `main`. */
  method SimulateRaceResult(db: Store, rng: Rng) returns (outcome: Simulation)
    requires db.Valid()
    modifies db, rng
    ensures db.Valid()
    ensures db.drivers == old(db.drivers) && db.users == old(db.users)
    ensures FindRound(old(db.races), SimulatedRound, SimulatedSeason).None? ==>
      outcome == NoRace && db.races == old(db.races) && db.predictions == old(db.predictions) &&
      db.results == old(db.results)
    ensures FindRound(old(db.races), SimulatedRound, SimulatedSeason).Some? && ActiveDriverIds(old(db.drivers)) == [] ==>
      outcome == NoDrivers && db.races == old(db.races) && db.predictions == old(db.predictions) &&
      db.results == old(db.results)
    ensures FindRound(old(db.races), SimulatedRound, SimulatedSeason).Some? && ActiveDriverIds(old(db.drivers)) != [] ==>
      outcome.Simulated? &&
      var race := old(db.races)[FindRound(old(db.races), SimulatedRound, SimulatedSeason).value];
      var ids := ActiveDriverIds(old(db.drivers));
      && outcome.raceId == race.id
      && outcome.positions == ShuffleFrom(ids, old(rng.draws), |ids|)
      && multiset(outcome.positions) == multiset(ids)
      && Upserted(old(db.results), db.results, race.id, outcome.positions)
      && db.races == SetCompleted(old(db.races), race.id)
      && db.predictions == DevScored(old(db.predictions), race.id, outcome.positions)
  {
    var found := FindRound(db.races, SimulatedRound, SimulatedSeason);
    if found.None? {
      return NoRace;
    }
    var race := db.races[found.value];
    var drivers := ActiveDriverIds(db.drivers);
    if |drivers| == 0 {
      return NoDrivers;
    }
    var driverPositions := ShuffledIds(drivers, rng);
    assert race.id in RaceIds(db.races);
    UpsertPositionResult(db, race.id, driverPositions);
    CompleteRace(db, race.id);
    WriteRaceScores(db, race.id, driverPositions);
    outcome := Simulated(race.id, driverPositions);
  }
}
