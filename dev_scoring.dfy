/**
 * The scoring rule and the shuffle the development scripts share
 * (`simulate-race-result.js`, `create-dev-data.js`, `setup-dev.js`): an
 * exact guess in the top ten earns 25/18/15/12/10/8/6/4/2/1, a guess one
 * place off earns 1, and a driver missing from the result is skipped; the
 * shuffle is the in-place Fisher–Yates loop over an array of driver ids.
 *
 * `Math.random()` is a stream of draws held by an `Rng` object: the swap
 * partner for index i is the next draw modulo i + 1.
 */
module DevScoring {
  import opened Seqs
  import opened Db
  import Recalculation

  /** `exactMatch`: the credit for an exact guess at index 0..9. */
  const ExactMatch: seq<int> := [25, 18, 15, 12, 10, 8, 6, 4, 2, 1]
  /** `closeMatch`: the credit for a guess one place off. */
  const CloseMatch: int := 1

  function Abs(x: int): nat {
    if x < 0 then -x else x
  }

  /** The credit of the guess at index i, found at `actualPosition` (-1 when absent). */
  function SlotPoints(i: nat, actualPosition: int): int {
    if actualPosition == -1 then 0
    else if actualPosition == i && i < |ExactMatch| then ExactMatch[i]
    else if Abs(actualPosition - i) == 1 then CloseMatch
    else 0
  }

  /** The credit of the first n guesses against the result order `actual`. */
  function DevPoints(predicted: seq<string>, actual: seq<string>, n: nat): int
    requires n <= |predicted|
  {
    if n == 0 then 0
    else DevPoints(predicted, actual, n - 1) + SlotPoints(n - 1, IndexOf(actual, predicted[n - 1]))
  }

  /** The scoring loop for one prediction. */
  method ScorePositions(predictedPositions: seq<string>, positions: seq<string>) returns (totalPoints: int)
    ensures totalPoints == DevPoints(predictedPositions, positions, |predictedPositions|)
  {
    totalPoints := 0;
    for i := 0 to |predictedPositions|
      invariant totalPoints == DevPoints(predictedPositions, positions, i)
    {
      var driverId := predictedPositions[i];
      var actualPosition := IndexOf(positions, driverId);
      if actualPosition == -1 {
        continue;
      }
      if actualPosition == i && i < |ExactMatch| {
        totalPoints := totalPoints + ExactMatch[i];
      } else if Abs(actualPosition - i) == 1 {
        totalPoints := totalPoints + CloseMatch;
      }
    }
  }

  /** Exact in the top ten earns the table's credit, one place off earns 1, anything else 0. */
  lemma SlotCredit(i: nat, actualPosition: int)
    requires -1 <= actualPosition
    ensures actualPosition == i && i < 10 ==> SlotPoints(i, actualPosition) == ExactMatch[i]
    ensures actualPosition == i && i >= 10 ==> SlotPoints(i, actualPosition) == 0
    ensures actualPosition >= 0 && Abs(actualPosition - i) == 1 ==> SlotPoints(i, actualPosition) == CloseMatch
    ensures actualPosition == -1 || Abs(actualPosition - i) > 1 ==> SlotPoints(i, actualPosition) == 0
  {
  }

  /** A guess whose driver is not in the result adds nothing. */
  lemma {:induction false} MissingSkipped(predicted: seq<string>, actual: seq<string>, n: nat, x: string)
    requires n < |predicted| && x !in actual
    ensures DevPoints(predicted[n := x], actual, |predicted|) ==
            DevPoints(predicted, actual, |predicted|) - SlotPoints(n, IndexOf(actual, predicted[n]))
  {
    DevPointsReplace(predicted, actual, n, x, |predicted|);
  }

  /** Replacing the guess at index i changes the credit of any prefix covering it by that slot's difference. */
  lemma {:induction false} DevPointsReplace(predicted: seq<string>, actual: seq<string>, i: nat, x: string, m: nat)
    requires i < m <= |predicted|
    ensures DevPoints(predicted[i := x], actual, m) ==
            DevPoints(predicted, actual, m) - SlotPoints(i, IndexOf(actual, predicted[i])) + SlotPoints(i, IndexOf(actual, x))
  {
    if m - 1 == i {
      DevPointsPrefix(predicted, predicted[i := x], actual, i);
    } else {
      DevPointsReplace(predicted, actual, i, x, m - 1);
    }
  }

  /** The credit of the first n guesses depends on those guesses only. */
  lemma {:induction false} DevPointsPrefix(p: seq<string>, q: seq<string>, actual: seq<string>, n: nat)
    requires n <= |p| && n <= |q| && p[..n] == q[..n]
    ensures DevPoints(p, actual, n) == DevPoints(q, actual, n)
  {
    if n > 0 {
      assert p[n - 1] == p[..n][n - 1] == q[..n][n - 1] == q[n - 1];
      assert p[..n - 1] == p[..n][..n - 1];
      assert q[..n - 1] == q[..n][..n - 1];
      DevPointsPrefix(p, q, actual, n - 1);
    }
  }

  /** The table's credit for the first n places: 25 + 18 + ... */
  function TablePrefix(n: nat): int {
    if n == 0 || n > |ExactMatch| then (if n == 0 then 0 else TablePrefix(|ExactMatch|))
    else TablePrefix(n - 1) + ExactMatch[n - 1]
  }

  /** Guessing the result exactly earns the table's credit for the first ten places and nothing beyond. */
  lemma {:induction false} PerfectGuess(actual: seq<string>, n: nat)
    requires Distinct(actual) && n <= |actual|
    ensures DevPoints(actual, actual, n) == TablePrefix(n)
  {
    if n > 0 {
      PerfectGuess(actual, n - 1);
      IndexOfDistinct(actual, n - 1);
    }
  }

  /** The table sums to 101, so a perfect guess of a full grid earns 101. */
  lemma PerfectGridScore(actual: seq<string>)
    requires Distinct(actual) && |actual| >= 10
    ensures DevPoints(actual, actual, |actual|) == 101
  {
    PerfectGuess(actual, |actual|);
  }

  /*
   * The shuffle.
   */

  /** The stream behind `Math.random()`. */
  class Rng {
    var draws: seq<nat>

    constructor (draws: seq<nat>)
      ensures this.draws == draws
    {
      this.draws := draws;
    }

    /** `Math.floor(Math.random() * bound)`: the next draw reduced below `bound`. */
    method Next(bound: nat) returns (j: nat)
      requires bound > 0
      modifies this
      ensures j == Draw(old(draws), bound) && draws == Rest(old(draws))
    {
      j := Draw(draws, bound);
      draws := Rest(draws);
    }
  }

  /** The next draw reduced below `bound`; an exhausted stream reads as 0. */
  function Draw(draws: seq<nat>, bound: nat): (j: nat)
    requires bound > 0
    ensures j < bound
  {
    if draws == [] then 0 else draws[0] % bound
  }

  /** The stream after one draw. */
  function Rest(draws: seq<nat>): seq<nat> {
    if draws == [] then [] else draws[1..]
  }

  /** `[s[i], s[j]] = [s[j], s[i]]`. */
  function Swap<T>(s: seq<T>, i: nat, j: nat): (r: seq<T>)
    requires i < |s| && j < |s|
    ensures |r| == |s|
  {
    s[i := s[j]][j := s[i]]
  }

  /** A swap keeps the multiset. */
  lemma SwapPermutes<T>(s: seq<T>, i: nat, j: nat)
    requires i < |s| && j < |s|
    ensures multiset(Swap(s, i, j)) == multiset(s)
  {
  }

  /** The shuffle loop run for indices top - 1 down to 1. */
  function ShuffleFrom<T>(s: seq<T>, draws: seq<nat>, top: nat): seq<T>
    requires top <= |s|
    decreases top
  {
    if top <= 1 then s
    else ShuffleFrom(Swap(s, top - 1, Draw(draws, top)), Rest(draws), top - 1)
  }

  /** The stream left after the loop over indices top - 1 down to 1. */
  function DrawsAfter(draws: seq<nat>, top: nat): seq<nat> {
    if top <= 1 then draws else DrawsAfter(Rest(draws), top - 1)
  }

  /** The shuffle is a permutation: same length, same multiset. */
  lemma {:induction false} ShufflePermutes<T>(s: seq<T>, draws: seq<nat>, top: nat)
    requires top <= |s|
    ensures |ShuffleFrom(s, draws, top)| == |s|
    ensures multiset(ShuffleFrom(s, draws, top)) == multiset(s)
    decreases top
  {
    if top > 1 {
      SwapPermutes(s, top - 1, Draw(draws, top));
      ShufflePermutes(Swap(s, top - 1, Draw(draws, top)), Rest(draws), top - 1);
    }
  }

  /** One pass of the loop: swap index top - 1 with the next draw, then go on below it. */
  lemma ShuffleStep<T>(s: seq<T>, draws: seq<nat>, top: nat)
    requires 1 < top <= |s|
    ensures ShuffleFrom(s, draws, top) == ShuffleFrom(Swap(s, top - 1, Draw(draws, top)), Rest(draws), top - 1)
    ensures DrawsAfter(draws, top) == DrawsAfter(Rest(draws), top - 1)
  {
  }

  /** The in-place swap loop over `a`. */
  method Shuffle<T>(a: array<T>, rng: Rng)
    modifies a, rng
    ensures a[..] == ShuffleFrom(old(a[..]), old(rng.draws), a.Length)
    ensures rng.draws == DrawsAfter(old(rng.draws), a.Length)
  {
    ghost var spec, rest := ShuffleFrom(a[..], rng.draws, a.Length), DrawsAfter(rng.draws, a.Length);
    ghost var cur, ds := a[..], rng.draws;
    var i := a.Length - 1;
    while i > 0
      invariant -1 <= i < a.Length
      invariant a[..] == cur && rng.draws == ds && |cur| == a.Length
      invariant ShuffleFrom(cur, ds, i + 1) == spec && DrawsAfter(ds, i + 1) == rest
    {
      ShuffleStep(cur, ds, i + 1);
      var j := rng.Next(i + 1);
      a[i], a[j] := a[j], a[i];
      cur, ds := Swap(cur, i, j), Rest(ds);
      assert a[..] == cur;
      i := i - 1;
    }
  }

  /** `drivers.map(d => d.id)` copied into an array and shuffled. */
  method ShuffledIds(ids: seq<string>, rng: Rng) returns (shuffled: seq<string>)
    modifies rng
    ensures shuffled == ShuffleFrom(ids, old(rng.draws), |ids|)
    ensures multiset(shuffled) == multiset(ids)
    ensures rng.draws == DrawsAfter(old(rng.draws), |ids|)
  {
    ShufflePermutes(ids, rng.draws, |ids|);
    var a := new string[|ids|](k requires 0 <= k < |ids| => ids[k]);
    assert a[..] == ids;
    Shuffle(a, rng);
    shuffled := a[..];
  }

  /*
   * Writing the scores of one race.
   */

  /** The prediction table once every prediction of the race stores its credit against `actual`. */
  function DevScored(s: seq<Prediction>, raceId: string, actual: seq<string>): (t: seq<Prediction>)
    ensures SamePredictionKeys(s, t)
  {
    seq(|s|, k requires 0 <= k < |s| =>
      if s[k].raceId == raceId then s[k].(points := DevPoints(s[k].positions, actual, |s[k].positions|)) else s[k])
  }

  /** The same, for the rows whose id is in `done`. */
  function PartlyDevScored(s: seq<Prediction>, raceId: string, actual: seq<string>, done: set<string>): (t: seq<Prediction>)
    ensures SamePredictionKeys(s, t)
  {
    seq(|s|, k requires 0 <= k < |s| =>
      if s[k].raceId == raceId && s[k].id in done then s[k].(points := DevPoints(s[k].positions, actual, |s[k].positions|))
      else s[k])
  }

  /** The ids of a list of predictions. */
  ghost function IdsOf(s: seq<Prediction>): (ids: set<string>)
    ensures forall k :: 0 <= k < |s| ==> s[k].id in ids
  {
    if s == [] then {} else IdsOf(s[..|s| - 1]) + {s[|s| - 1].id}
  }

  /** Writing one more prediction of the race by id extends the scored part by it. */
  lemma WriteStep(s0: seq<Prediction>, s: seq<Prediction>, raceId: string, actual: seq<string>,
                  done: set<string>, p: Prediction)
    requires UniquePredictionIds(s0)
    requires p in s0 && p.raceId == raceId
    requires s == PartlyDevScored(s0, raceId, actual, done)
    ensures Recalculation.SetPoints(s, p.id, DevPoints(p.positions, actual, |p.positions|))
         == PartlyDevScored(s0, raceId, actual, done + {p.id})
  {
    var t := Recalculation.SetPoints(s, p.id, DevPoints(p.positions, actual, |p.positions|));
    var t' := PartlyDevScored(s0, raceId, actual, done + {p.id});
    forall k | 0 <= k < |s0|
      ensures t[k] == t'[k]
    {
      if s0[k].id == p.id {
        var m :| 0 <= m < |s0| && s0[m] == p;
      }
    }
  }

  /** `WriteStep` for the loop's `i`-th prediction of the race. */
  lemma WriteLoopStep(s0: seq<Prediction>, s: seq<Prediction>, raceId: string, actual: seq<string>,
                      predictions: seq<Prediction>, i: nat)
    requires UniquePredictionIds(s0)
    requires predictions == Recalculation.RacePredictions(s0, raceId) && i < |predictions|
    requires s == PartlyDevScored(s0, raceId, actual, IdsOf(predictions[..i]))
    ensures var p := predictions[i];
      Recalculation.SetPoints(s, p.id, DevPoints(p.positions, actual, |p.positions|))
        == PartlyDevScored(s0, raceId, actual, IdsOf(predictions[..i + 1]))
  {
    assert predictions[i] in predictions;
    WriteStep(s0, s, raceId, actual, IdsOf(predictions[..i]), predictions[i]);
    assert predictions[..i + 1][..i] == predictions[..i];
  }

  /** Once every prediction of the race is written, the table is `DevScored`. */
  lemma AllWritten(s0: seq<Prediction>, raceId: string, actual: seq<string>)
    ensures PartlyDevScored(s0, raceId, actual, IdsOf(Recalculation.RacePredictions(s0, raceId)))
         == DevScored(s0, raceId, actual)
  {
    var race := Recalculation.RacePredictions(s0, raceId);
    forall k | 0 <= k < |s0| && s0[k].raceId == raceId
      ensures s0[k].id in IdsOf(race)
    {
      assert s0[k] in race;
    }
  }

  /**
   * The loop over `prediction.findMany({ where: { raceId } })`: each
   * prediction of the race stores its credit against `positions`; users'
   * totals are not touched.
   */
  method WriteRaceScores(db: Store, raceId: string, positions: seq<string>)
    requires db.Valid()
    modifies db
    ensures db.Valid()
    ensures db.predictions == DevScored(old(db.predictions), raceId, positions)
    ensures db.drivers == old(db.drivers) && db.races == old(db.races) && db.users == old(db.users)
    ensures db.results == old(db.results)
  {
    ghost var s0 := db.predictions;
    WriteEach(db, raceId, positions);
    ValidAfterRewrite(db.drivers, db.races, db.users, db.users, s0, db.predictions,
                      db.results);
  }

  /** The loop itself, one `update` by id per prediction of the race. */
  method WriteEach(db: Store, raceId: string, positions: seq<string>)
    requires UniquePredictionIds(db.predictions)
    modifies db
    ensures db.predictions == DevScored(old(db.predictions), raceId, positions)
    ensures db.drivers == old(db.drivers) && db.races == old(db.races) && db.users == old(db.users)
    ensures db.results == old(db.results)
  {
    ghost var s0 := db.predictions;
    var predictions := Recalculation.RacePredictions(db.predictions, raceId);
    for i := 0 to |predictions|
      invariant db.predictions == PartlyDevScored(s0, raceId, positions, IdsOf(predictions[..i]))
      invariant db.drivers == old(db.drivers) && db.races == old(db.races) && db.users == old(db.users)
      invariant db.results == old(db.results)
    {
      var prediction := predictions[i];
      WriteLoopStep(s0, db.predictions, raceId, positions, predictions, i);
      var totalPoints := ScorePositions(prediction.positions, positions);
      db.predictions := Recalculation.SetPoints(db.predictions, prediction.id, totalPoints);
    }
    assert predictions[..|predictions|] == predictions;
    AllWritten(s0, raceId, positions);
  }
}
