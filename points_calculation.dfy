/**
 * The prediction scoring service: the current points table, the scorer
 * `calculatePredictionPoints`, its itemised twin `getPredictionPointsBreakdown`,
 * and the workflow that stores the scores and rebuilds every affected user's
 * total.
 *
 * The rules are stated once, as specification functions over values
 * (`PredictionPoints`, `Breakdown`); the two scorers are methods that work as
 * the source does (sorting the caller's result arrays in place, accumulating
 * in loops) and are proved equal to them.
 */
module PointsCalculation {
  import opened Wrappers
  import opened Js
  import opened Seqs
  import opened Sorting
  import opened Db

  // The current points table.
  const PolePosition: int := 10
  const RaceWinner: int := 15
  const Race2ndExact: int := 10
  const Race2ndPodium: int := 5
  const Race3rdExact: int := 8
  const Race3rdPodium: int := 3
  const Top5Exact: int := 5
  const Top5Correct: int := 1
  const FastestLap: int := 1
  const SprintPole: int := 5
  const SprintWinner: int := 8
  const Sprint2ndExact: int := 5
  const Sprint2ndPodium: int := 3
  const Sprint3rdExact: int := 3
  const Sprint3rdPodium: int := 1
  const PerfectPodium: int := 10
  const PerfectTop5: int := 10
  const PerfectSprintPodium: int := 5

  /** Exact-position points per main-race slot, as the table's documentation lists them. */
  const RaceExactTable: seq<int> := [15, 10, 8, 5, 5]

  /** Exact-position points per sprint slot. */
  const SprintExactTable: seq<int> := [8, 5, 3]

  /** What the scorer is given about one prediction. */
  datatype PredictionData = PredictionData(
    id: string,
    userId: string,
    positions: seq<string>,
    polePositionPrediction: Nullable,
    fastestLapPrediction: Nullable,
    sprintPositions: Option<seq<string>>,
    sprintPolePrediction: Nullable)

  /** The contents of a `RaceResults` object at one moment. */
  datatype ResultData = ResultData(
    polePosition: Nullable,
    fastestLap: Nullable,
    raceResult: Option<seq<DriverPosition>>,
    sprintPolePosition: Nullable,
    sprintResult: Option<seq<DriverPosition>>)

  /** A `RaceResults` object: its two finishing orders are arrays the scorers sort in place. */
  datatype RaceResults = RaceResults(
    polePosition: Nullable,
    fastestLap: Nullable,
    raceResult: Option<array<DriverPosition>>,
    sprintPolePosition: Nullable,
    sprintResult: Option<array<DriverPosition>>)

  /** One line of a points breakdown. */
  datatype LineItem = LineItem(category: string, points: int, description: string)

  /** The arrays a `RaceResults` object holds. */
  function Arrays(rr: RaceResults): set<object> {
    (if rr.raceResult.Some? then {rr.raceResult.value} else {})
    + (if rr.sprintResult.Some? then {rr.sprintResult.value} else {})
  }

  function Contents(rr: RaceResults): ResultData
    reads Arrays(rr)
  {
    ResultData(
      rr.polePosition,
      rr.fastestLap,
      if rr.raceResult.Some? then Some(rr.raceResult.value[..]) else None,
      rr.sprintPolePosition,
      if rr.sprintResult.Some? then Some(rr.sprintResult.value[..]) else None)
  }

  /** Both finishing orders are the same array object. */
  predicate Aliased(rr: RaceResults) {
    rr.raceResult.Some? && rr.sprintResult.Some? && rr.raceResult.value == rr.sprintResult.value
  }

  /** The comparator `(a, b) => a.position - b.position`, as a sort key. */
  function ByPosition(d: DriverPosition): int {
    d.position
  }

  /** `.map(r => r.driverId)`. */
  function DriverOrder(s: seq<DriverPosition>): (r: seq<string>)
    ensures |r| == |s| && forall k :: 0 <= k < |s| ==> r[k] == s[k].driverId
  {
    seq(|s|, k requires 0 <= k < |s| => s[k].driverId)
  }

  /** The official order: the result sorted ascending by position, as driver ids. */
  function Official(rs: seq<DriverPosition>): seq<string> {
    DriverOrder(SortBy(rs, ByPosition))
  }

  function Min(a: int, b: int): int {
    if a < b then a else b
  }

  /*
   * Main race.
   */

  /** Points for main-race slot `i` whose driver sits at index `actual` of the official order (-1 if absent). */
  function RaceSlotPoints(i: nat, actual: int): int {
    if actual == i then
      if i == 0 then RaceWinner
      else if i == 1 then Race2ndExact
      else if i == 2 then Race3rdExact
      else if i < 5 then Top5Exact
      else 0
    else if actual != -1 then
      if i == 1 && actual < 3 then Race2ndPodium
      else if i == 2 && actual < 3 then Race3rdPodium
      else if i < 5 && actual < 5 then Top5Correct
      else 0
    else 0
  }

  /** The points of the first `n` guesses. */
  function RacePositionPoints(pred: seq<string>, official: seq<string>, n: nat): int
    requires n <= |pred|
  {
    if n == 0 then 0
    else RacePositionPoints(pred, official, n - 1) + RaceSlotPoints(n - 1, IndexOf(official, pred[n - 1]))
  }

  /** The first three guesses are the first three official entries. */
  predicate IsPerfectPodium(pred: seq<string>, official: seq<string>) {
    |pred| >= 3 && |official| >= 3 && pred[0] == official[0] && pred[1] == official[1] && pred[2] == official[2]
  }

  /** The first five guesses are the first five official entries. */
  predicate IsPerfectTop5(pred: seq<string>, official: seq<string>) {
    |pred| >= 5 && |official| >= 5 && forall k :: 0 <= k < 5 ==> pred[k] == official[k]
  }

  /** Everything the main-race block adds: slot points and the two bonuses. */
  function RaceBlockPoints(pred: seq<string>, official: seq<string>): int {
    RacePositionPoints(pred, official, Min(|pred|, 5))
    + (if IsPerfectPodium(pred, official) then PerfectPodium else 0)
    + (if IsPerfectTop5(pred, official) then PerfectTop5 else 0)
  }

  /*
   * Sprint.
   */

  /** Points for sprint slot `i` whose driver sits at index `actual` of the sprint order. */
  function SprintSlotPoints(i: nat, actual: int): int {
    if actual == i then
      if i == 0 then SprintWinner
      else if i == 1 then Sprint2ndExact
      else if i == 2 then Sprint3rdExact
      else 0
    else if actual != -1 && actual < 3 then
      if i == 1 then Sprint2ndPodium
      else if i == 2 then Sprint3rdPodium
      else 0
    else 0
  }

  function SprintPositionPoints(pred: seq<string>, official: seq<string>, n: nat): int
    requires n <= |pred|
  {
    if n == 0 then 0
    else SprintPositionPoints(pred, official, n - 1) + SprintSlotPoints(n - 1, IndexOf(official, pred[n - 1]))
  }

  /** The sprint block, which only runs when the prediction and the result both have sprint orders. */
  function SprintBlockPoints(pred: seq<string>, official: seq<string>, poleHit: bool): int {
    SprintPositionPoints(pred, official, Min(|pred|, 3))
    + (if IsPerfectPodium(pred, official) then PerfectSprintPodium else 0)
    + (if poleHit then SprintPole else 0)
  }

  /** The main-race block's share of the score: it runs only when there is a race result. */
  function RacePart(p: PredictionData, r: ResultData): int {
    if r.raceResult.Some? then RaceBlockPoints(p.positions, Official(r.raceResult.value)) else 0
  }

  /** Pole points, on strict equality of the guess and the official pole. */
  function PolePart(p: PredictionData, r: ResultData): int {
    if p.polePositionPrediction == r.polePosition then PolePosition else 0
  }

  /** Fastest-lap points, on strict equality. */
  function LapPart(p: PredictionData, r: ResultData): int {
    if p.fastestLapPrediction == r.fastestLap then FastestLap else 0
  }

  /** The sprint block's share: it runs only with a sprint guess and a sprint result. */
  function SprintPart(p: PredictionData, r: ResultData): int {
    if p.sprintPositions.Some? && r.sprintResult.Some? then
      SprintBlockPoints(p.sprintPositions.value, Official(r.sprintResult.value),
                        p.sprintPolePrediction == r.sprintPolePosition)
    else 0
  }

  /** The score `calculatePredictionPoints` returns for a prediction and a result. */
  function PredictionPoints(p: PredictionData, r: ResultData): int {
    RacePart(p, r) + PolePart(p, r) + LapPart(p, r) + SprintPart(p, r)
  }

  /*
   * The itemised breakdown.
   */

  function Paren(s: string): string {
    "(" + s + ")"
  }

  /** The line (if any) for main-race slot `i`. */
  function RaceSlotItems(i: nat, actual: int, driver: string): seq<LineItem> {
    if actual == i then
      if i == 0 then [LineItem("Race Position", RaceWinner, "Race Winner " + Paren(driver))]
      else if i == 1 then [LineItem("Race Position", Race2ndExact, "2nd Place Exact " + Paren(driver))]
      else if i == 2 then [LineItem("Race Position", Race3rdExact, "3rd Place Exact " + Paren(driver))]
      else if i < 5 then [LineItem("Race Position", Top5Exact, NatText(i + 1) + "th Place Exact " + Paren(driver))]
      else []
    else if actual != -1 then
      if i == 1 && actual < 3 then [LineItem("Race Position", Race2ndPodium, "2nd Place Prediction on Podium " + Paren(driver))]
      else if i == 2 && actual < 3 then [LineItem("Race Position", Race3rdPodium, "3rd Place Prediction on Podium " + Paren(driver))]
      else if i < 5 && actual < 5 then [LineItem("Race Position", Top5Correct, "Top 5 Correct Driver " + Paren(driver))]
      else []
    else []
  }

  function RacePositionItems(pred: seq<string>, official: seq<string>, n: nat): seq<LineItem>
    requires n <= |pred|
  {
    if n == 0 then []
    else RacePositionItems(pred, official, n - 1) + RaceSlotItems(n - 1, IndexOf(official, pred[n - 1]), pred[n - 1])
  }

  function RaceBlockItems(pred: seq<string>, official: seq<string>): seq<LineItem> {
    RacePositionItems(pred, official, Min(|pred|, 5))
    + (if IsPerfectPodium(pred, official) then [LineItem("Bonus", PerfectPodium, "Perfect Podium Prediction")] else [])
    + (if IsPerfectTop5(pred, official) then [LineItem("Bonus", PerfectTop5, "Perfect Top 5 Prediction")] else [])
  }

  /** The line (if any) for sprint slot `i`. */
  function SprintSlotItems(i: nat, actual: int, driver: string): seq<LineItem> {
    if actual == i then
      if i == 0 then [LineItem("Sprint", SprintWinner, "Sprint Winner " + Paren(driver))]
      else if i == 1 then [LineItem("Sprint", Sprint2ndExact, "Sprint 2nd Place " + Paren(driver))]
      else if i == 2 then [LineItem("Sprint", Sprint3rdExact, "Sprint 3rd Place " + Paren(driver))]
      else []
    else if actual != -1 && actual < 3 then
      if i == 1 then [LineItem("Sprint", Sprint2ndPodium, "Sprint 2nd Prediction on Podium " + Paren(driver))]
      else if i == 2 then [LineItem("Sprint", Sprint3rdPodium, "Sprint 3rd Prediction on Podium " + Paren(driver))]
      else []
    else []
  }

  function SprintPositionItems(pred: seq<string>, official: seq<string>, n: nat): seq<LineItem>
    requires n <= |pred|
  {
    if n == 0 then []
    else SprintPositionItems(pred, official, n - 1) + SprintSlotItems(n - 1, IndexOf(official, pred[n - 1]), pred[n - 1])
  }

  function SprintBlockItems(pred: seq<string>, official: seq<string>, pole: Nullable, poleHit: bool): seq<LineItem> {
    SprintPositionItems(pred, official, Min(|pred|, 3))
    + (if IsPerfectPodium(pred, official) then [LineItem("Sprint Bonus", PerfectSprintPodium, "Perfect Sprint Podium")] else [])
    + (if poleHit then [LineItem("Sprint Qualifying", SprintPole, "Sprint Pole " + Paren(NullableText(pole)))] else [])
  }

  function RaceItems(p: PredictionData, r: ResultData): seq<LineItem> {
    if r.raceResult.Some? then RaceBlockItems(p.positions, Official(r.raceResult.value)) else []
  }

  function PoleItems(p: PredictionData, r: ResultData): seq<LineItem> {
    if p.polePositionPrediction == r.polePosition then
      [LineItem("Qualifying", PolePosition, "Pole Position " + Paren(NullableText(p.polePositionPrediction)))]
    else []
  }

  function LapItems(p: PredictionData, r: ResultData): seq<LineItem> {
    if p.fastestLapPrediction == r.fastestLap then
      [LineItem("Race", FastestLap, "Fastest Lap " + Paren(NullableText(p.fastestLapPrediction)))]
    else []
  }

  function SprintItems(p: PredictionData, r: ResultData): seq<LineItem> {
    if p.sprintPositions.Some? && r.sprintResult.Some? then
      SprintBlockItems(p.sprintPositions.value, Official(r.sprintResult.value),
                       p.sprintPolePrediction, p.sprintPolePrediction == r.sprintPolePosition)
    else []
  }

  /** The line items `getPredictionPointsBreakdown` returns, in order. */
  function Breakdown(p: PredictionData, r: ResultData): seq<LineItem> {
    RaceItems(p, r) + PoleItems(p, r) + LapItems(p, r) + SprintItems(p, r)
  }

  /** The points of a list of line items added up. */
  function TotalOf(items: seq<LineItem>): int {
    if items == [] then 0 else TotalOf(items[..|items| - 1]) + items[|items| - 1].points
  }

  /*
   * The two scorers, as the source runs them.
   */

  /** `raceResults.raceResult.sort(...)` / `.sprintResult.sort(...)`: what the scorers do to the caller's arrays. */
  twostate predicate SortedByScoring(p: PredictionData, rr: RaceResults)
    reads Arrays(rr)
  {
    && (rr.raceResult.Some? ==>
          rr.raceResult.value[..] == SortBy(old(rr.raceResult.value[..]), ByPosition))
    && (rr.sprintResult.Some? ==>
          rr.sprintResult.value[..] ==
            if p.sprintPositions.Some? || Aliased(rr) then SortBy(old(rr.sprintResult.value[..]), ByPosition)
            else old(rr.sprintResult.value[..]))
  }

  /**
   * Two result states the scorers cannot tell apart: the same scalar fields
   * and the same official orders.
   */
  predicate SameOfficial(cur: ResultData, orig: ResultData) {
    && cur.polePosition == orig.polePosition
    && cur.fastestLap == orig.fastestLap
    && cur.sprintPolePosition == orig.sprintPolePosition
    && cur.raceResult.Some? == orig.raceResult.Some?
    && (cur.raceResult.Some? ==> Official(cur.raceResult.value) == Official(orig.raceResult.value))
    && cur.sprintResult.Some? == orig.sprintResult.Some?
    && (cur.sprintResult.Some? ==> Official(cur.sprintResult.value) == Official(orig.sprintResult.value))
  }

  /** The slot loop of the main-race block. */
  method ScoreRacePositions(predictedPositions: seq<string>, actualPositions: seq<string>) returns (points: int)
    ensures points == RacePositionPoints(predictedPositions, actualPositions, Min(|predictedPositions|, 5))
  {
    points := 0;
    var n := Min(|predictedPositions|, 5);
    var i := 0;
    while i < n
      invariant 0 <= i <= n
      invariant points == RacePositionPoints(predictedPositions, actualPositions, i)
    {
      var predictedDriver := predictedPositions[i];
      var actualPosition := IndexOf(actualPositions, predictedDriver);
      if actualPosition == i {
        if i == 0 {
          points := points + RaceWinner;
        } else if i == 1 {
          points := points + Race2ndExact;
        } else if i == 2 {
          points := points + Race3rdExact;
        } else if i < 5 {
          points := points + Top5Exact;
        }
      } else if actualPosition != -1 {
        if i == 1 && actualPosition < 3 {
          points := points + Race2ndPodium;
        } else if i == 2 && actualPosition < 3 {
          points := points + Race3rdPodium;
        } else if i < 5 && actualPosition < 5 {
          points := points + Top5Correct;
        }
      }
      i := i + 1;
    }
  }

  /** The `perfectTop5` loop, which stops at the first mismatch. */
  method CheckPerfectTop5(predictedPositions: seq<string>, actualPositions: seq<string>) returns (perfectTop5: bool)
    requires |predictedPositions| >= 5 && |actualPositions| >= 5
    ensures perfectTop5 == IsPerfectTop5(predictedPositions, actualPositions)
  {
    perfectTop5 := true;
    var k := 0;
    while k < 5
      invariant 0 <= k <= 5
      invariant perfectTop5 && forall j :: 0 <= j < k ==> predictedPositions[j] == actualPositions[j]
    {
      if predictedPositions[k] != actualPositions[k] {
        perfectTop5 := false;
        break;
      }
      k := k + 1;
    }
  }

  /** The main-race block on an already sorted official order. */
  method ScoreRaceBlock(predictedPositions: seq<string>, actualPositions: seq<string>) returns (points: int)
    ensures points == RaceBlockPoints(predictedPositions, actualPositions)
  {
    points := ScoreRacePositions(predictedPositions, actualPositions);
    if |predictedPositions| >= 3 && |actualPositions| >= 3 {
      if predictedPositions[0] == actualPositions[0]
        && predictedPositions[1] == actualPositions[1]
        && predictedPositions[2] == actualPositions[2]
      {
        points := points + PerfectPodium;
      }
      if |predictedPositions| >= 5 && |actualPositions| >= 5 {
        var perfectTop5 := CheckPerfectTop5(predictedPositions, actualPositions);
        if perfectTop5 {
          points := points + PerfectTop5;
        }
      }
    }
  }

  /** The slot loop of the sprint block. */
  method ScoreSprintPositions(predictedSprintPositions: seq<string>, actualSprintPositions: seq<string>) returns (points: int)
    ensures points == SprintPositionPoints(predictedSprintPositions, actualSprintPositions, Min(|predictedSprintPositions|, 3))
  {
    points := 0;
    var n := Min(|predictedSprintPositions|, 3);
    var i := 0;
    while i < n
      invariant 0 <= i <= n
      invariant points == SprintPositionPoints(predictedSprintPositions, actualSprintPositions, i)
    {
      var predictedDriver := predictedSprintPositions[i];
      var actualPosition := IndexOf(actualSprintPositions, predictedDriver);
      if actualPosition == i {
        if i == 0 {
          points := points + SprintWinner;
        } else if i == 1 {
          points := points + Sprint2ndExact;
        } else if i == 2 {
          points := points + Sprint3rdExact;
        }
      } else if actualPosition != -1 && actualPosition < 3 {
        if i == 1 {
          points := points + Sprint2ndPodium;
        } else if i == 2 {
          points := points + Sprint3rdPodium;
        }
      }
      i := i + 1;
    }
  }

  /** Sorting an already sorted finishing order again changes nothing the scorer reads. */
  lemma OfficialResorted(rs: seq<DriverPosition>)
    ensures Official(SortBy(rs, ByPosition)) == Official(rs)
  {
    SortByIdempotent(rs, ByPosition);
  }

  /** The main-race block on the caller's array: sort it in place, then score. */
  method ScoreRaceArray(predictedPositions: seq<string>, a: array<DriverPosition>) returns (points: int)
    modifies a
    ensures a[..] == SortBy(old(a[..]), ByPosition)
    ensures points == RaceBlockPoints(predictedPositions, Official(old(a[..])))
  {
    SortInPlace(a, ByPosition);
    var actualPositions := DriverOrder(a[..]);
    points := ScoreRaceBlock(predictedPositions, actualPositions);
  }

  /** The sprint block on an already sorted sprint order, the sprint pole included. */
  method ScoreSprintBlock(predictedSprintPositions: seq<string>, actualSprintPositions: seq<string>, poleHit: bool)
    returns (points: int)
    ensures points == SprintBlockPoints(predictedSprintPositions, actualSprintPositions, poleHit)
  {
    points := ScoreSprintPositions(predictedSprintPositions, actualSprintPositions);
    if |predictedSprintPositions| >= 3 && |actualSprintPositions| >= 3 {
      if predictedSprintPositions[0] == actualSprintPositions[0]
        && predictedSprintPositions[1] == actualSprintPositions[1]
        && predictedSprintPositions[2] == actualSprintPositions[2]
      {
        points := points + PerfectSprintPodium;
      }
    }
    if poleHit {
      points := points + SprintPole;
    }
  }

  /** The sprint block on the caller's array: sort it in place, then score. */
  method ScoreSprintArray(predictedSprintPositions: seq<string>, b: array<DriverPosition>, poleHit: bool)
    returns (points: int)
    modifies b
    ensures b[..] == SortBy(old(b[..]), ByPosition)
    ensures points == SprintBlockPoints(predictedSprintPositions, Official(old(b[..])), poleHit)
  {
    SortInPlace(b, ByPosition);
    var actualSprintPositions := DriverOrder(b[..]);
    points := ScoreSprintBlock(predictedSprintPositions, actualSprintPositions, poleHit);
  }

  /**
   * `calculatePredictionPoints`: sorts the result's finishing orders in place and
   * returns the score of the prediction against the result as it was passed in.
   */
  method CalculatePredictionPoints(prediction: PredictionData, raceResults: RaceResults) returns (points: int)
    modifies Arrays(raceResults)
    ensures points == PredictionPoints(prediction, old(Contents(raceResults)))
    ensures SortedByScoring(prediction, raceResults)
    ensures SameOfficial(Contents(raceResults), old(Contents(raceResults)))
  {
    ghost var before := Contents(raceResults);
    var raceBlock := 0;
    if raceResults.raceResult.Some? {
      raceBlock := ScoreRaceArray(prediction.positions, raceResults.raceResult.value);
    }
    ghost var between := Contents(raceResults);
    assert between.sprintResult.Some? ==>
      Official(between.sprintResult.value) == Official(before.sprintResult.value) by {
      if between.sprintResult.Some? && Aliased(raceResults) {
        OfficialResorted(before.sprintResult.value);
      }
    }
    points := raceBlock;
    if prediction.polePositionPrediction == raceResults.polePosition {
      points := points + PolePosition;
    }
    if prediction.fastestLapPrediction == raceResults.fastestLap {
      points := points + FastestLap;
    }
    if prediction.sprintPositions.Some? && raceResults.sprintResult.Some? {
      var sprintPoints := ScoreSprintArray(prediction.sprintPositions.value, raceResults.sprintResult.value,
                                           prediction.sprintPolePrediction == raceResults.sprintPolePosition);
      points := points + sprintPoints;
      if Aliased(raceResults) {
        SortByIdempotent(before.sprintResult.value, ByPosition);
      }
      OfficialResorted(before.sprintResult.value);
    }
    if raceResults.raceResult.Some? {
      OfficialResorted(before.raceResult.value);
    }
  }

  /*
   * The itemised scorer.
   */

  /** One pass of the main-race slot loop, itemised: the line it pushes (if any) and its points. */
  method BreakdownRaceSlot(i: nat, actualPosition: int, predictedDriver: string)
    returns (items: seq<LineItem>, added: int)
    requires i < 5
    ensures items == RaceSlotItems(i, actualPosition, predictedDriver)
    ensures added == RaceSlotPoints(i, actualPosition)
  {
    items, added := [], 0;
    if actualPosition == i {
      var points, description := 0, "";
      if i == 0 {
        points, description := RaceWinner, "Race Winner " + Paren(predictedDriver);
      } else if i == 1 {
        points, description := Race2ndExact, "2nd Place Exact " + Paren(predictedDriver);
      } else if i == 2 {
        points, description := Race3rdExact, "3rd Place Exact " + Paren(predictedDriver);
      } else if i < 5 {
        points, description := Top5Exact, NatText(i + 1) + "th Place Exact " + Paren(predictedDriver);
      }
      items, added := [LineItem("Race Position", points, description)], points;
    } else if actualPosition != -1 {
      var points, description := 0, "";
      if i == 1 && actualPosition < 3 {
        points, description := Race2ndPodium, "2nd Place Prediction on Podium " + Paren(predictedDriver);
      } else if i == 2 && actualPosition < 3 {
        points, description := Race3rdPodium, "3rd Place Prediction on Podium " + Paren(predictedDriver);
      } else if i < 5 && actualPosition < 5 {
        points, description := Top5Correct, "Top 5 Correct Driver " + Paren(predictedDriver);
      }
      if points > 0 {
        items, added := [LineItem("Race Position", points, description)], points;
      }
    }
  }

  /** The slot loop of the main-race block, itemised. */
  method BreakdownRacePositions(predictedPositions: seq<string>, actualPositions: seq<string>)
    returns (breakdown: seq<LineItem>, total: int)
    ensures breakdown == RacePositionItems(predictedPositions, actualPositions, Min(|predictedPositions|, 5))
    ensures total == RacePositionPoints(predictedPositions, actualPositions, Min(|predictedPositions|, 5))
  {
    breakdown, total := [], 0;
    var n := Min(|predictedPositions|, 5);
    var i := 0;
    while i < n
      invariant 0 <= i <= n
      invariant breakdown == RacePositionItems(predictedPositions, actualPositions, i)
      invariant total == RacePositionPoints(predictedPositions, actualPositions, i)
    {
      var predictedDriver := predictedPositions[i];
      var actualPosition := IndexOf(actualPositions, predictedDriver);
      var items, points := BreakdownRaceSlot(i, actualPosition, predictedDriver);
      breakdown := breakdown + items;
      total := total + points;
      i := i + 1;
    }
  }

  /** The main-race block on an already sorted official order, itemised. */
  method BreakdownRaceBlock(predictedPositions: seq<string>, actualPositions: seq<string>)
    returns (breakdown: seq<LineItem>, total: int)
    ensures breakdown == RaceBlockItems(predictedPositions, actualPositions)
    ensures total == RaceBlockPoints(predictedPositions, actualPositions)
  {
    breakdown, total := BreakdownRacePositions(predictedPositions, actualPositions);
    var podium: seq<LineItem> := [];
    var top5: seq<LineItem> := [];
    if |predictedPositions| >= 3 && |actualPositions| >= 3 {
      if predictedPositions[0] == actualPositions[0]
        && predictedPositions[1] == actualPositions[1]
        && predictedPositions[2] == actualPositions[2]
      {
        podium := [LineItem("Bonus", PerfectPodium, "Perfect Podium Prediction")];
        total := total + PerfectPodium;
      }
      if |predictedPositions| >= 5 && |actualPositions| >= 5 {
        var perfectTop5 := CheckPerfectTop5(predictedPositions, actualPositions);
        if perfectTop5 {
          top5 := [LineItem("Bonus", PerfectTop5, "Perfect Top 5 Prediction")];
          total := total + PerfectTop5;
        }
      }
    }
    breakdown := breakdown + podium + top5;
  }

  /** One pass of the sprint slot loop, itemised. */
  method BreakdownSprintSlot(i: nat, actualPosition: int, predictedDriver: string)
    returns (items: seq<LineItem>, added: int)
    requires i < 3
    ensures items == SprintSlotItems(i, actualPosition, predictedDriver)
    ensures added == SprintSlotPoints(i, actualPosition)
  {
    items, added := [], 0;
    if actualPosition == i {
      var points, description := 0, "";
      if i == 0 {
        points, description := SprintWinner, "Sprint Winner " + Paren(predictedDriver);
      } else if i == 1 {
        points, description := Sprint2ndExact, "Sprint 2nd Place " + Paren(predictedDriver);
      } else if i == 2 {
        points, description := Sprint3rdExact, "Sprint 3rd Place " + Paren(predictedDriver);
      }
      items, added := [LineItem("Sprint", points, description)], points;
    } else if actualPosition != -1 && actualPosition < 3 {
      var points, description := 0, "";
      if i == 1 {
        points, description := Sprint2ndPodium, "Sprint 2nd Prediction on Podium " + Paren(predictedDriver);
      } else if i == 2 {
        points, description := Sprint3rdPodium, "Sprint 3rd Prediction on Podium " + Paren(predictedDriver);
      }
      if points > 0 {
        items, added := [LineItem("Sprint", points, description)], points;
      }
    }
  }

  /** The slot loop of the sprint block, itemised. */
  method BreakdownSprintPositions(predictedSprintPositions: seq<string>, actualSprintPositions: seq<string>)
    returns (breakdown: seq<LineItem>, total: int)
    ensures breakdown == SprintPositionItems(predictedSprintPositions, actualSprintPositions, Min(|predictedSprintPositions|, 3))
    ensures total == SprintPositionPoints(predictedSprintPositions, actualSprintPositions, Min(|predictedSprintPositions|, 3))
  {
    breakdown, total := [], 0;
    var n := Min(|predictedSprintPositions|, 3);
    var i := 0;
    while i < n
      invariant 0 <= i <= n
      invariant breakdown == SprintPositionItems(predictedSprintPositions, actualSprintPositions, i)
      invariant total == SprintPositionPoints(predictedSprintPositions, actualSprintPositions, i)
    {
      var predictedDriver := predictedSprintPositions[i];
      var actualPosition := IndexOf(actualSprintPositions, predictedDriver);
      var items, points := BreakdownSprintSlot(i, actualPosition, predictedDriver);
      breakdown := breakdown + items;
      total := total + points;
      i := i + 1;
    }
  }

  /** The sprint block on an already sorted sprint order, itemised. */
  method BreakdownSprintBlock(predictedSprintPositions: seq<string>, actualSprintPositions: seq<string>,
                              sprintPolePrediction: Nullable, poleHit: bool)
    returns (breakdown: seq<LineItem>, total: int)
    ensures breakdown == SprintBlockItems(predictedSprintPositions, actualSprintPositions, sprintPolePrediction, poleHit)
    ensures total == SprintBlockPoints(predictedSprintPositions, actualSprintPositions, poleHit)
  {
    breakdown, total := BreakdownSprintPositions(predictedSprintPositions, actualSprintPositions);
    var podium: seq<LineItem> := [];
    var pole: seq<LineItem> := [];
    if |predictedSprintPositions| >= 3 && |actualSprintPositions| >= 3 {
      if predictedSprintPositions[0] == actualSprintPositions[0]
        && predictedSprintPositions[1] == actualSprintPositions[1]
        && predictedSprintPositions[2] == actualSprintPositions[2]
      {
        podium := [LineItem("Sprint Bonus", PerfectSprintPodium, "Perfect Sprint Podium")];
        total := total + PerfectSprintPodium;
      }
    }
    if poleHit {
      pole := [LineItem("Sprint Qualifying", SprintPole, "Sprint Pole " + Paren(NullableText(sprintPolePrediction)))];
      total := total + SprintPole;
    }
    breakdown := breakdown + podium + pole;
  }

  /** The main-race block on the caller's array, itemised: sort it in place, then score. */
  method BreakdownRaceArray(predictedPositions: seq<string>, a: array<DriverPosition>)
    returns (breakdown: seq<LineItem>, total: int)
    modifies a
    ensures a[..] == SortBy(old(a[..]), ByPosition)
    ensures breakdown == RaceBlockItems(predictedPositions, Official(old(a[..])))
    ensures total == RaceBlockPoints(predictedPositions, Official(old(a[..])))
  {
    SortInPlace(a, ByPosition);
    breakdown, total := BreakdownRaceBlock(predictedPositions, DriverOrder(a[..]));
  }

  /** The sprint block on the caller's array, itemised. */
  method BreakdownSprintArray(predictedSprintPositions: seq<string>, b: array<DriverPosition>,
                              sprintPolePrediction: Nullable, poleHit: bool)
    returns (breakdown: seq<LineItem>, total: int)
    modifies b
    ensures b[..] == SortBy(old(b[..]), ByPosition)
    ensures breakdown == SprintBlockItems(predictedSprintPositions, Official(old(b[..])), sprintPolePrediction, poleHit)
    ensures total == SprintBlockPoints(predictedSprintPositions, Official(old(b[..])), poleHit)
  {
    SortInPlace(b, ByPosition);
    breakdown, total := BreakdownSprintBlock(predictedSprintPositions, DriverOrder(b[..]), sprintPolePrediction, poleHit);
  }

  /**
   * `getPredictionPointsBreakdown`: sorts the result's finishing orders in place
   * as the scorer does and returns the line items and their total for the
   * result as it was passed in.
   */
  method GetPredictionPointsBreakdown(prediction: PredictionData, raceResults: RaceResults)
    returns (total: int, breakdown: seq<LineItem>)
    modifies Arrays(raceResults)
    ensures breakdown == Breakdown(prediction, old(Contents(raceResults)))
    ensures total == PredictionPoints(prediction, old(Contents(raceResults)))
    ensures SortedByScoring(prediction, raceResults)
  {
    ghost var before := Contents(raceResults);
    var raceItems: seq<LineItem> := [];
    var racePoints := 0;
    if raceResults.raceResult.Some? {
      raceItems, racePoints := BreakdownRaceArray(prediction.positions, raceResults.raceResult.value);
    }
    ghost var between := Contents(raceResults);
    assert between.sprintResult.Some? ==>
      Official(between.sprintResult.value) == Official(before.sprintResult.value) by {
      if between.sprintResult.Some? && Aliased(raceResults) {
        OfficialResorted(before.sprintResult.value);
      }
    }
    var poleItems: seq<LineItem> := [];
    var polePoints := 0;
    if prediction.polePositionPrediction == raceResults.polePosition {
      poleItems := [LineItem("Qualifying", PolePosition,
                             "Pole Position " + Paren(NullableText(prediction.polePositionPrediction)))];
      polePoints := PolePosition;
    }
    var lapItems: seq<LineItem> := [];
    var lapPoints := 0;
    if prediction.fastestLapPrediction == raceResults.fastestLap {
      lapItems := [LineItem("Race", FastestLap,
                            "Fastest Lap " + Paren(NullableText(prediction.fastestLapPrediction)))];
      lapPoints := FastestLap;
    }
    var sprintItems: seq<LineItem> := [];
    var sprintPoints := 0;
    if prediction.sprintPositions.Some? && raceResults.sprintResult.Some? {
      sprintItems, sprintPoints :=
        BreakdownSprintArray(prediction.sprintPositions.value, raceResults.sprintResult.value,
                             prediction.sprintPolePrediction,
                             prediction.sprintPolePrediction == raceResults.sprintPolePosition);
      if Aliased(raceResults) {
        SortByIdempotent(before.sprintResult.value, ByPosition);
      }
    }
    breakdown := raceItems + poleItems + lapItems + sprintItems;
    total := racePoints + polePoints + lapPoints + sprintPoints;
  }
}
