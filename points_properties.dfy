/**
 * What the current scoring rules promise, proved about the specification
 * functions the two scorers are verified against: the slot table, the
 * bonuses, the independence of pole and fastest lap, the sprint block, the
 * agreement of the breakdown with the score, and a few worked examples.
 */
module PointsProperties {
  import opened Wrappers
  import opened Js
  import opened Seqs
  import opened Sorting
  import opened Db
  import opened PointsCalculation

  /*
   * Slot credit.
   */

  /** An exact guess in slot i earns 15/10/8/5/5. */
  lemma RaceExactCredit(i: nat)
    requires i < 5
    ensures RaceSlotPoints(i, i) == RaceExactTable[i]
  {
  }

  /**
   * Credit for a guess that is not exact: 5 or 3 for slots 1 and 2 on the
   * podium, otherwise 1 for any slot whose driver finished in the top five
   * (the winner slot included), and nothing outside the top five.
   */
  lemma RaceDegradedCredit(i: nat, actual: int)
    requires i < 5 && actual != i
    ensures i == 1 && 0 <= actual < 3 ==> RaceSlotPoints(i, actual) == Race2ndPodium
    ensures i == 2 && 0 <= actual < 3 ==> RaceSlotPoints(i, actual) == Race3rdPodium
    ensures i == 0 && 0 <= actual < 5 ==> RaceSlotPoints(i, actual) == Top5Correct
    ensures 3 <= actual < 5 ==> RaceSlotPoints(i, actual) == Top5Correct
    ensures i >= 3 && 0 <= actual < 5 ==> RaceSlotPoints(i, actual) == Top5Correct
    ensures actual == -1 || actual >= 5 ==> RaceSlotPoints(i, actual) == 0
  {
  }

  /** An exact guess always earns more than any other placing of the same driver. */
  lemma RaceExactBeatsDegraded(i: nat, actual: int)
    requires i < 5 && actual != i
    ensures 0 <= RaceSlotPoints(i, actual) < RaceSlotPoints(i, i)
  {
  }

  /** An exact sprint guess in slot i earns 8/5/3. */
  lemma SprintExactCredit(i: nat)
    requires i < 3
    ensures SprintSlotPoints(i, i) == SprintExactTable[i]
  {
  }

  /** Sprint credit for a guess that is not exact: only slots 1 and 2, only on the podium. */
  lemma SprintDegradedCredit(i: nat, actual: int)
    requires i < 3 && actual != i
    ensures i == 0 ==> SprintSlotPoints(i, actual) == 0
    ensures i == 1 && 0 <= actual < 3 ==> SprintSlotPoints(i, actual) == Sprint2ndPodium
    ensures i == 2 && 0 <= actual < 3 ==> SprintSlotPoints(i, actual) == Sprint3rdPodium
    ensures actual == -1 || actual >= 3 ==> SprintSlotPoints(i, actual) == 0
  {
  }

  /*
   * The main-race block.
   */

  /** No guesses, no position points. */
  lemma NoGuessesNoPositionPoints(official: seq<string>)
    ensures RaceBlockPoints([], official) == 0
    ensures SprintBlockPoints([], official, false) == 0
  {
  }

  /** The points of the first n slots depend only on the first n guesses. */
  lemma {:induction false} RacePositionPrefix(pred: seq<string>, other: seq<string>, official: seq<string>, n: nat)
    requires n <= |pred| && n <= |other| && pred[..n] == other[..n]
    ensures RacePositionPoints(pred, official, n) == RacePositionPoints(other, official, n)
  {
    if n > 0 {
      assert pred[n - 1] == pred[..n][n - 1] == other[..n][n - 1] == other[n - 1];
      assert pred[..n - 1] == pred[..n][..n - 1];
      assert other[..n - 1] == other[..n][..n - 1];
      RacePositionPrefix(pred, other, official, n - 1);
    }
  }

  /** Only the first five guesses are scored. */
  lemma OnlyFirstFiveScored(pred: seq<string>, official: seq<string>)
    requires |pred| >= 5
    ensures RaceBlockPoints(pred, official) == RaceBlockPoints(pred[..5], official)
  {
    assert pred[..5][..5] == pred[..5];
    RacePositionPrefix(pred, pred[..5], official, 5);
  }

  /** The greatest position points the first n slots can earn: 15, 25, 33, 38, 43. */
  function RaceSlotCeiling(n: nat): int
    requires n <= 5
  {
    if n == 0 then 0 else RaceSlotCeiling(n - 1) + RaceExactTable[n - 1]
  }

  lemma {:induction false} RacePositionBounds(pred: seq<string>, official: seq<string>, n: nat)
    requires n <= |pred| && n <= 5
    ensures 0 <= RacePositionPoints(pred, official, n) <= RaceSlotCeiling(n)
  {
    if n > 0 {
      RacePositionBounds(pred, official, n - 1);
      var a := IndexOf(official, pred[n - 1]);
      if a != n - 1 {
        RaceExactBeatsDegraded(n - 1, a);
      }
    }
  }

  /** The main-race block is worth between 0 and 63 points. */
  lemma RaceBlockBounds(pred: seq<string>, official: seq<string>)
    ensures 0 <= RaceBlockPoints(pred, official) <= 63
  {
    var n := Min(|pred|, 5);
    RacePositionBounds(pred, official, n);
    assert RaceSlotCeiling(5) == 43;
    if n < 5 {
      assert RaceSlotCeiling(n) <= 38;
      assert !IsPerfectTop5(pred, official);
    }
  }

  /** Guesses that sit exactly where the official order has them earn the whole table. */
  lemma {:induction false} RacePositionAllExact(pred: seq<string>, official: seq<string>, n: nat)
    requires n <= |pred| && n <= 5 && n <= |official| && Distinct(official)
    requires forall k :: 0 <= k < n ==> pred[k] == official[k]
    ensures RacePositionPoints(pred, official, n) == RaceSlotCeiling(n)
  {
    if n > 0 {
      RacePositionAllExact(pred, official, n - 1);
      IndexOfDistinct(official, n - 1);
    }
  }

  /** A perfect top five (with distinct official entries) scores 63. */
  lemma PerfectTopFive(pred: seq<string>, official: seq<string>)
    requires |pred| >= 5 && |official| >= 5 && Distinct(official)
    requires pred[..5] == official[..5]
    ensures RaceBlockPoints(pred, official) == 63
  {
    forall k | 0 <= k < 5
      ensures pred[k] == official[k]
    {
      assert pred[k] == pred[..5][k];
    }
    RacePositionAllExact(pred, official, 5);
  }

  /** Replacing guess k changes only slot k's points. */
  lemma {:induction false} RacePositionReplace(pred: seq<string>, official: seq<string>, n: nat, k: nat, x: string)
    requires k < n <= |pred|
    ensures RacePositionPoints(pred[k := x], official, n)
         == RacePositionPoints(pred, official, n)
            - RaceSlotPoints(k, IndexOf(official, pred[k])) + RaceSlotPoints(k, IndexOf(official, x))
  {
    if n - 1 == k {
      RacePositionPrefix(pred[k := x], pred, official, k);
    } else {
      RacePositionReplace(pred, official, n - 1, k, x);
    }
  }

  /**
   * Monotonic exactness: turning an exact guess among the first five into a
   * different driver strictly lowers the score, every other input held fixed.
   */
  lemma MonotonicExactness(p: PredictionData, r: ResultData, k: nat, x: string)
    requires r.raceResult.Some?
    requires k < |p.positions| && k < 5
    requires IndexOf(Official(r.raceResult.value), p.positions[k]) == k
    requires x != p.positions[k]
    ensures PredictionPoints(p.(positions := p.positions[k := x]), r) < PredictionPoints(p, r)
  {
    RaceBlockDegrades(p.positions, Official(r.raceResult.value), k, x);
  }

  /** The main-race block alone: losing an exact guess among the first five loses points. */
  lemma RaceBlockDegrades(pred: seq<string>, official: seq<string>, k: nat, x: string)
    requires k < |pred| && k < 5
    requires IndexOf(official, pred[k]) == k
    requires x != pred[k]
    ensures RaceBlockPoints(pred[k := x], official) < RaceBlockPoints(pred, official)
  {
    var q := pred[k := x];
    var n := Min(|pred|, 5);
    RacePositionReplace(pred, official, n, k, x);
    var a := IndexOf(official, x);
    assert a != k;
    RaceExactBeatsDegraded(k, a);
    assert IsPerfectPodium(q, official) ==> IsPerfectPodium(pred, official);
    assert IsPerfectTop5(q, official) ==> IsPerfectTop5(pred, official);
  }

  /*
   * Pole, fastest lap and the sprint block.
   */

  /**
   * The pole guess is worth exactly 10 when it equals the official pole, in
   * every other respect independently of the prediction; two nulls are equal.
   */
  lemma PoleSwing(p: PredictionData, r: ResultData, miss: Nullable)
    requires miss != r.polePosition
    ensures PredictionPoints(p.(polePositionPrediction := r.polePosition), r)
         == PredictionPoints(p.(polePositionPrediction := miss), r) + PolePosition
  {
  }

  /** A null pole guess against a null official pole is itemised as "Pole Position (null)". */
  lemma NullPoleAwarded(p: PredictionData, r: ResultData)
    requires p.polePositionPrediction == Null && r.polePosition == Null
    ensures LineItem("Qualifying", PolePosition, "Pole Position (null)") in Breakdown(p, r)
  {
    assert Breakdown(p, r)[|RaceItems(p, r)|] == LineItem("Qualifying", PolePosition, "Pole Position (null)");
  }

  /** The fastest-lap guess is worth exactly 1 when it equals the official one. */
  lemma FastestLapSwing(p: PredictionData, r: ResultData, miss: Nullable)
    requires miss != r.fastestLap
    ensures PredictionPoints(p.(fastestLapPrediction := r.fastestLap), r)
         == PredictionPoints(p.(fastestLapPrediction := miss), r) + FastestLap
  {
  }

  /**
   * The sprint block runs only with a sprint guess and a sprint result: without
   * either, the sprint guesses and the sprint pole guess change nothing.
   */
  lemma SprintNeedsBoth(p: PredictionData, r: ResultData, positions: Option<seq<string>>, pole: Nullable)
    requires p.sprintPositions.None? || r.sprintResult.None?
    requires positions.None? || r.sprintResult.None?
    ensures PredictionPoints(p.(sprintPositions := positions, sprintPolePrediction := pole), r)
         == PredictionPoints(p, r)
  {
  }

  lemma {:induction false} SprintPositionAllExact(pred: seq<string>, official: seq<string>, n: nat)
    requires n <= |pred| && n <= 3 && n <= |official| && Distinct(official)
    requires forall k :: 0 <= k < n ==> pred[k] == official[k]
    ensures SprintPositionPoints(pred, official, n) == (if n == 0 then 0 else if n == 1 then 8 else if n == 2 then 13 else 16)
  {
    if n > 0 {
      SprintPositionAllExact(pred, official, n - 1);
      IndexOfDistinct(official, n - 1);
    }
  }

  /** A perfect sprint podium scores 21, and 26 with the sprint pole. */
  lemma PerfectSprintPodiumScore(pred: seq<string>, official: seq<string>, poleHit: bool)
    requires |pred| >= 3 && |official| >= 3 && Distinct(official)
    requires pred[..3] == official[..3]
    ensures SprintBlockPoints(pred, official, poleHit) == if poleHit then 26 else 21
  {
    forall k | 0 <= k < 3
      ensures pred[k] == official[k]
    {
      assert pred[k] == pred[..3][k];
    }
    SprintPositionAllExact(pred, official, 3);
  }

  /*
   * The breakdown.
   */

  lemma {:induction false} TotalOfAppend(a: seq<LineItem>, b: seq<LineItem>)
    ensures TotalOf(a + b) == TotalOf(a) + TotalOf(b)
  {
    if b != [] {
      assert (a + b)[..|a + b| - 1] == a + b[..|b| - 1];
      TotalOfAppend(a, b[..|b| - 1]);
    } else {
      assert a + b == a;
    }
  }

  /** Every line item carries a positive number of points. */
  predicate AllPositive(items: seq<LineItem>) {
    forall k :: 0 <= k < |items| ==> items[k].points > 0
  }

  /** At most one item, worth the slot's points, and pushed only when they are positive. */
  predicate OneItemWorth(items: seq<LineItem>, points: int) {
    if items == [] then points == 0 else |items| == 1 && items[0].points == points && points > 0
  }

  lemma OneItemTotal(items: seq<LineItem>, points: int)
    requires OneItemWorth(items, points)
    ensures TotalOf(items) == points && AllPositive(items)
  {
    if items != [] {
      assert items[..0] == [];
    }
  }

  lemma RaceSlotItemsWorth(i: nat, actual: int, driver: string)
    requires i < 5
    ensures OneItemWorth(RaceSlotItems(i, actual, driver), RaceSlotPoints(i, actual))
  {
  }

  lemma SprintSlotItemsWorth(i: nat, actual: int, driver: string)
    requires i < 3
    ensures OneItemWorth(SprintSlotItems(i, actual, driver), SprintSlotPoints(i, actual))
  {
  }

  lemma AllPositiveAppend(a: seq<LineItem>, b: seq<LineItem>)
    requires AllPositive(a) && AllPositive(b)
    ensures AllPositive(a + b)
  {
    forall k | 0 <= k < |a + b|
      ensures (a + b)[k].points > 0
    {
      if k >= |a| {
        assert (a + b)[k] == b[k - |a|];
      }
    }
  }

  lemma {:induction false} RacePositionItemsAgree(pred: seq<string>, official: seq<string>, n: nat)
    requires n <= |pred| && n <= 5
    ensures TotalOf(RacePositionItems(pred, official, n)) == RacePositionPoints(pred, official, n)
    ensures AllPositive(RacePositionItems(pred, official, n))
  {
    if n > 0 {
      var earlier := RacePositionItems(pred, official, n - 1);
      var slot := RaceSlotItems(n - 1, IndexOf(official, pred[n - 1]), pred[n - 1]);
      assert RacePositionItems(pred, official, n) == earlier + slot;
      RacePositionItemsAgree(pred, official, n - 1);
      RaceSlotItemsWorth(n - 1, IndexOf(official, pred[n - 1]), pred[n - 1]);
      OneItemTotal(slot, RaceSlotPoints(n - 1, IndexOf(official, pred[n - 1])));
      TotalOfAppend(earlier, slot);
      AllPositiveAppend(earlier, slot);
    }
  }

  lemma {:induction false} SprintPositionItemsAgree(pred: seq<string>, official: seq<string>, n: nat)
    requires n <= |pred| && n <= 3
    ensures TotalOf(SprintPositionItems(pred, official, n)) == SprintPositionPoints(pred, official, n)
    ensures AllPositive(SprintPositionItems(pred, official, n))
  {
    if n > 0 {
      var earlier := SprintPositionItems(pred, official, n - 1);
      var slot := SprintSlotItems(n - 1, IndexOf(official, pred[n - 1]), pred[n - 1]);
      assert SprintPositionItems(pred, official, n) == earlier + slot;
      SprintPositionItemsAgree(pred, official, n - 1);
      SprintSlotItemsWorth(n - 1, IndexOf(official, pred[n - 1]), pred[n - 1]);
      OneItemTotal(slot, SprintSlotPoints(n - 1, IndexOf(official, pred[n - 1])));
      TotalOfAppend(earlier, slot);
      AllPositiveAppend(earlier, slot);
    }
  }

  /** The line items and the points of a block built from optional bonus lines. */
  lemma ThreePartAgree(a: seq<LineItem>, b: seq<LineItem>, c: seq<LineItem>, pa: int, pb: int, pc: int)
    requires TotalOf(a) == pa && AllPositive(a)
    requires OneItemWorth(b, pb) && OneItemWorth(c, pc)
    ensures TotalOf(a + b + c) == pa + pb + pc && AllPositive(a + b + c)
  {
    OneItemTotal(b, pb);
    OneItemTotal(c, pc);
    TotalOfAppend(a, b);
    TotalOfAppend(a + b, c);
    AllPositiveAppend(a, b);
    AllPositiveAppend(a + b, c);
  }

  lemma RaceBlockItemsAgree(pred: seq<string>, official: seq<string>)
    ensures TotalOf(RaceBlockItems(pred, official)) == RaceBlockPoints(pred, official)
    ensures AllPositive(RaceBlockItems(pred, official))
  {
    var podium := if IsPerfectPodium(pred, official) then [LineItem("Bonus", PerfectPodium, "Perfect Podium Prediction")] else [];
    var top5 := if IsPerfectTop5(pred, official) then [LineItem("Bonus", PerfectTop5, "Perfect Top 5 Prediction")] else [];
    RacePositionItemsAgree(pred, official, Min(|pred|, 5));
    ThreePartAgree(RacePositionItems(pred, official, Min(|pred|, 5)), podium, top5,
                   RacePositionPoints(pred, official, Min(|pred|, 5)),
                   if IsPerfectPodium(pred, official) then PerfectPodium else 0,
                   if IsPerfectTop5(pred, official) then PerfectTop5 else 0);
  }

  lemma SprintBlockItemsAgree(pred: seq<string>, official: seq<string>, pole: Nullable, poleHit: bool)
    ensures TotalOf(SprintBlockItems(pred, official, pole, poleHit)) == SprintBlockPoints(pred, official, poleHit)
    ensures AllPositive(SprintBlockItems(pred, official, pole, poleHit))
  {
    var podium := if IsPerfectPodium(pred, official) then [LineItem("Sprint Bonus", PerfectSprintPodium, "Perfect Sprint Podium")] else [];
    var poleItems := if poleHit then [LineItem("Sprint Qualifying", SprintPole, "Sprint Pole " + Paren(NullableText(pole)))] else [];
    SprintPositionItemsAgree(pred, official, Min(|pred|, 3));
    ThreePartAgree(SprintPositionItems(pred, official, Min(|pred|, 3)), podium, poleItems,
                   SprintPositionPoints(pred, official, Min(|pred|, 3)),
                   if IsPerfectPodium(pred, official) then PerfectSprintPodium else 0,
                   if poleHit then SprintPole else 0);
  }

  /**
   * The breakdown agrees with the scorer: its line items add up to exactly
   * the score, and none of them is worth zero.
   */
  lemma BreakdownAgrees(p: PredictionData, r: ResultData)
    ensures TotalOf(Breakdown(p, r)) == PredictionPoints(p, r)
    ensures AllPositive(Breakdown(p, r))
  {
    var main := RaceItems(p, r) + PoleItems(p, r) + LapItems(p, r);
    MainItemsAgree(p, r);
    SprintItemsAgree(p, r);
    TotalOfAppend(main, SprintItems(p, r));
    AllPositiveAppend(main, SprintItems(p, r));
  }

  /** The grand-prix, pole and fastest-lap items add up to those three parts of the score. */
  lemma MainItemsAgree(p: PredictionData, r: ResultData)
    ensures TotalOf(RaceItems(p, r) + PoleItems(p, r) + LapItems(p, r)) == RacePart(p, r) + PolePart(p, r) + LapPart(p, r)
    ensures AllPositive(RaceItems(p, r) + PoleItems(p, r) + LapItems(p, r))
  {
    if r.raceResult.Some? {
      RaceBlockItemsAgree(p.positions, Official(r.raceResult.value));
    }
    ThreePartAgree(RaceItems(p, r), PoleItems(p, r), LapItems(p, r), RacePart(p, r), PolePart(p, r), LapPart(p, r));
  }

  /** The sprint items add up to the sprint part of the score. */
  lemma SprintItemsAgree(p: PredictionData, r: ResultData)
    ensures TotalOf(SprintItems(p, r)) == SprintPart(p, r) && AllPositive(SprintItems(p, r))
  {
    if p.sprintPositions.Some? && r.sprintResult.Some? {
      SprintBlockItemsAgree(p.sprintPositions.value, Official(r.sprintResult.value),
                            p.sprintPolePrediction, p.sprintPolePrediction == r.sprintPolePosition);
    }
  }

  /*
   * Sorting in place.
   */

  /** The result as the scorers leave it: both finishing orders sorted by position. */
  function Resorted(r: ResultData): ResultData {
    r.(raceResult := if r.raceResult.Some? then Some(SortBy(r.raceResult.value, ByPosition)) else None,
       sprintResult := if r.sprintResult.Some? then Some(SortBy(r.sprintResult.value, ByPosition)) else None)
  }

  /**
   * Scoring a result whose arrays an earlier call already sorted gives the same
   * score and the same breakdown, so one result object can serve every
   * prediction of a race in turn.
   */
  lemma RescoringAfterSort(p: PredictionData, r: ResultData)
    ensures PredictionPoints(p, Resorted(r)) == PredictionPoints(p, r)
    ensures Breakdown(p, Resorted(r)) == Breakdown(p, r)
  {
    if r.raceResult.Some? {
      OfficialResorted(r.raceResult.value);
    }
    if r.sprintResult.Some? {
      OfficialResorted(r.sprintResult.value);
    }
  }

  /** The official order is ascending by position. */
  lemma OfficialOrderSorted(rs: seq<DriverPosition>)
    ensures SortedBy(SortBy(rs, ByPosition), ByPosition)
    ensures multiset(SortBy(rs, ByPosition)) == multiset(rs)
  {
    SortByIsSorted(rs, ByPosition);
    SortByPermutes(rs, ByPosition);
  }

  /*
   * Worked examples.
   */

  function Finishing(ids: seq<string>): (r: seq<DriverPosition>)
    ensures |r| == |ids|
  {
    seq(|ids|, k requires 0 <= k < |ids| => DriverPosition(ids[k], k + 1))
  }

  lemma {:induction false} FinishingSorted(ids: seq<string>)
    ensures Official(Finishing(ids)) == ids
  {
    var rs := Finishing(ids);
    assert SortedBy(rs, ByPosition);
    SortBySorted(rs, ByPosition);
  }

  function Guess(positions: seq<string>, pole: Nullable, sprint: Option<seq<string>>): PredictionData {
    PredictionData("p", "u", positions, pole, Null, sprint, Null)
  }

  function Official5(pole: Nullable): ResultData {
    ResultData(pole, Str("F"), Some(Finishing(["A", "B", "C", "D", "E"])), Str("S"), None)
  }

  /** A perfect top five scores 63 position points. */
  lemma ExamplePerfectTopFive()
    ensures PredictionPoints(Guess(["A", "B", "C", "D", "E"], Str("X"), None), Official5(Str("Y"))) == 63
  {
    FinishingSorted(["A", "B", "C", "D", "E"]);
    PerfectTopFive(["A", "B", "C", "D", "E"], ["A", "B", "C", "D", "E"]);
  }

  /** Swapping the 2nd and 3rd guesses of five distinct finishers scores 15 + 5 + 3 + 5 + 5 = 33. */
  lemma ExampleSwappedPodium(o: seq<string>)
    requires |o| == 5 && Distinct(o)
    ensures RaceBlockPoints([o[0], o[2], o[1], o[3], o[4]], o) == 33
  {
    var q := [o[0], o[2], o[1], o[3], o[4]];
    IndexOfDistinct(o, 0);
    IndexOfDistinct(o, 1);
    IndexOfDistinct(o, 2);
    IndexOfDistinct(o, 3);
    IndexOfDistinct(o, 4);
    assert IndexOf(o, q[0]) == 0 && IndexOf(o, q[1]) == 2 && IndexOf(o, q[2]) == 1;
    assert IndexOf(o, q[3]) == 3 && IndexOf(o, q[4]) == 4;
    assert RacePositionPoints(q, o, 1) == 15;
    assert RacePositionPoints(q, o, 2) == 20;
    assert RacePositionPoints(q, o, 3) == 23;
    assert RacePositionPoints(q, o, 4) == 28;
    assert RacePositionPoints(q, o, 5) == 33;
    assert !IsPerfectPodium(q, o) && !IsPerfectTop5(q, o);
  }

  /** A perfect sprint podium scores 21 (the sprint pole guess missing). */
  lemma ExamplePerfectSprint()
    ensures SprintBlockPoints(["P", "Q", "R"], Official(Finishing(["P", "Q", "R"])), false) == 21
  {
    FinishingSorted(["P", "Q", "R"]);
    PerfectSprintPodiumScore(["P", "Q", "R"], ["P", "Q", "R"], false);
  }
}
