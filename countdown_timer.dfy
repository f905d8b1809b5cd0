/**
 * The countdown to a race's prediction deadline: the time left split into
 * days, hours, minutes and seconds, the expired state, the two-digit
 * boxes it renders, and the state a one-second interval refreshes.
 * Instants are milliseconds since the epoch; the current time is a
 * parameter.
 */
module CountdownTimer {
  import opened Js

  const SecondMs: int := 1000
  const MinuteMs: int := 60 * SecondMs
  const HourMs: int := 60 * MinuteMs
  const DayMs: int := 24 * HourMs

  datatype TimeLeft = TimeLeft(days: int, hours: int, minutes: int, seconds: int, isExpired: bool)

  /** What the component renders: the closed label, or four boxes and the caption. */
  datatype View = Closed(text: string) | Boxes(days: string, hours: string, minutes: string, seconds: string)

  /** The milliseconds the parts add up to. */
  function Total(t: TimeLeft): int {
    t.days * DayMs + t.hours * HourMs + t.minutes * MinuteMs + t.seconds * SecondMs
  }

  /** The parts are in range: whole days, then hours of a day, minutes of an hour, seconds of a minute. */
  predicate InRange(t: TimeLeft) {
    t.days >= 0 && 0 <= t.hours < 24 && 0 <= t.minutes < 60 && 0 <= t.seconds < 60
  }

  /**
   * `calculateTimeLeft`. No time left gives zeros and the expired flag;
   * otherwise the parts are in range and add up to the difference less
   * its milliseconds below a second. The difference is positive there,
   * so `Math.floor` of the quotient and JavaScript's `%` agree with
   * Dafny's `/` and `%`.
   */
  function CalculateTimeLeft(target: int, now: int): (r: TimeLeft)
    ensures r.isExpired <==> target - now <= 0
    ensures r.isExpired ==> r == TimeLeft(0, 0, 0, 0, true)
    ensures !r.isExpired ==> InRange(r) && r.days == (target - now) / DayMs
    ensures !r.isExpired ==> Total(r) <= target - now < Total(r) + SecondMs
  {
    var d := target - now;
    if d <= 0 then TimeLeft(0, 0, 0, 0, true)
    else
      var r := TimeLeft(d / DayMs, (d % DayMs) / HourMs, (d % HourMs) / MinuteMs, (d % MinuteMs) / SecondMs, false);
      Decompose(d);
      r
  }

  /** The arithmetic behind `CalculateTimeLeft`, one unit at a time. */
  lemma Decompose(d: nat)
    ensures 0 <= (d % DayMs) / HourMs < 24 && 0 <= (d % HourMs) / MinuteMs < 60 && 0 <= (d % MinuteMs) / SecondMs < 60
    ensures var sum := (d / DayMs) * DayMs + ((d % DayMs) / HourMs) * HourMs + ((d % HourMs) / MinuteMs) * MinuteMs
      + ((d % MinuteMs) / SecondMs) * SecondMs;
      sum <= d < sum + SecondMs
  {
    var days, rd := d / DayMs, d % DayMs;
    var hours, rh := rd / HourMs, rd % HourMs;
    DivModUnique(d, days * 24 + hours, rh, HourMs);
    var minutes, rm := rh / MinuteMs, rh % MinuteMs;
    DivModUnique(d, (days * 24 + hours) * 60 + minutes, rm, MinuteMs);
    var seconds := rm / SecondMs;
  }

  /** `d / m` and `d % m` are the only quotient and remainder: `d == q * m + r` with `0 <= r < m`. */
  lemma DivModUnique(d: int, q: int, r: int, m: int)
    requires m > 0 && 0 <= r < m && d == q * m + r
    ensures d / m == q && d % m == r
  {
    SplitUnique(q, r, d / m, d % m, m, 1);
  }

  /**
   * The parts are the only in-range split of a positive difference into
   * whole days, hours, minutes and seconds with less than a second left
   * over.
   */
  lemma TimeLeftUnique(target: int, now: int, t: TimeLeft)
    requires target - now > 0 && InRange(t) && !t.isExpired
    requires Total(t) <= target - now < Total(t) + SecondMs
    ensures t == CalculateTimeLeft(target, now)
  {
    var r := CalculateTimeLeft(target, now);
    SplitUnique(t.days, t.hours * HourMs + t.minutes * MinuteMs + t.seconds * SecondMs,
                r.days, r.hours * HourMs + r.minutes * MinuteMs + r.seconds * SecondMs, DayMs, SecondMs);
    SplitUnique(t.hours, t.minutes * MinuteMs + t.seconds * SecondMs,
                r.hours, r.minutes * MinuteMs + r.seconds * SecondMs, HourMs, SecondMs);
    SplitUnique(t.minutes, t.seconds * SecondMs, r.minutes, r.seconds * SecondMs, MinuteMs, SecondMs);
    SplitUnique(t.seconds, 0, r.seconds, 0, SecondMs, SecondMs);
  }

  /**
   * Two splits `q * m + s` with `0 <= s <= m - slack` that lie within
   * `slack` of each other have the same quotient.
   */
  lemma SplitUnique(q1: int, s1: int, q2: int, s2: int, m: int, slack: int)
    requires 0 < slack <= m
    requires 0 <= s1 <= m - slack && 0 <= s2 <= m - slack
    requires q1 * m + s1 - slack < q2 * m + s2 < q1 * m + s1 + slack
    ensures q1 == q2
  {
    assert (q2 - q1) * m == q2 * m - q1 * m;
    assert (q1 - q2) * m == q1 * m - q2 * m;
    BelowOne(q2 - q1, m);
    BelowOne(q1 - q2, m);
  }

  /** A multiple of a positive `m` below `m` is of at most zero times `m`. */
  lemma BelowOne(x: int, m: int)
    requires m > 0 && x * m < m
    ensures x <= 0
  {
    if x >= 1 {
      MulLe(1, x, m);
    }
  }

  lemma MulLe(a: int, b: int, m: int)
    requires a <= b && m >= 0
    ensures a * m <= b * m
  {
  }

  /** Once the deadline has passed it stays passed, and the time left never grows as time goes on. */
  lemma TimeLeftMonotone(target: int, now1: int, now2: int)
    requires now1 <= now2
    ensures CalculateTimeLeft(target, now1).isExpired ==> CalculateTimeLeft(target, now2).isExpired
    ensures Total(CalculateTimeLeft(target, now2)) <= Total(CalculateTimeLeft(target, now1))
  {
    var a, b := CalculateTimeLeft(target, now1), CalculateTimeLeft(target, now2);
    if !b.isExpired {
      assert Total(b) < Total(a) + SecondMs;
      SecondsLe(Seconds(b), Seconds(a));
    }
  }

  /** The whole seconds the parts add up to. */
  function Seconds(t: TimeLeft): (r: int)
    ensures r * SecondMs == Total(t)
  {
    t.days * 86400 + t.hours * 3600 + t.minutes * 60 + t.seconds
  }

  lemma SecondsLe(x: int, y: int)
    requires x * SecondMs < y * SecondMs + SecondMs
    ensures x * SecondMs <= y * SecondMs
  {
    if x > y {
      MulLe(y + 1, x, SecondMs);
    }
  }

  predicate Decimal(s: string) {
    forall k :: 0 <= k < |s| ==> '0' <= s[k] <= '9'
  }

  /** `n.toString().padStart(2, '0')`. */
  function Pad2(n: nat): (r: string)
    ensures |r| >= 2 && (n < 100 ==> |r| == 2)
    ensures Decimal(r) && DigitsValue(r) == n
  {
    NatTextValue(n);
    var t := NatText(n);
    if n < 10 then "0" + t
    else
      assert |NatText(n / 10)| >= 1;
      assert n < 100 ==> |NatText(n / 10)| == 1;
      t
  }

  /** The closed label once expired, else the four two-digit boxes. */
  function Render(t: TimeLeft): (v: View)
    requires InRange(t)
    ensures v.Closed? <==> t.isExpired
    ensures v.Boxes? ==> Decimal(v.days) && DigitsValue(v.days) == t.days
    ensures v.Boxes? ==> Decimal(v.hours) && DigitsValue(v.hours) == t.hours
    ensures v.Boxes? ==> Decimal(v.minutes) && DigitsValue(v.minutes) == t.minutes
    ensures v.Boxes? ==> Decimal(v.seconds) && DigitsValue(v.seconds) == t.seconds
    ensures v.Boxes? ==> |v.hours| == 2 && |v.minutes| == 2 && |v.seconds| == 2 && |v.days| >= 2
  {
    if t.isExpired then Closed("Predictions Closed")
    else Boxes(Pad2(t.days), Pad2(t.hours), Pad2(t.minutes), Pad2(t.seconds))
  }

  /** The component's `timeLeft` state for one deadline. */
  class Countdown {
    const deadline: int
    var timeLeft: TimeLeft

    /** The state is always a `calculateTimeLeft` result, so its parts are in range. */
    ghost predicate Valid()
      reads this
    {
      InRange(timeLeft)
    }

    /** `useState(calculateTimeLeft(deadline))` at mount time `now`. */
    constructor (deadline: int, now: int)
      ensures Valid()
      ensures this.deadline == deadline && timeLeft == CalculateTimeLeft(deadline, now)
    {
      this.deadline := deadline;
      timeLeft := CalculateTimeLeft(deadline, now);
    }

    /** The interval's callback at time `now`: the state is recomputed for the same deadline. */
    method Tick(now: int)
      modifies this
      ensures Valid()
      ensures timeLeft == CalculateTimeLeft(deadline, now)
    {
      timeLeft := CalculateTimeLeft(deadline, now);
    }

    /** What the current state renders. */
    function Shown(): View
      requires Valid()
      reads this
    {
      Render(timeLeft)
    }
  }
}
