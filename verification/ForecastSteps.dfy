/**
 Forecast steps for a city's local day: the largest step required, and the set of
 6-hour aggregation windows an extractor would keep.  Instants are whole seconds,
 dates are day numbers and the zone is a constant offset.
 */
module ForecastSteps {
  import opened Common

  type Instant = int
  type Day = int

  const HOUR := 3600
  const DAY := 86400
  const PERIOD := 6 * HOUR
  const WINDOWS := 360

  /** Start of the local day, in UTC. */
  function DayStart(date: Day, offset: int): Instant {
    date * DAY - offset * HOUR
  }

  function DayEnd(date: Day, offset: int): Instant {
    DayStart(date, offset) + DAY
  }

  // ----- the required step -----

  function Ceil(x: real): int {
    -((-x).Floor)
  }

  /** The next multiple of six hours, forgiving a nanohour, and at least one step. */
  function CeilToNext6h(hours: real): int {
    Max(6, Ceil((hours - 0.000000001) / 6.0) * 6)
  }

  function RequiredMaxStep(issue: Instant, date: Day, offset: int): int {
    CeilToNext6h((DayEnd(date, offset) - issue) as real / 3600.0)
  }

  /** Number of whole six-hour windows needed to reach a delay. */
  function WindowsTo(seconds: int): int {
    (seconds + PERIOD - 1) / PERIOD
  }

  /** On whole seconds the forgiven nanohour never hides a second and never adds a window. */
  lemma CeilIsExact(seconds: int)
    ensures CeilToNext6h(seconds as real / 3600.0) == Max(6, WindowsTo(seconds) * 6)
  {
    var n := WindowsTo(seconds);
    var x := (seconds as real / 3600.0 - 0.000000001) / 6.0;
    assert (n - 1) * PERIOD < seconds <= n * PERIOD;
    assert (n - 1) as real < x <= n as real;
    assert (-x).Floor == -n;
  }

  // ----- the predicted steps -----

  function OverlapSeconds(windowStart: Instant, windowEnd: Instant, start: Instant, end: Instant): int {
    Max(0, Min(windowEnd, end) - Max(windowStart, start))
  }

  function WindowStart(issue: Instant, n: int): Instant {
    issue + (n - 1) * PERIOD
  }

  function WindowEnd(issue: Instant, n: int): Instant {
    issue + n * PERIOD
  }

  /** The n-th window after issue shares time with the local day. */
  predicate Touches(issue: Instant, date: Day, offset: int, n: int) {
    OverlapSeconds(WindowStart(issue, n), WindowEnd(issue, n), DayStart(date, offset), DayEnd(date, offset)) > 0
  }

  /** Steps, in hours, of the scanned windows that touch the day. */
  function Predicted(issue: Instant, date: Day, offset: int): set<int> {
    StepsUpTo(issue, date, offset, WINDOWS)
  }

  function StepsUpTo(issue: Instant, date: Day, offset: int, last: int): set<int> {
    set n: int | 1 <= n <= last && Touches(issue, date, offset, n) :: 6 * n
  }

  lemma NextStep(issue: Instant, date: Day, offset: int, n: int)
    requires n >= 1
    ensures StepsUpTo(issue, date, offset, n)
            == StepsUpTo(issue, date, offset, n - 1) + (if Touches(issue, date, offset, n) then {6 * n} else {})
  {
    var now, was := StepsUpTo(issue, date, offset, n), StepsUpTo(issue, date, offset, n - 1);
    forall s | s in was ensures s in now {
      var k :| 1 <= k <= n - 1 && Touches(issue, date, offset, k) && s == 6 * k;
    }
  }

  lemma NothingPast(issue: Instant, date: Day, offset: int, n: int)
    requires 1 <= n <= WINDOWS && WindowStart(issue, n) >= DayEnd(date, offset)
    ensures Predicted(issue, date, offset) == StepsUpTo(issue, date, offset, n - 1)
  {
    forall s | s in StepsUpTo(issue, date, offset, n - 1) ensures s in Predicted(issue, date, offset) {
      var k :| 1 <= k <= n - 1 && Touches(issue, date, offset, k) && s == 6 * k;
    }
    forall s | s in Predicted(issue, date, offset) ensures s in StepsUpTo(issue, date, offset, n - 1) {
      var k :| 1 <= k <= WINDOWS && Touches(issue, date, offset, k) && s == 6 * k;
    }
  }

  lemma PredictedHas(issue: Instant, date: Day, offset: int, n: int)
    ensures 6 * n in Predicted(issue, date, offset) <==> 1 <= n <= WINDOWS && Touches(issue, date, offset, n)
  {
    if 6 * n in Predicted(issue, date, offset) {
      var m :| 1 <= m <= WINDOWS && Touches(issue, date, offset, m) && 6 * n == 6 * m;
    }
  }

  /** The scan, which stops at the first window past the day. */
  method PredictedStepSet(issue: Instant, date: Day, offset: int) returns (steps: set<int>)
    ensures steps == Predicted(issue, date, offset)
  {
    var start, end := DayStart(date, offset), DayEnd(date, offset);
    steps := {};
    for n := 1 to WINDOWS + 1
      invariant steps == StepsUpTo(issue, date, offset, n - 1)
    {
      var windowEnd := WindowEnd(issue, n);
      var windowStart := windowEnd - PERIOD;
      if windowStart >= end {
        NothingPast(issue, date, offset, n);
        return;
      }
      NextStep(issue, date, offset, n);
      if OverlapSeconds(windowStart, windowEnd, start, end) > 0 {
        steps := steps + {6 * n};
      }
    }
  }

  predicate LargestIs(steps: set<int>, m: int) {
    m in steps && forall s :: s in steps ==> s <= m
  }

  /** The day ends after issue and within the scanned windows. */
  predicate EndsInScan(issue: Instant, date: Day, offset: int) {
    issue < DayEnd(date, offset) <= issue + WINDOWS * PERIOD
  }

  lemma WindowsReach(issue: Instant, date: Day, offset: int) returns (n: int)
    ensures RequiredMaxStep(issue, date, offset) == Max(6, 6 * n)
    ensures WindowStart(issue, n) < DayEnd(date, offset) <= WindowEnd(issue, n)
  {
    n := WindowsTo(DayEnd(date, offset) - issue);
    CeilIsExact(DayEnd(date, offset) - issue);
  }

  lemma TouchesBeforeEnd(issue: Instant, date: Day, offset: int, n: int)
    ensures Touches(issue, date, offset, n) <==>
              WindowStart(issue, n) < DayEnd(date, offset) && DayStart(date, offset) < WindowEnd(issue, n)
  {
    assert WindowEnd(issue, n) == WindowStart(issue, n) + PERIOD;
  }

  /** No predicted step lies beyond the window that reaches the day's end. */
  lemma NoneBeyond(issue: Instant, date: Day, offset: int, n: int)
    requires DayEnd(date, offset) <= WindowEnd(issue, n)
    ensures forall s :: s in Predicted(issue, date, offset) ==> s <= 6 * n
  {
    forall s | s in Predicted(issue, date, offset) ensures s <= 6 * n {
      var m :| 1 <= m <= WINDOWS && Touches(issue, date, offset, m) && s == 6 * m;
      TouchesBeforeEnd(issue, date, offset, m);
    }
  }

  /** The largest predicted step is the required one exactly for days ending inside the scan. */
  lemma LargestIsRequiredIff(issue: Instant, date: Day, offset: int)
    ensures LargestIs(Predicted(issue, date, offset), RequiredMaxStep(issue, date, offset)) <==>
        EndsInScan(issue, date, offset)
  {
    var n := WindowsReach(issue, date, offset);
    NoneBeyond(issue, date, offset, n);
    TouchesBeforeEnd(issue, date, offset, n);
    PredictedHas(issue, date, offset, n);
    if n < 1 {
      assert 6 !in Predicted(issue, date, offset);
    }
  }

  /** Predicted steps are consecutive multiples of six. */
  lemma PredictedAreConsecutive(issue: Instant, date: Day, offset: int, a: int, b: int, c: int)
    requires a in Predicted(issue, date, offset) && c in Predicted(issue, date, offset)
    requires a <= b <= c && b % 6 == 0
    ensures a % 6 == 0 && b in Predicted(issue, date, offset)
  {
    var i :| 1 <= i <= WINDOWS && Touches(issue, date, offset, i) && a == 6 * i;
    var j :| 1 <= j <= WINDOWS && Touches(issue, date, offset, j) && c == 6 * j;
    assert b == 6 * (b / 6);
    PredictedHas(issue, date, offset, b / 6);
  }

  /** Every instant of the day from issue on lies in the window of a predicted step. */
  lemma PredictedCoverTheDay(issue: Instant, date: Day, offset: int, t: Instant)
    requires EndsInScan(issue, date, offset)
    requires issue <= t && DayStart(date, offset) <= t < DayEnd(date, offset)
    ensures exists n :: 6 * n in Predicted(issue, date, offset) && WindowStart(issue, n) <= t < WindowEnd(issue, n)
  {
    var n := (t - issue) / PERIOD + 1;
    PredictedHas(issue, date, offset, n);
    assert 6 * n in Predicted(issue, date, offset) && WindowStart(issue, n) <= t < WindowEnd(issue, n);
  }

  /** And a predicted window always holds such an instant. */
  lemma PredictedHoldSomeOfTheDay(issue: Instant, date: Day, offset: int, n: int) returns (t: Instant)
    requires 6 * n in Predicted(issue, date, offset)
    ensures issue <= t && DayStart(date, offset) <= t < DayEnd(date, offset)
    ensures WindowStart(issue, n) <= t < WindowEnd(issue, n)
  {
    PredictedHas(issue, date, offset, n);
    t := Max(WindowStart(issue, n), DayStart(date, offset));
  }

  // ----- the extractor's own list of dates -----

  function LocalDate(t: Instant, offset: int): Day {
    (t + offset * HOUR) / DAY
  }

  /** The local dates of a window's first and last instant, in order. */
  function OverlapDates(windowStart: Instant, windowEnd: Instant, offset: int): seq<Day> {
    var first, last := LocalDate(windowStart, offset), LocalDate(windowEnd - 1, offset);
    if first == last then [first] else if first < last then [first, last] else [last, first]
  }

  /** A scanned step is predicted for a date exactly when the window's list holds that date. */
  lemma PredictedIffListed(issue: Instant, date: Day, offset: int, n: int)
    requires 1 <= n <= WINDOWS
    ensures 6 * n in Predicted(issue, date, offset)
            <==> date in OverlapDates(WindowStart(issue, n), WindowEnd(issue, n), offset)
  {
    PredictedHas(issue, date, offset, n);
    var start, end := WindowStart(issue, n), WindowEnd(issue, n);
    var first, last := LocalDate(start, offset), LocalDate(end - 1, offset);
    assert DayStart(first, offset) <= start < DayEnd(first, offset);
    assert DayStart(last, offset) <= end - 1 < DayEnd(last, offset);
    assert end == start + PERIOD;
    assert first <= last <= first + 1;
    assert date in OverlapDates(start, end, offset) <==> date == first || date == last;
  }
}
