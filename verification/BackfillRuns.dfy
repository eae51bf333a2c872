/**
 Any schedule of replay slices, interleaved with live observations, against one
 uninterrupted scan of the same history.
 */
module BackfillRuns {
  import opened Common
  import opened Quotes
  import opened Detector
  import opened DetectorRuns
  import opened Backfill

  /** The fixed inputs of one position's replay. */
  datatype Replay = Replay(p: Position, cutoff: Time, history: seq<HistoryRow>, floor: real)

  ghost predicate ValidReplay(x: Replay) {
    IsHistory(x.history, x.p, x.cutoff)
  }

  /** Row number of the first crossing of the history, or its length. */
  function FirstBelow(history: seq<HistoryRow>, floor: real): (k: nat)
    ensures k <= |history|
    ensures forall i :: 0 <= i < k ==> !IsBelow(history[i].quote, floor)
    ensures k < |history| ==> IsBelow(history[k].quote, floor)
  {
    if history == [] then 0
    else if IsBelow(history[0].quote, floor) then 0
    else 1 + FirstBelow(history[1..], floor)
  }

  lemma {:induction false} PendingIsSuffix(history: seq<HistoryRow>, k: nat, cursor: Key)
    requires k <= |history|
    requires forall i :: 0 <= i < k ==> !Before(cursor, history[i].key)
    requires forall i :: k <= i < |history| ==> Before(cursor, history[i].key)
    ensures Pending(history, cursor) == history[k..]
    decreases |history|
  {
    if history != [] {
      PendingIsSuffix(history[1..], if k == 0 then 0 else k - 1, cursor);
    }
  }

  /** A stored state that has seen exactly the first `k` rows and no crossing among them. */
  ghost predicate SeenPrefix(st: Option<BackfillState>, x: Replay, k: nat) {
    && k <= FirstBelow(x.history, x.floor)
    && (st.None? ==> k == 0)
    && (st.Some? ==>
          && st.value.fingerprint == FingerprintOf(x.p)
          && !st.value.completed && !st.value.below
          && 0 < k && st.value.last == Some(x.history[k - 1].key))
  }

  ghost predicate Done(st: Option<BackfillState>, x: Replay) {
    st.Some? && st.value.fingerprint == FingerprintOf(x.p) && st.value.completed
  }

  lemma PendingAfterPrefix(st: Option<BackfillState>, x: Replay, k: nat)
    requires ValidReplay(x) && SeenPrefix(st, x, k)
    ensures Pending(x.history, CursorOf(st, x.p, x.cutoff)) == x.history[k..]
  {
    PendingIsSuffix(x.history, k, CursorOf(st, x.p, x.cutoff));
  }

  lemma ReadingStep(s: Scan, q: Quote, floor: real)
    requires !s.below && !s.found
    ensures var next := ScanStep(s, Reconcile(q), floor);
            && next.processed == s.processed + 1
            && (next.found <==> IsBelow(q, floor))
            && (next.found ==> next.bid == Some(Reconcile(q).bid))
            && (!next.found ==> !next.below)
  {
  }

  /** Scanning rows `k..` of the history from a clean state stops at the first crossing, if it gets that far. */
  lemma {:induction false} ScanFindsFirst(history: seq<HistoryRow>, first: nat, k: nat, page: seq<HistoryRow>, n: nat,
                                          floor: real, bid: Option<real>)
    requires k <= first <= |history| && k + |page| <= |history| && page == history[k..k + |page|] && n <= |page|
    requires forall i :: 0 <= i < first ==> !IsBelow(history[i].quote, floor)
    requires first < |history| ==> IsBelow(history[first].quote, floor)
    ensures var s := ScanRows(page, n, floor, false, bid);
            && (s.found <==> first < k + n)
            && (s.found ==> s.processed == first - k + 1 && s.bid == Some(Reconcile(history[first].quote).bid))
            && (!s.found ==> !s.below)
  {
    if n > 0 {
      ScanFindsFirst(history, first, k, page, n - 1, floor, bid);
      var s := ScanRows(page, n - 1, floor, false, bid);
      if !s.found {
        assert page[n - 1] == history[k + n - 1];
        ReadingStep(s, page[n - 1].quote, floor);
      }
    }
  }

  /** The crossing event a finished replay leaves in the run, if the history crosses at all. */
  function ReplayedFirst(x: Replay): seq<Event> {
    var first := FirstBelow(x.history, x.floor);
    if first < |x.history| then [Replayed(x.p, x.history[first].quote)] else []
  }

  /** What a page's scan means for the stored state, given where the first crossing of the history lies. */
  lemma PageStateStep(x: Replay, k: nat, page: seq<HistoryRow>, n: nat, s: Scan, limit: nat)
    requires k <= FirstBelow(x.history, x.floor) && k + |page| <= |x.history| && page == x.history[k..k + |page|]
    requires |page| < limit ==> k + |page| == |x.history|
    requires 0 < n <= |page| && 0 < s.processed <= n
    requires s.found <==> FirstBelow(x.history, x.floor) < k + n
    requires !s.found ==> s.processed == n && !s.below
    ensures var st' := Some(PageState(FingerprintOf(x.p), page, s, limit));
            if s.found then Done(st', x)
            else SeenPrefix(st', x, k + n) || (Done(st', x) && FirstBelow(x.history, x.floor) == |x.history|)
  {
    if !s.found {
      assert page[n - 1] == x.history[k + n - 1];
    }
  }

  /** What one page of an unfinished replay leads to. */
  lemma PageStep(m: Memory, st: Option<BackfillState>, x: Replay, k: nat, page: seq<HistoryRow>, n: nat, limit: nat)
    requires SeenPrefix(st, x, k)
    requires page != [] && n <= |page| && k + |page| <= |x.history| && page == x.history[k..k + |page|]
    requires |page| < limit ==> k + |page| == |x.history|
    ensures var (m', st') := PageSpec(m, st, x.p, page, n, x.floor, limit);
            var first := FirstBelow(x.history, x.floor);
            if n == 0 then m' == m && st' == st
            else if first < k + n then
              Done(st', x) && m' == Crossed(m, x.history[first], Some(Reconcile(x.history[first].quote).bid), x.floor)
            else m' == m && (SeenPrefix(st', x, k + n) || (Done(st', x) && first == |x.history|))
  {
    var bid := if Resumed(st, x.p) then st.value.bid else None;
    assert Resumed(st, x.p) ==> !st.value.below;
    var s := ScanRows(page, n, x.floor, false, bid);
    if n > 0 {
      var first := FirstBelow(x.history, x.floor);
      ScanFindsFirst(x.history, first, k, page, n, x.floor, bid);
      PageStateStep(x, k, page, n, s, limit);
      if s.found {
        assert page[s.processed - 1] == x.history[first];
      }
    }
  }

  lemma CrossedIsReplayed(m: Memory, x: Replay)
    requires ValidReplay(x) && FirstBelow(x.history, x.floor) < |x.history|
    ensures var row := x.history[FirstBelow(x.history, x.floor)];
            ReplayedFirst(x) == [Replayed(x.p, row.quote)]
            && Apply(m, ReplayedFirst(x)[0], x.floor) == Crossed(m, row, Some(Reconcile(row.quote).bid), x.floor)
  {
    var row := x.history[FirstBelow(x.history, x.floor)];
    assert WithinExposure(x.p, row.quote.seenAt);
  }

  /** A finished slice: the replay is done and the memory shows the first crossing, if there is one. */
  ghost predicate Finishes(m: Memory, m': Memory, st': Option<BackfillState>, x: Replay) {
    Done(st', x) && m' == if ReplayedFirst(x) == [] then m else Apply(m, ReplayedFirst(x)[0], x.floor)
  }

  /** The outcome of a slice: finished, or still a seen prefix, longer if a row was looked at. */
  ghost predicate Outcome(m: Memory, k: nat, after: (Memory, Option<BackfillState>), x: Replay, cut: Cut, k': nat) {
    || Finishes(m, after.0, after.1, x)
    || (after.0 == m && SeenPrefix(after.1, x, k') && k <= k' && (cut.Deadline? && cut.rows > 0 ==> k < k'))
  }

  lemma PageOutcome(m: Memory, st: Option<BackfillState>, x: Replay, k: nat, page: seq<HistoryRow>, limit: nat,
                    cut: Cut)
    returns (k': nat)
    requires ValidReplay(x) && SeenPrefix(st, x, k) && cut.Deadline?
    requires page != [] && k + |page| <= |x.history| && page == x.history[k..k + |page|]
    requires |page| < limit ==> k + |page| == |x.history|
    ensures Outcome(m, k, PageSpec(m, st, x.p, page, Min(cut.rows, |page|), x.floor, limit), x, cut, k')
  {
    var n := Min(cut.rows, |page|);
    k' := k + n;
    PageStep(m, st, x, k, page, n, limit);
    if FirstBelow(x.history, x.floor) < k + n {
      CrossedIsReplayed(m, x);
    }
  }

  lemma SliceIsPage(m: Memory, st: Option<BackfillState>, x: Replay, k: nat, limit: nat, cut: Cut)
    requires ValidReplay(x) && SeenPrefix(st, x, k) && cut.Deadline?
    ensures var page := Page(x.history[k..], limit);
            SliceSpec(m, st, x.p, x.cutoff, x.history, x.floor, limit, cut)
            == if page == [] then (m, Some(Finished(st, FingerprintOf(x.p))))
               else PageSpec(m, st, x.p, page, Min(cut.rows, |page|), x.floor, limit)
  {
    PendingAfterPrefix(st, x, k);
  }

  lemma EmptyPageFinishes(m: Memory, st: Option<BackfillState>, x: Replay, k: nat, limit: nat)
    requires SeenPrefix(st, x, k) && limit > 0 && Page(x.history[k..], limit) == []
    ensures Finishes(m, m, Some(Finished(st, FingerprintOf(x.p))), x)
  {
    assert FirstBelow(x.history, x.floor) == |x.history|;
  }

  /** An interrupted query leaves everything as it was. */
  lemma InterruptedSlice(m: Memory, st: Option<BackfillState>, x: Replay, k: nat, limit: nat, cut: Cut)
    requires ValidReplay(x) && SeenPrefix(st, x, k) && !cut.Deadline?
    ensures SliceSpec(m, st, x.p, x.cutoff, x.history, x.floor, limit, cut) == (m, st)
  {
  }

  /** The page after a seen prefix, unless it is empty, meets what `PageOutcome` asks for. */
  lemma PageFits(history: seq<HistoryRow>, k: nat, limit: nat)
    requires k <= |history| && limit > 0
    ensures var page := Page(history[k..], limit);
            && k + |page| <= |history| && page == history[k..k + |page|]
            && (|page| < limit ==> k + |page| == |history|)
  {
  }

  lemma UncutSlice(m: Memory, st: Option<BackfillState>, x: Replay, k: nat, limit: nat, cut: Cut) returns (k': nat)
    requires ValidReplay(x) && SeenPrefix(st, x, k) && limit > 0 && cut.Deadline?
    ensures Outcome(m, k, SliceSpec(m, st, x.p, x.cutoff, x.history, x.floor, limit, cut), x, cut, k')
  {
    k' := k;
    SliceIsPage(m, st, x, k, limit, cut);
    PageFits(x.history, k, limit);
    var page := Page(x.history[k..], limit);
    if page == [] {
      EmptyPageFinishes(m, st, x, k, limit);
    } else {
      k' := PageOutcome(m, st, x, k, page, limit, cut);
    }
  }

  /** One slice of an unfinished replay. */
  lemma SliceStep(m: Memory, st: Option<BackfillState>, x: Replay, k: nat, limit: nat, cut: Cut) returns (k': nat)
    requires ValidReplay(x) && SeenPrefix(st, x, k) && limit > 0
    ensures Outcome(m, k, SliceSpec(m, st, x.p, x.cutoff, x.history, x.floor, limit, cut), x, cut, k')
  {
    if cut.Deadline? {
      k' := UncutSlice(m, st, x, k, limit, cut);
    } else {
      k' := k;
      InterruptedSlice(m, st, x, k, limit, cut);
    }
  }

  // ----- schedules -----

  datatype Step = Slice(limit: nat, cut: Cut) | Live(event: Event)

  predicate ValidStep(s: Step) {
    match s
    case Slice(limit, _) => limit > 0
    case Live(event) => !event.Replayed?
  }

  predicate ValidSchedule(steps: seq<Step>) {
    forall i :: 0 <= i < |steps| ==> ValidStep(steps[i])
  }

  /** Memory and replay state after a schedule, from an empty database. */
  function Run(x: Replay, steps: seq<Step>): (Memory, Option<BackfillState>) {
    if steps == [] then (EMPTY, None)
    else
      var (m, st) := Run(x, steps[..|steps| - 1]);
      match steps[|steps| - 1]
      case Slice(limit, cut) => SliceSpec(m, st, x.p, x.cutoff, x.history, x.floor, limit, cut)
      case Live(event) => (Apply(m, event, x.floor), st)
  }

  function LiveEvents(steps: seq<Step>): seq<Event> {
    if steps == [] then []
    else
      var last := steps[|steps| - 1];
      LiveEvents(steps[..|steps| - 1]) + if last.Live? then [last.event] else []
  }

  /** The run's memory is some interleaving of the live events and the replay's one crossing. */
  ghost predicate Explained(x: Replay, steps: seq<Step>, trace: seq<Event>) {
    var (m, st) := Run(x, steps);
    && m == After(trace, x.floor)
    && (|| (exists k :: SeenPrefix(st, x, k) && trace == LiveEvents(steps))
        || (&& Done(st, x)
            && exists i :: 0 <= i <= |LiveEvents(steps)|
                           && trace == LiveEvents(steps)[..i] + ReplayedFirst(x) + LiveEvents(steps)[i..]))
  }

  lemma AfterSnoc(trace: seq<Event>, e: Event, floor: real)
    ensures After(trace + [e], floor) == Apply(After(trace, floor), e, floor)
  {
    assert (trace + [e])[..|trace|] == trace;
  }

  lemma LiveExplained(x: Replay, front: seq<Step>, event: Event, before: seq<Event>)
    requires Explained(x, front, before)
    ensures Explained(x, front + [Live(event)], before + [event])
  {
    var steps := front + [Live(event)];
    assert steps[..|front|] == front;
    AfterSnoc(before, event, x.floor);
    var st := Run(x, front).1;
    var live := LiveEvents(front);
    assert LiveEvents(steps) == live + [event];
    if i :| 0 <= i <= |live| && Done(st, x) && before == live[..i] + ReplayedFirst(x) + live[i..] {
      InterleavedSnoc(live, ReplayedFirst(x), i, event);
      assert before + [event] == LiveEvents(steps)[..i] + ReplayedFirst(x) + LiveEvents(steps)[i..];
    }
  }

  lemma InterleavedSnoc(live: seq<Event>, middle: seq<Event>, i: nat, event: Event)
    requires i <= |live|
    ensures var more := live + [event];
            (live[..i] + middle + live[i..]) + [event] == more[..i] + middle + more[i..]
  {
    var more := live + [event];
    assert more[..i] == live[..i] && more[i..] == live[i..] + [event];
  }

  lemma SliceExplained(x: Replay, front: seq<Step>, limit: nat, cut: Cut, before: seq<Event>)
    returns (trace: seq<Event>)
    requires ValidReplay(x) && limit > 0 && Explained(x, front, before)
    ensures Explained(x, front + [Slice(limit, cut)], trace)
  {
    var steps := front + [Slice(limit, cut)];
    assert steps[..|front|] == front;
    var live := LiveEvents(front);
    assert LiveEvents(steps) == live;
    var (m, st) := Run(x, front);
    trace := before;
    if k :| SeenPrefix(st, x, k) && before == live {
      var k' := SliceStep(m, st, x, k, limit, cut);
      var (m', st') := Run(x, steps);
      if Finishes(m, m', st', x) {
        trace := live + ReplayedFirst(x);
        var i := |live|;
        assert trace == live[..i] + ReplayedFirst(x) + live[i..];
        if ReplayedFirst(x) != [] {
          AfterSnoc(before, ReplayedFirst(x)[0], x.floor);
        }
      }
    }
  }

  lemma {:induction false} ScheduleExplained(x: Replay, steps: seq<Step>) returns (trace: seq<Event>)
    requires ValidReplay(x) && ValidSchedule(steps)
    ensures Explained(x, steps, trace)
  {
    if steps == [] {
      trace := [];
      assert SeenPrefix(None, x, 0);
      return;
    }
    var front, last := steps[..|steps| - 1], steps[|steps| - 1];
    assert steps == front + [last];
    assert ValidStep(last);
    var before := ScheduleExplained(x, front);
    match last {
      case Live(event) =>
        LiveExplained(x, front, event, before);
        trace := before + [event];
      case Slice(limit, cut) =>
        trace := SliceExplained(x, front, limit, cut, before);
    }
  }

  /** The clocks of every crossing in the history, in whatever page it lies. */
  ghost function HistoryTimes(x: Replay): set<Time> {
    set i | 0 <= i < |x.history| && IsBelow(x.history[i].quote, x.floor) :: x.history[i].key.at
  }

  ghost predicate IsEarliest(t: Option<Time>, times: set<Time>) {
    && (t.None? <==> times == {})
    && (t.Some? ==> t.value in times && forall u :: u in times ==> t.value <= u)
  }

  /** `longer` reaches the same quote state as `shorter`, and crosses at `times` besides. */
  ghost predicate AddsTimes(longer: seq<Event>, shorter: seq<Event>, times: set<Time>, floor: real) {
    && After(longer, floor).quote == After(shorter, floor).quote
    && CrossingTimes(longer, floor) == CrossingTimes(shorter, floor) + times
  }

  lemma AddsTimesSnoc(longer: seq<Event>, shorter: seq<Event>, times: set<Time>, e: Event, floor: real)
    requires AddsTimes(longer, shorter, times, floor)
    ensures AddsTimes(longer + [e], shorter + [e], times, floor)
  {
    RunSnoc(longer, e, floor);
    RunSnoc(shorter, e, floor);
    SameQuoteSameStep(After(longer, floor), After(shorter, floor), e, floor);
  }

  /**
   A replayed crossing in the middle of a run leaves the quote state, and with it every
   later crossing's clock, as it was, and adds only its own time.
   */
  lemma {:induction false} ReplayAddsItsTime(live: seq<Event>, middle: seq<Event>, i: nat, floor: real)
    requires i <= |live| && (middle == [] || (|middle| == 1 && middle[0].Replayed?))
    ensures AddsTimes(live[..i] + middle + live[i..], live, QuoteTimes(middle, floor), floor)
    decreases |live|
  {
    if i == |live| {
      assert live[..i] + middle + live[i..] == live + middle;
      ReplayLast(live, middle, floor);
    } else {
      var n := |live| - 1;
      var front, e := live[..n], live[n];
      assert live == front + [e];
      ReplayAddsItsTime(front, middle, i, floor);
      AddsTimesSnoc(front[..i] + middle + front[i..], front, QuoteTimes(middle, floor), e, floor);
      InterleavedSnoc(front, middle, i, e);
    }
  }

  lemma RunSnoc(events: seq<Event>, e: Event, floor: real)
    ensures After(events + [e], floor) == Apply(After(events, floor), e, floor)
    ensures CrossingTimes(events + [e], floor)
            == CrossingTimes(events, floor)
               + (if IsCrossing(e, floor) then {CrossingClock(After(events, floor), e, floor)} else {})
  {
    assert (events + [e])[..|events|] == events;
  }

  lemma ReplayLast(live: seq<Event>, middle: seq<Event>, floor: real)
    requires middle == [] || (|middle| == 1 && middle[0].Replayed?)
    ensures After(live + middle, floor).quote == After(live, floor).quote
    ensures CrossingTimes(live + middle, floor) == CrossingTimes(live, floor) + QuoteTimes(middle, floor)
  {
    if middle == [] {
      assert live + middle == live && QuoteTimes(middle, floor) == {};
    } else {
      assert middle == [middle[0]];
      RunSnoc(live, middle[0], floor);
      assert QuoteTimes(middle, floor) == if IsCrossing(middle[0], floor) then {middle[0].q.seenAt.value} else {};
    }
  }

  /** What an event does to the quote state, and the clock of its crossing, depend on the quote state alone. */
  lemma SameQuoteSameStep(a: Memory, b: Memory, e: Event, floor: real)
    requires a.quote == b.quote
    ensures Apply(a, e, floor).quote == Apply(b, e, floor).quote
    ensures IsCrossing(e, floor) ==> CrossingClock(a, e, floor) == CrossingClock(b, e, floor)
  {
  }

  lemma FirstIsEarliest(x: Replay, times: set<Time>, t: Option<Time>)
    requires ValidReplay(x)
    requires IsEarliest(t, times + QuoteTimes(ReplayedFirst(x), x.floor))
    ensures IsEarliest(t, times + HistoryTimes(x))
  {
    var first := FirstBelow(x.history, x.floor);
    if first < |x.history| {
      var event := Replayed(x.p, x.history[first].quote);
      assert ReplayedFirst(x) == [event] && IsCrossing(event, x.floor);
      assert x.history[first].key.at in QuoteTimes(ReplayedFirst(x), x.floor);
      assert x.history[first].key.at in HistoryTimes(x);
      assert forall u :: u in HistoryTimes(x) ==> x.history[first].key.at <= u;
      assert forall u :: u in QuoteTimes(ReplayedFirst(x), x.floor) ==> u == x.history[first].key.at;
    } else {
      assert HistoryTimes(x) == {};
      assert QuoteTimes(ReplayedFirst(x), x.floor) == {};
    }
  }

  ghost predicate ReplayFromBook(x: Replay, book: Book) {
    forall i :: 0 <= i < |x.history| ==>
                  x.history[i].quote.evidence in book && book[x.history[i].quote.evidence] == x.history[i].quote
  }

  lemma TraceFromBook(x: Replay, live: seq<Event>, trace: seq<Event>, book: Book)
    requires ReplayFromBook(x, book) && AllFromBook(live, book)
    requires forall e :: e in trace <==> e in live || e in ReplayedFirst(x)
    ensures AllFromBook(trace, book)
  {
    forall j | 0 <= j < |trace| ensures FromBook(trace[j], book) {
      assert trace[j] in trace;
    }
  }

  /**
   Whatever the page sizes, deadline cuts and interruptions, a replay that reaches
   completed leaves the below-floor incident at the earliest crossing of the live
   events, corroborated ones included, and the whole history together, as one
   uninterrupted scan would.
   */
  lemma CompletedReplayAnchors(x: Replay, steps: seq<Step>, book: Book)
    requires ValidReplay(x) && ReplayFromBook(x, book) && ValidSchedule(steps)
    requires AllFromBook(LiveEvents(steps), book)
    requires Done(Run(x, steps).1, x)
    ensures IsEarliest(FloorTime(Run(x, steps).0), CrossingTimes(LiveEvents(steps), x.floor) + HistoryTimes(x))
  {
    var trace := ScheduleExplained(x, steps);
    var live := LiveEvents(steps);
    var i :| 0 <= i <= |live| && trace == live[..i] + ReplayedFirst(x) + live[i..];
    assert live == live[..i] + live[i..];
    assert forall e :: e in trace <==> e in live || e in ReplayedFirst(x);
    TraceFromBook(x, live, trace, book);
    FloorAnchor(trace, x.floor, book);
    ReplayAddsItsTime(live, ReplayedFirst(x), i, x.floor);
    FloorTimeOf(After(trace, x.floor), CrossingTimes(trace, x.floor));
    FirstIsEarliest(x, CrossingTimes(live, x.floor), FloorTime(After(trace, x.floor)));
  }

  /** With no live events in between, the resulting memory is that of one slice over the whole history. */
  lemma PagingRefinesOneScan(x: Replay, steps: seq<Step>)
    requires ValidReplay(x) && ValidSchedule(steps) && LiveEvents(steps) == []
    requires Done(Run(x, steps).1, x)
    ensures var whole := SliceSpec(EMPTY, None, x.p, x.cutoff, x.history, x.floor, |x.history| + 1,
                                   Deadline(|x.history| + 1));
            Done(whole.1, x) && Run(x, steps).0 == whole.0
  {
    var trace := ScheduleExplained(x, steps);
    assert trace == ReplayedFirst(x);
    WholeScanReplays(x);
  }

  /** One slice over the whole history leaves its first crossing, if there is one. */
  lemma WholeScanReplays(x: Replay)
    requires ValidReplay(x)
    ensures var whole := SliceSpec(EMPTY, None, x.p, x.cutoff, x.history, x.floor, |x.history| + 1,
                                   Deadline(|x.history| + 1));
            Done(whole.1, x) && whole.0 == After(ReplayedFirst(x), x.floor)
  {
    assert SeenPrefix(None, x, 0);
    var _ := SliceStep(EMPTY, None, x, 0, |x.history| + 1, Deadline(|x.history| + 1));
    WholeScanFinishes(x);
    AfterReplayedFirst(x);
  }

  lemma AfterReplayedFirst(x: Replay)
    ensures After(ReplayedFirst(x), x.floor)
            == if ReplayedFirst(x) == [] then EMPTY else Apply(EMPTY, ReplayedFirst(x)[0], x.floor)
  {
    if ReplayedFirst(x) != [] {
      AfterSnoc([], ReplayedFirst(x)[0], x.floor);
      assert [] + ReplayedFirst(x) == ReplayedFirst(x);
    }
  }

  lemma WholeScanFinishes(x: Replay)
    requires ValidReplay(x)
    ensures Done(SliceSpec(EMPTY, None, x.p, x.cutoff, x.history, x.floor, |x.history| + 1,
                           Deadline(|x.history| + 1)).1, x)
  {
    assert SeenPrefix(None, x, 0);
    PendingAfterPrefix(None, x, 0);
    assert x.history[0..] == x.history;
  }

  /** Slices that are neither interrupted nor cut before their first row. */
  function Productive(steps: seq<Step>): nat {
    if steps == [] then 0
    else
      var last := steps[|steps| - 1];
      Productive(steps[..|steps| - 1])
      + if last.Slice? && last.cut.Deadline? && last.cut.rows > 0 then 1 else 0
  }

  /** Each such slice moves the cursor or finishes, so one more than the history's length always finishes. */
  lemma {:induction false} ProductiveSlicesFinish(x: Replay, steps: seq<Step>) returns (k: nat)
    requires ValidReplay(x) && ValidSchedule(steps)
    ensures Done(Run(x, steps).1, x) || (SeenPrefix(Run(x, steps).1, x, k) && Productive(steps) <= k)
    ensures Productive(steps) > |x.history| ==> Done(Run(x, steps).1, x)
  {
    k := 0;
    if steps == [] {
      return;
    }
    var front, last := steps[..|steps| - 1], steps[|steps| - 1];
    k := ProductiveSlicesFinish(x, front);
    var (m, st) := Run(x, front);
    if last.Slice? && !Done(st, x) {
      k := SliceStep(m, st, x, k, last.limit, last.cut);
    }
  }

  /** A state left for another exposure counts for nothing: the slice does what it would do with none. */
  lemma ChangedExposureRestarts(m: Memory, st: BackfillState, p: Position, cutoff: Time, history: seq<HistoryRow>,
                                floor: real, limit: nat, cut: Cut)
    requires st.fingerprint != FingerprintOf(p)
    ensures var (kept, left) := SliceSpec(m, Some(st), p, cutoff, history, floor, limit, cut);
            var (scratch, started) := SliceSpec(m, None, p, cutoff, history, floor, limit, cut);
            && kept == scratch
            && (if started.None? then left == Some(st)
                else left.Some? && left.value.fingerprint == FingerprintOf(p)
                     && left.value.completed == started.value.completed
                     && (started.value.last.Some? ==> left == started))
  {
  }
}
