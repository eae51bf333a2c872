/**
 The revalidator re-judges queued hard incidents from their crossing evidence, a
 bounded slice of the queue at a time behind a wrapping cursor.
 */
module Revalidation {
  import opened Common
  import opened Quotes
  import opened Detector
  import opened DetectorRuns

  datatype Reason = OutsideExposure | ResidualDust | QuoteUnusable(reading: Reading) | BelowFloorRefuted | NoBidRefuted

  /** Why an incident is retired, or nothing; missing facts and an out-of-range floor keep it. */
  function Verdict(row: Incident, p: Option<Position>, q: Option<Quote>): Option<Reason> {
    if p.None? || q.None? || !(0.0 < row.floor < 1.0) then None
    else if !WithinExposure(p.value, q.value.seenAt) then Some(OutsideExposure)
    else if p.value.open && !p.value.material then Some(ResidualDust)
    else
      var reading := Reconcile(q.value);
      if reading.Incomplete? || reading.Conflict? then Some(QuoteUnusable(reading))
      else if row.kind == BelowFloor && !(reading.Executable? && reading.bid < row.floor) then Some(BelowFloorRefuted)
      else if row.kind == NoBid && !reading.NoBidReading? then Some(NoBidRefuted)
      else None
  }

  /**
   Exactly when an incident is kept: a fact is missing or its floor is out of range, or its
   evidence lies inside the exposure, the position is no residual dust, and the evidence
   still reads as the incident claims.
   */
  lemma KeptIff(row: Incident, p: Option<Position>, q: Option<Quote>)
    ensures Verdict(row, p, q).None?
            <==> || p.None? || q.None? || row.floor <= 0.0 || row.floor >= 1.0
                 || (&& WithinExposure(p.value, q.value.seenAt) && (p.value.open ==> p.value.material)
                     && (if row.kind == NoBid then IsNoBid(q.value) else IsBelow(q.value, row.floor)))
  {
  }

  // ----- detector and revalidator agree -----

  /** A run in which each event is judged at the floor then configured. */
  function AfterFloors(events: seq<Event>, floors: seq<real>): Memory
    requires |floors| == |events|
  {
    if events == [] then EMPTY
    else
      var n := |events| - 1;
      Apply(AfterFloors(events[..n], floors[..n]), events[n], floors[n])
  }

  predicate NeverRaised(floors: seq<real>) {
    forall i, j :: 0 <= i < j < |floors| ==> floors[j] <= floors[i]
  }

  /** A row whose evidence still shows, inside the exposure, what the row claims. */
  ghost predicate Witnessed(row: Incident, p: Position, book: Book, floor: real) {
    && row.crossing in book
    && WithinExposure(p, book[row.crossing].seenAt)
    && floor <= row.floor
    && (row.kind == BelowFloor ==> IsBelow(book[row.crossing], row.floor))
    && (row.kind == NoBid ==> IsNoBid(book[row.crossing]))
  }

  ghost predicate AllWitnessed(rows: seq<Incident>, p: Position, book: Book, floor: real) {
    forall i :: 0 <= i < |rows| ==> Witnessed(rows[i], p, book, floor)
  }

  lemma InsertWitnessed(rows: seq<Incident>, q: Quote, at: Time, bid: Option<real>, floor: real, allowNew: bool,
                        p: Position, book: Book)
    requires AllWitnessed(rows, p, book, floor)
    requires q.evidence in book && book[q.evidence] == q && WithinExposure(p, q.seenAt)
    requires if bid.Some? then IsBelow(q, floor) else IsNoBid(q)
    ensures AllWitnessed(InsertSpec(rows, q.evidence, at, bid, floor, allowNew).0, p, book, floor)
  {
  }

  lemma CrossWitnessed(m: Memory, q: Quote, floor: real, at: Time, p: Position, book: Book)
    requires AllWitnessed(m.rows, p, book, floor)
    requires q.evidence in book && book[q.evidence] == q && WithinExposure(p, q.seenAt)
    ensures AllWitnessed(Cross(m, q, floor, at).0, p, book, floor)
  {
    if IsBelow(q, floor) {
      InsertWitnessed(m.rows, q, at, Some(Reconcile(q).bid), floor, false, p, book);
    } else if IsNoBid(q) {
      InsertWitnessed(m.rows, q, at, None, floor, !EpisodeOpenFor(m) && HasKind(m.rows, NoBid), p, book);
    }
  }

  lemma StepWitnessed(m: Memory, e: Event, floor: real, p: Position, book: Book)
    requires AllWitnessed(m.rows, p, book, floor)
    requires FromBook(e, book) && (!e.Restated? ==> e.p == p)
    ensures AllWitnessed(Apply(m, e, floor).rows, p, book, floor)
  {
    match e {
      case Observed(_, q, _, corroborated) =>
        if WithinExposure(p, q.seenAt) {
          CrossWitnessed(m, q, floor, ArrivalOf(Clock(m), p, q, floor, corroborated).at, p, book);
        }
      case Replayed(_, q) =>
        if IsCrossing(e, floor) {
          InsertWitnessed(m.rows, q, q.seenAt.value, Some(Reconcile(q).bid), floor, false, p, book);
        }
      case Restated(_, _, _) =>
    }
  }

  lemma {:induction false} RunWitnessed(events: seq<Event>, floors: seq<real>, p: Position, book: Book)
    requires |floors| == |events| && NeverRaised(floors) && AllFromBook(events, book)
    requires forall i :: 0 <= i < |events| ==> events[i].Restated? || events[i].p == p
    ensures events != [] ==> AllWitnessed(AfterFloors(events, floors).rows, p, book, floors[|floors| - 1])
  {
    if events != [] {
      var n := |events| - 1;
      RunWitnessed(events[..n], floors[..n], p, book);
      var m := AfterFloors(events[..n], floors[..n]);
      assert AllWitnessed(m.rows, p, book, floors[n]) by {
        if n > 0 {
          assert floors[n] <= floors[n - 1];
        }
      }
      StepWitnessed(m, events[n], floors[n], p, book);
    }
  }

  /**
   With unchanged position and evidence facts, and a floor that is fixed or only
   ever lowered, revalidation retires no incident the detector created or re-anchored.
   */
  lemma RevalidatorAgrees(events: seq<Event>, floors: seq<real>, p: Position, book: Book, i: nat)
    requires |floors| == |events| && NeverRaised(floors) && AllFromBook(events, book)
    requires forall k :: 0 <= k < |events| ==> events[k].Restated? || events[k].p == p
    requires p.open ==> p.material
    requires i < |AfterFloors(events, floors).rows|
    ensures var row := AfterFloors(events, floors).rows[i];
            row.crossing in book && Verdict(row, Some(p), Some(book[row.crossing])).None?
  {
    RunWitnessed(events, floors, p, book);
    var row := AfterFloors(events, floors).rows[i];
    assert Witnessed(row, p, book, floors[|floors| - 1]);
  }

  // ----- at any floors -----

  /** A row whose evidence, inside the exposure, is of the kind the row claims. */
  ghost predicate Grounded(row: Incident, p: Position, book: Book) {
    && row.crossing in book
    && WithinExposure(p, book[row.crossing].seenAt)
    && (row.kind == BelowFloor ==> Reconcile(book[row.crossing]).Executable?)
    && (row.kind == NoBid ==> IsNoBid(book[row.crossing]))
  }

  /** What one event at one floor does: rows keep their place and floor, new rows get the floor in force. */
  ghost predicate RowsFollow(before: seq<Incident>, after: seq<Incident>, floor: real, p: Position, book: Book) {
    && |before| <= |after| <= |before| + 1
    && (forall i :: 0 <= i < |before| ==> after[i].floor == before[i].floor)
    && (forall i :: |before| <= i < |after| ==> after[i].floor == floor)
    && ((forall i :: 0 <= i < |before| ==> Grounded(before[i], p, book)) ==>
          forall i :: 0 <= i < |after| ==> Grounded(after[i], p, book))
  }

  lemma InsertFollows(rows: seq<Incident>, q: Quote, at: Time, bid: Option<real>, floor: real, allowNew: bool,
                      p: Position, book: Book)
    requires q.evidence in book && book[q.evidence] == q && WithinExposure(p, q.seenAt)
    requires if bid.Some? then Reconcile(q).Executable? else IsNoBid(q)
    ensures RowsFollow(rows, InsertSpec(rows, q.evidence, at, bid, floor, allowNew).0, floor, p, book)
  {
  }

  lemma CrossFollows(m: Memory, q: Quote, floor: real, at: Time, p: Position, book: Book)
    requires q.evidence in book && book[q.evidence] == q && WithinExposure(p, q.seenAt)
    ensures RowsFollow(m.rows, Cross(m, q, floor, at).0, floor, p, book)
  {
    if IsBelow(q, floor) {
      InsertFollows(m.rows, q, at, Some(Reconcile(q).bid), floor, false, p, book);
    } else if IsNoBid(q) {
      InsertFollows(m.rows, q, at, None, floor, !EpisodeOpenFor(m) && HasKind(m.rows, NoBid), p, book);
    }
  }

  lemma StepFollows(m: Memory, e: Event, floor: real, p: Position, book: Book)
    requires FromBook(e, book) && (!e.Restated? ==> e.p == p)
    ensures RowsFollow(m.rows, Apply(m, e, floor).rows, floor, p, book)
  {
    match e {
      case Observed(_, q, _, corroborated) =>
        if WithinExposure(p, q.seenAt) {
          CrossFollows(m, q, floor, ArrivalOf(Clock(m), p, q, floor, corroborated).at, p, book);
        }
      case Replayed(_, q) =>
        if IsCrossing(e, floor) {
          InsertFollows(m.rows, q, q.seenAt.value, Some(Reconcile(q).bid), floor, false, p, book);
        }
      case Restated(_, _, _) =>
    }
  }

  /** The event that created a row, found from the sizes of the table before and after each event. */
  ghost predicate CreatedBy(events: seq<Event>, floors: seq<real>, i: nat, n: nat)
    requires |floors| == |events| && n < |events|
  {
    |AfterFloors(events[..n], floors[..n]).rows| <= i < |AfterFloors(events[..n + 1], floors[..n + 1]).rows|
  }

  lemma {:induction false} RowBirth(events: seq<Event>, floors: seq<real>, p: Position, book: Book, i: nat)
    returns (n: nat)
    requires |floors| == |events| && AllFromBook(events, book)
    requires forall k :: 0 <= k < |events| ==> events[k].Restated? || events[k].p == p
    requires i < |AfterFloors(events, floors).rows|
    ensures n < |events| && CreatedBy(events, floors, i, n)
    ensures AfterFloors(events, floors).rows[i].floor == floors[n]
    ensures Grounded(AfterFloors(events, floors).rows[i], p, book)
  {
    var last := |events| - 1;
    var m := AfterFloors(events[..last], floors[..last]);
    StepFollows(m, events[last], floors[last], p, book);
    forall k | 0 <= k < |m.rows| ensures Grounded(m.rows[k], p, book) {
      var _ := RowBirth(events[..last], floors[..last], p, book, k);
    }
    assert events[..last + 1] == events && floors[..last + 1] == floors;
    if i < |m.rows| {
      n := RowBirth(events[..last], floors[..last], p, book, i);
      assert events[..last][..n] == events[..n] && events[..last][..n + 1] == events[..n + 1];
      assert floors[..last][..n] == floors[..n] && floors[..last][..n + 1] == floors[..n + 1];
    } else {
      n := last;
    }
  }

  /**
   Over every run at any floors, with unchanged facts: a row is retired exactly when it
   claims a crossing and the bid of its present evidence does not clear the floor that was
   in force at the event that created the row.
   */
  lemma RetiredExactlyWhen(events: seq<Event>, floors: seq<real>, p: Position, book: Book, i: nat) returns (n: nat)
    requires |floors| == |events| && AllFromBook(events, book)
    requires forall k :: 0 <= k < |events| ==> events[k].Restated? || events[k].p == p
    requires p.open ==> p.material
    requires i < |AfterFloors(events, floors).rows|
    ensures n < |events| && CreatedBy(events, floors, i, n)
    ensures var row := AfterFloors(events, floors).rows[i];
            && row.crossing in book
            && (row.kind == BelowFloor ==> Reconcile(book[row.crossing]).Executable?)
            && (Verdict(row, Some(p), Some(book[row.crossing])).Some?
                <==> row.kind == BelowFloor && 0.0 < floors[n] < 1.0 && Reconcile(book[row.crossing]).bid >= floors[n])
  {
    n := RowBirth(events, floors, p, book, i);
  }

  /** The first crossing ever seen makes the only row. */
  lemma FirstCrossing(p: Position, q: Quote, floor: real)
    requires WithinExposure(p, q.seenAt) && IsBelow(q, floor)
    ensures Apply(EMPTY, Observed(p, q, true, None), floor).rows
            == [FreshIncident(q.evidence, q.seenAt.value, Some(Reconcile(q).bid), floor)]
    ensures Clock(Apply(EMPTY, Observed(p, q, true, None), floor)) == q.seenAt
  {
    assert EarliestRow([], BelowFloor, true).None? && EarliestRow([], BelowFloor, false).None?;
  }

  /** An earlier crossing re-anchors that row and leaves the floor it was created at. */
  lemma EarlierCrossing(m: Memory, p: Position, late: Quote, early: Quote, created: real, raised: real)
    requires WithinExposure(p, early.seenAt) && late.seenAt.Some? && early.seenAt.value < late.seenAt.value
    requires IsBelow(late, created) && IsBelow(early, raised) && Clock(m) == late.seenAt
    requires m.rows == [FreshIncident(late.evidence, late.seenAt.value, Some(Reconcile(late).bid), created)]
    ensures var rows := Apply(m, Observed(p, early, true, None), raised).rows;
            |rows| == 1 && rows[0].crossing == early.evidence && rows[0].kind == BelowFloor && rows[0].floor == created
  {
    assert Matches(m.rows[0], BelowFloor, true);
    assert EarliestRow(m.rows, BelowFloor, true) == Some(0);
  }

  lemma AfterTwoFloors(first: Event, second: Event, created: real, raised: real)
    ensures AfterFloors([first, second], [created, raised]) == Apply(Apply(EMPTY, first, created), second, raised)
  {
    assert [first, second][..1] == [first] && [first][..0] == [];
    assert [created, raised][..1] == [created] && [created][..0] == [];
    assert AfterFloors([], []) == EMPTY;
    assert AfterFloors([first], [created]) == Apply(EMPTY, first, created);
  }

  /**
   That happens: once the floor has been raised, an earlier crossing found at the new
   floor re-anchors the row, and is retired when its bid does not also clear the old one.
   */
  lemma RaisedFloorRetiresEarlierCrossing(p: Position, late: Quote, early: Quote, created: real, raised: real)
    requires p.open ==> p.material
    requires WithinExposure(p, late.seenAt) && WithinExposure(p, early.seenAt)
    requires early.seenAt.value < late.seenAt.value
    requires 0.0 < created <= raised < 1.0 && IsBelow(late, created) && IsBelow(early, raised)
    ensures var m := AfterFloors([Observed(p, late, true, None), Observed(p, early, true, None)], [created, raised]);
            && |m.rows| == 1 && m.rows[0].crossing == early.evidence
            && (Verdict(m.rows[0], Some(p), Some(early)) == Some(BelowFloorRefuted) <==>
                Reconcile(early).bid >= created)
  {
    var m := Apply(EMPTY, Observed(p, late, true, None), created);
    AfterTwoFloors(Observed(p, late, true, None), Observed(p, early, true, None), created, raised);
    FirstCrossing(p, late, created);
    EarlierCrossing(m, p, late, early, created, raised);
  }

  // ----- the wrapping cursor -----

  predicate Ascending(queue: seq<int>) {
    forall i, j :: 0 <= i < j < |queue| ==> queue[i] < queue[j]
  }

  /** How many queued identifiers the cursor has passed. */
  function Passed(queue: seq<int>, cursor: Option<int>): (n: nat)
    requires Ascending(queue)
    ensures n <= |queue| && (n > 0 ==> cursor.Some?)
    ensures cursor.Some? ==> forall i :: 0 <= i < n ==> queue[i] <= cursor.value
    ensures cursor.Some? ==> forall i :: n <= i < |queue| ==> cursor.value < queue[i]
  {
    if queue == [] then 0
    else
      var k := |queue| - 1;
      if cursor.Some? && queue[k] <= cursor.value then |queue| else Passed(queue[..k], cursor)
  }

  /** Of `n` queued rows, those after the first `from`, from the front again when that leaves none. */
  function Slice(n: nat, from: nat, limit: nat): (s: (nat, nat))
    ensures s.0 <= s.1 <= n
  {
    var start := if from >= n then 0 else from;
    (start, Min(n, start + Max(1, limit)))
  }

  class RevalidationCursor {
    var cursor: Option<int>

    constructor ()
      ensures cursor.None?
    {
      cursor := None;
    }

    /** The slice one pass examines; an empty queue leaves the cursor where it was. */
    method NextSlice(queue: seq<int>, limit: nat) returns (examined: seq<int>)
      requires Ascending(queue)
      modifies this
      ensures var (start, end) := Slice(|queue|, Passed(queue, old(cursor)), limit);
              examined == queue[start..end] && (queue != [] ==> Passed(queue, cursor) == end)
    {
      var start := Passed(queue, cursor);
      examined := queue[start..Min(|queue|, start + Max(1, limit))];
      if examined == [] && cursor.Some? {
        examined := queue[..Min(|queue|, Max(1, limit))];
      }
      if examined != [] {
        cursor := Some(examined[|examined| - 1]);
      }
      ghost var (first, end) := Slice(|queue|, start, limit);
      if queue != [] {
        assert examined[|examined| - 1] == queue[end - 1];
        PassedOf(queue, end - 1);
      }
    }

    /** Passes over a queue that does not change; one more than it has slices examine all of it. */
    method Sweep(queue: seq<int>, limit: nat, passes: nat) returns (examined: set<int>)
      requires Ascending(queue)
      modifies this
      ensures passes > Slices(|queue|, Max(1, limit)) ==> forall id :: id in queue ==> id in examined
      ensures examined <= Elements(queue)
    {
      examined := {};
      ghost var from := Passed(queue, cursor);
      for done := 0 to passes
        invariant examined <= Elements(queue)
        invariant forall i :: 0 <= i < |queue| && Examined(|queue|, from, Max(1, limit), passes, i) ==>
                    queue[i] in examined || Examined(|queue|, Passed(queue, cursor), Max(1, limit), passes - done, i)
      {
        ghost var before := Passed(queue, cursor);
        var slice := NextSlice(queue, limit);
        examined := examined + Elements(slice);
        forall i | 0 <= i < |queue| && Examined(|queue|, before, Max(1, limit), passes - done, i)
          ensures queue[i] in examined || Examined(|queue|, Passed(queue, cursor), Max(1, limit), passes - done - 1, i)
        {
          SliceExamines(queue, before, limit, passes - done, i);
        }
      }
      if passes > Slices(|queue|, Max(1, limit)) {
        forall i | 0 <= i < |queue| ensures queue[i] in examined {
          EveryIncidentExamined(|queue|, from, Max(1, limit), passes, i);
        }
      }
    }
  }

  lemma PassedOf(queue: seq<int>, k: nat)
    requires Ascending(queue) && k < |queue|
    ensures Passed(queue, Some(queue[k])) == k + 1
  {
    if k + 1 < |queue| {
      assert queue[k] < queue[k + 1];
    }
  }

  /** Whether row `i` of a queue of `n` is examined by `passes` passes that start after its first `from` rows. */
  predicate Examined(n: nat, from: nat, limit: nat, passes: nat, i: nat)
    requires limit > 0
    decreases passes
  {
    && passes > 0
    && (var (start, end) := Slice(n, from, limit);
        start <= i < end || Examined(n, end, limit, passes - 1, i))
  }

  /** A row is in this pass's slice, or left to the passes that follow it. */
  lemma SliceExamines(queue: seq<int>, from: nat, limit: nat, passes: nat, i: nat)
    requires i < |queue| && Examined(|queue|, from, Max(1, limit), passes, i)
    ensures var (start, end) := Slice(|queue|, from, limit);
            queue[i] in Elements(queue[start..end]) || Examined(|queue|, end, Max(1, limit), passes - 1, i)
  {
    var (start, end) := Slice(|queue|, from, limit);
    if start <= i < end {
      assert queue[start..end][i - start] == queue[i];
    }
  }

  /** The number of slices of `limit` rows that cover `n` rows. */
  function Slices(n: nat, limit: nat): nat
    requires limit > 0
  {
    if n == 0 then 0 else if n <= limit then 1 else 1 + Slices(n - limit, limit)
  }

  lemma SlicesMonotone(a: nat, b: nat, limit: nat)
    requires limit > 0 && a <= b
    ensures Slices(a, limit) <= Slices(b, limit)
  {
  }

  lemma {:induction false} SlicesOfSum(a: nat, b: nat, limit: nat)
    requires limit > 0
    ensures Slices(a, limit) + Slices(b, limit) <= Slices(a + b, limit) + 1
  {
    if a <= limit {
      SlicesMonotone(b, a + b, limit);
    } else {
      SlicesOfSum(a - limit, b, limit);
    }
  }

  /** A row ahead of the cursor is reached by going forward. */
  lemma {:induction false} ReachedAhead(n: nat, from: nat, limit: nat, passes: nat, i: nat)
    requires limit > 0 && from <= i < n && passes >= Slices(i + 1 - from, limit)
    ensures Examined(n, from, limit, passes, i)
    decreases i - from
  {
    if i >= from + limit {
      ReachedAhead(n, from + limit, limit, passes - 1, i);
    }
  }

  /** A row behind the cursor is reached after the rest of the queue and a wrap. */
  lemma {:induction false} ReachedBehind(n: nat, from: nat, limit: nat, passes: nat, i: nat)
    requires limit > 0 && i < from <= n && passes >= Slices(n - from, limit) + Slices(i + 1, limit)
    ensures Examined(n, from, limit, passes, i)
    decreases n - from
  {
    if from == n {
      ReachedAhead(n, 0, limit, passes, i);
    } else {
      ReachedBehind(n, Min(n, from + limit), limit, passes - 1, i);
    }
  }

  /** Wherever the cursor stands, a static queue is swept completely within one pass more than it has slices. */
  lemma EveryIncidentExamined(n: nat, from: nat, limit: nat, passes: nat, i: nat)
    requires limit > 0 && from <= n && i < n && passes >= Slices(n, limit) + 1
    ensures Examined(n, from, limit, passes, i)
  {
    if i < from {
      SlicesOfSum(n - from, from, limit);
      SlicesMonotone(i + 1, from, limit);
      ReachedBehind(n, from, limit, passes, i);
    } else {
      SlicesMonotone(i + 1 - from, n, limit);
      ReachedAhead(n, from, limit, passes, i);
    }
  }
}
