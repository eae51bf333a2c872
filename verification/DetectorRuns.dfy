/**
 Whole runs of the detector on one position: live observations, corroborated
 observations, replayed history and the dispatcher's status changes, in any order.
 */
module DetectorRuns {
  import opened Common
  import opened Quotes
  import opened Detector

  datatype Event =
    | Observed(p: Position, q: Quote, historical: bool, corroborated: Option<Time>)
    | Replayed(p: Position, q: Quote)
    | Restated(row: nat, status: Status, stage: Stage)

  /** An evidence identifier determines its quote. */
  type Book = map<EvidenceId, Quote>

  predicate FromBook(e: Event, book: Book) {
    !e.Restated? ==> e.q.evidence in book && book[e.q.evidence] == e.q
  }

  predicate AllFromBook(events: seq<Event>, book: Book) {
    forall i :: 0 <= i < |events| ==> FromBook(events[i], book)
  }

  /** History replay inserts an accepted crossing without touching the quote state. */
  function Apply(m: Memory, e: Event, floor: real): Memory {
    match e
    case Observed(p, q, historical, corroborated) => ObserveSpec(m, p, q, floor, historical, corroborated).0
    case Replayed(p, q) =>
      if WithinExposure(p, q.seenAt) && IsBelow(q, floor) then
        Memory(InsertSpec(m.rows, q.evidence, q.seenAt.value, Some(Reconcile(q).bid), floor, false).0, m.quote)
      else m
    case Restated(row, status, stage) =>
      if row < |m.rows| then Memory(m.rows[row := m.rows[row].(status := status, stage := stage)], m.quote) else m
  }

  function After(events: seq<Event>, floor: real): Memory {
    if events == [] then EMPTY
    else Apply(After(events[..|events| - 1], floor), events[|events| - 1], floor)
  }

  /** An accepted executable quote below the floor. */
  predicate IsCrossing(e: Event, floor: real) {
    !e.Restated? && WithinExposure(e.p, e.q.seenAt) && IsBelow(e.q, floor)
  }

  /** The clock at which a crossing counts; only corroboration moves it off the quote's own clock. */
  function CrossingClock(m: Memory, e: Event, floor: real): Time
    requires IsCrossing(e, floor)
  {
    if e.Observed? then ArrivalOf(Clock(m), e.p, e.q, floor, e.corroborated).at else e.q.seenAt.value
  }

  function CrossingTimes(events: seq<Event>, floor: real): set<Time> {
    if events == [] then {}
    else
      var front := events[..|events| - 1];
      var e := events[|events| - 1];
      CrossingTimes(front, floor)
      + (if IsCrossing(e, floor) then {CrossingClock(After(front, floor), e, floor)} else {})
  }

  // ----- the below-floor anchor -----

  /** At most one below-floor incident, present exactly when something crossed, at the earliest crossing. */
  ghost predicate AnchoredAt(m: Memory, times: set<Time>) {
    && (forall i, j :: 0 <= i < j < |m.rows| ==> m.rows[i].kind != BelowFloor || m.rows[j].kind != BelowFloor)
    && (HasKind(m.rows, BelowFloor) <==> times != {})
    && (forall i :: 0 <= i < |m.rows| && m.rows[i].kind == BelowFloor ==>
                      m.rows[i].tFloor.Some? && m.rows[i].tFloor.value in times)
    && (forall i, t :: 0 <= i < |m.rows| && m.rows[i].kind == BelowFloor && t in times ==>
                         m.rows[i].tFloor.value <= t)
    && (StateBelow(m) ==> times != {})
  }

  /** Every row was created by a quote of its own kind. */
  predicate IdsFrom(m: Memory, book: Book) {
    forall i :: 0 <= i < |m.rows| ==>
                  m.rows[i].id in book && (m.rows[i].kind == NoBid <==> IsNoBid(book[m.rows[i].id]))
  }

  lemma InsertBelow(m: Memory, q: Quote, at: Time, floor: real, times: set<Time>, book: Book)
    requires AnchoredAt(m, times) && IdsFrom(m, book)
    requires q.evidence in book && book[q.evidence] == q && IsBelow(q, floor)
    ensures var rows := InsertSpec(m.rows, q.evidence, at, Some(Reconcile(q).bid), floor, false).0;
            AnchoredAt(Memory(rows, m.quote), times + {at}) && IdsFrom(Memory(rows, m.quote), book)
  {
    var existing := EarliestRow(m.rows, BelowFloor, false);
    var rows := InsertSpec(m.rows, q.evidence, at, Some(Reconcile(q).bid), floor, false).0;
    if existing.Some? {
      assert rows[existing.value].kind == BelowFloor;
    } else {
      assert !HasKind(m.rows, BelowFloor) by {
        assert forall i :: 0 <= i < |m.rows| ==> !Matches(m.rows[i], BelowFloor, false);
      }
      assert forall i :: 0 <= i < |m.rows| ==> m.rows[i].kind == NoBid;
      assert !HasId(m.rows, q.evidence);
      assert rows[|m.rows|].kind == BelowFloor;
    }
  }

  lemma InsertNoBid(m: Memory, q: Quote, at: Time, floor: real, allowNew: bool, times: set<Time>, book: Book)
    requires AnchoredAt(m, times) && IdsFrom(m, book)
    requires q.evidence in book && book[q.evidence] == q && IsNoBid(q)
    ensures var rows := InsertSpec(m.rows, q.evidence, at, None, floor, allowNew).0;
            AnchoredAt(Memory(rows, m.quote), times) && IdsFrom(Memory(rows, m.quote), book)
  {
    var rows := InsertSpec(m.rows, q.evidence, at, None, floor, allowNew).0;
    assert rows == m.rows || rows == m.rows + [FreshIncident(q.evidence, at, None, floor)];
    if HasKind(m.rows, BelowFloor) {
      var i :| 0 <= i < |m.rows| && m.rows[i].kind == BelowFloor;
      assert rows[i].kind == BelowFloor;
    }
  }

  /** An earlier crossing moves the one below-floor row back to its own clock. */
  lemma ReanchorEarlier(m: Memory, q: Quote, at: Time, times: set<Time>, book: Book, k: nat)
    requires AnchoredAt(m, times) && IdsFrom(m, book) && k < |m.rows| &&
        EarliestRow(m.rows, BelowFloor, true) == Some(k)
    requires Reconcile(q).Executable? && at < m.rows[k].tFloor.value
    ensures var row := Reopened(Anchored(m.rows[k], q.evidence, at, Some(Reconcile(q).bid)));
            var next := Memory(m.rows[k := row], m.quote);
            AnchoredAt(next, times + {at}) && IdsFrom(next, book)
  {
    var row := Reopened(Anchored(m.rows[k], q.evidence, at, Some(Reconcile(q).bid)));
    assert m.rows[k := row][k].kind == BelowFloor;
  }

  lemma CrossAnchors(m: Memory, q: Quote, at: Time, floor: real, times: set<Time>, book: Book)
    requires AnchoredAt(m, times) && IdsFrom(m, book)
    requires q.evidence in book && book[q.evidence] == q
    ensures var next := Memory(Cross(m, q, floor, at).0, m.quote);
            AnchoredAt(next, times + if IsBelow(q, floor) then {at} else {}) && IdsFrom(next, book)
  {
    if IsBelow(q, floor) {
      var earliest := EarliestRow(m.rows, BelowFloor, true);
      if earliest.Some? && at < m.rows[earliest.value].tFloor.value {
        ReanchorEarlier(m, q, at, times, book, earliest.value);
      } else if !StateBelow(m) {
        InsertBelow(m, q, at, floor, times, book);
      } else {
        assert HasKind(m.rows, BelowFloor);
        var i :| 0 <= i < |m.rows| && m.rows[i].kind == BelowFloor;
        assert Matches(m.rows[i], BelowFloor, true);
      }
    } else if IsNoBid(q) && (!EpisodeOpenFor(m) || !HasKind(m.rows, NoBid)) {
      InsertNoBid(m, q, at, floor, !EpisodeOpenFor(m) && HasKind(m.rows, NoBid), times, book);
    }
  }

  /** Only the quote half of the state enters, through its below flag. */
  lemma StateAnchors(m: Memory, quote: Option<QuoteState>, times: set<Time>, book: Book)
    requires AnchoredAt(m, times) && IdsFrom(m, book)
    requires StateBelow(Memory(m.rows, quote)) ==> times != {}
    ensures AnchoredAt(Memory(m.rows, quote), times) && IdsFrom(Memory(m.rows, quote), book)
  {
  }

  lemma ObservedAnchors(m: Memory, e: Event, floor: real, times: set<Time>, book: Book)
    requires AnchoredAt(m, times) && IdsFrom(m, book) && FromBook(e, book) && e.Observed?
    ensures var next := Apply(m, e, floor);
            AnchoredAt(next, times + if IsCrossing(e, floor) then {CrossingClock(m, e, floor)} else {})
            && IdsFrom(next, book)
  {
    if WithinExposure(e.p, e.q.seenAt) {
      var arrival := ArrivalOf(Clock(m), e.p, e.q, floor, e.corroborated);
      if !(e.historical && arrival.outOfOrder && IsNoBid(e.q)) {
        CrossAnchors(m, e.q, arrival.at, floor, times, book);
        var quote := if arrival.outOfOrder then m.quote else Some(NextState(m.quote, e.q, floor, arrival.at));
        StateAnchors(Memory(Cross(m, e.q, floor, arrival.at).0, m.quote), quote,
                     times + if IsBelow(e.q, floor) then {arrival.at} else {}, book);
      } else {
        assert times + {} == times;
      }
    } else {
      assert times + {} == times;
    }
  }

  lemma RestatedAnchors(m: Memory, e: Event, floor: real, times: set<Time>, book: Book)
    requires AnchoredAt(m, times) && IdsFrom(m, book) && e.Restated?
    ensures AnchoredAt(Apply(m, e, floor), times) && IdsFrom(Apply(m, e, floor), book)
  {
    var next := Apply(m, e, floor);
    assert forall i :: 0 <= i < |m.rows| ==>
                         next.rows[i] == m.rows[i].(status := next.rows[i].status, stage := next.rows[i].stage);
    if HasKind(m.rows, BelowFloor) {
      var i :| 0 <= i < |m.rows| && m.rows[i].kind == BelowFloor;
      assert next.rows[i].kind == BelowFloor;
    }
  }

  lemma StepAnchors(m: Memory, e: Event, floor: real, times: set<Time>, book: Book)
    requires AnchoredAt(m, times) && IdsFrom(m, book) && FromBook(e, book)
    ensures var next := Apply(m, e, floor);
            AnchoredAt(next, times + if IsCrossing(e, floor) then {CrossingClock(m, e, floor)} else {})
            && IdsFrom(next, book)
  {
    match e {
      case Observed(_, _, _, _) => ObservedAnchors(m, e, floor, times, book);
      case Replayed(p, q) =>
        if IsCrossing(e, floor) {
          InsertBelow(m, q, q.seenAt.value, floor, times, book);
        } else {
          assert times + {} == times;
        }
      case Restated(_, _, _) =>
        assert times + {} == times;
        RestatedAnchors(m, e, floor, times, book);
    }
  }

  /**
   After any run whatever there is at most one below-floor incident; it exists
   exactly when some accepted quote was executable below the floor, and it stands
   at the earliest clock at which one counted.
   */
  lemma {:induction false} FloorAnchor(events: seq<Event>, floor: real, book: Book)
    requires AllFromBook(events, book)
    ensures AnchoredAt(After(events, floor), CrossingTimes(events, floor))
    ensures IdsFrom(After(events, floor), book)
  {
    if events != [] {
      var n := |events| - 1;
      FloorAnchor(events[..n], floor, book);
      StepAnchors(After(events[..n], floor), events[n], floor, CrossingTimes(events[..n], floor), book);
    }
  }

  /** The time of the below-floor incident, if there is one. */
  function FloorTime(m: Memory): Option<Time> {
    var row := EarliestRow(m.rows, BelowFloor, true);
    if row.Some? then m.rows[row.value].tFloor else None
  }

  predicate Uncorroborated(events: seq<Event>) {
    forall i :: 0 <= i < |events| ==> events[i].Observed? ==> events[i].corroborated.None?
  }

  /** The crossings of a run as a plain set of quote clocks, whatever their order. */
  ghost function QuoteTimes(events: seq<Event>, floor: real): set<Time> {
    set e | e in events && IsCrossing(e, floor) :: e.q.seenAt.value
  }

  lemma {:induction false} UncorroboratedTimes(events: seq<Event>, floor: real)
    requires Uncorroborated(events)
    ensures CrossingTimes(events, floor) == QuoteTimes(events, floor)
  {
    if events != [] {
      var n := |events| - 1;
      UncorroboratedTimes(events[..n], floor);
      assert events == events[..n] + [events[n]];
      assert forall e :: e in events <==> e in events[..n] || e == events[n];
      if IsCrossing(events[n], floor) {
        assert CrossingClock(After(events[..n], floor), events[n], floor) == events[n].q.seenAt.value;
      }
    }
  }

  lemma FloorTimeOf(m: Memory, times: set<Time>)
    requires AnchoredAt(m, times)
    ensures FloorTime(m).None? <==> times == {}
    ensures FloorTime(m).Some? ==> FloorTime(m).value in times && forall t :: t in times ==> FloorTime(m).value <= t
  {
    if HasKind(m.rows, BelowFloor) {
      var i :| 0 <= i < |m.rows| && m.rows[i].kind == BelowFloor;
      assert Matches(m.rows[i], BelowFloor, true);
    }
  }

  /** Two runs of the same uncorroborated events in different orders agree on the incident and its time. */
  lemma ArrivalOrderIndependence(first: seq<Event>, second: seq<Event>, floor: real, book: Book)
    requires multiset(first) == multiset(second)
    requires AllFromBook(first, book) && Uncorroborated(first)
    ensures FloorTime(After(first, floor)) == FloorTime(After(second, floor))
    ensures HasKind(After(first, floor).rows, BelowFloor) <==> HasKind(After(second, floor).rows, BelowFloor)
  {
    forall i | 0 <= i < |second|
      ensures FromBook(second[i], book) && (second[i].Observed? ==> second[i].corroborated.None?)
    {
      assert second[i] in multiset(second);
      assert second[i] in first;
    }
    FloorAnchor(first, floor, book);
    FloorAnchor(second, floor, book);
    UncorroboratedTimes(first, floor);
    UncorroboratedTimes(second, floor);
    assert forall e :: e in first <==> e in multiset(first);
    assert forall e :: e in second <==> e in multiset(second);
    assert QuoteTimes(first, floor) == QuoteTimes(second, floor);
    FloorTimeOf(After(first, floor), QuoteTimes(first, floor));
    FloorTimeOf(After(second, floor), QuoteTimes(second, floor));
  }
}
