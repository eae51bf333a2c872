/** The trigger lane: one pass over the open positions' latest quotes, and what repeating it does. */
module Trigger {
  import opened Common
  import opened Quotes
  import opened Detector
  import opened DetectorRuns
  import opened Revalidation

  /** One position's share of a pass: its memory afterwards and the identifiers it reports. */
  function TriggerSpec(m: Memory, p: Position, latest: Latest, floor: real): (Memory, seq<EvidenceId>) {
    match latest
    case Absent => (m, [])
    case Single(q) => Report(ObserveSpec(m, p, q, floor, false, None), [])
    case Paired(full, current) =>
      var (first, reported) :=
        if CorroboratesFloor(full, current, floor) then
          Report(ObserveSpec(m, p, full, floor, false, current.value.seenAt), [])
        else (m, []);
      Report(ObserveSpec(first, p, if current.Some? then current.value else full, floor, false, None), reported)
  }

  function Report(step: (Memory, Option<EvidenceId>), reported: seq<EvidenceId>): (Memory, seq<EvidenceId>) {
    (step.0, if step.1.Some? then reported + [step.1.value] else reported)
  }

  /** Every below-floor row carries the time it is ordered by. */
  predicate WellTimed(m: Memory) {
    forall i :: 0 <= i < |m.rows| && m.rows[i].kind == BelowFloor ==> m.rows[i].tFloor.Some?
  }

  /** The two `ORDER BY t_floor` queries agree once every row is timed. */
  lemma EarliestTimed(rows: seq<Incident>, quote: Option<QuoteState>)
    requires WellTimed(Memory(rows, quote))
    ensures EarliestRow(rows, BelowFloor, false) == EarliestRow(rows, BelowFloor, true)
  {
    if rows != [] {
      EarliestTimed(rows[..|rows| - 1], quote);
    }
  }

  lemma ObserveKeepsTimed(m: Memory, p: Position, q: Quote, floor: real, historical: bool, corroborated: Option<Time>)
    requires WellTimed(m)
    ensures WellTimed(ObserveSpec(m, p, q, floor, historical, corroborated).0)
  {
  }

  /** After a crossing counted at `at`, the earliest below-floor row, if any, is no later than `at`. */
  lemma CrossReachesClock(m: Memory, q: Quote, floor: real, at: Time)
    requires WellTimed(m) && IsBelow(q, floor)
    ensures var rows := Cross(m, q, floor, at).0;
            var earliest := EarliestRow(rows, BelowFloor, true);
            earliest.Some? ==> rows[earliest.value].tFloor.value <= at
    ensures !StateBelow(m) && !HasId(m.rows, q.evidence) ==>
              EarliestRow(Cross(m, q, floor, at).0, BelowFloor, true).Some?
  {
    EarliestTimed(m.rows, m.quote);
    var rows := Cross(m, q, floor, at).0;
    var before := EarliestRow(m.rows, BelowFloor, true);
    if before.Some? && at < m.rows[before.value].tFloor.value {
      assert Matches(rows[before.value], BelowFloor, true);
    } else if rows != m.rows {
      assert Matches(rows[|m.rows|], BelowFloor, true);
    }
  }

  lemma BelowCrossTwice(m: Memory, q: Quote, floor: real, at: Time, quote: Option<QuoteState>, later: Time)
    requires WellTimed(m) && at <= later && IsBelow(q, floor)
    requires StateBelow(m) ==> StateBelow(Memory(m.rows, quote))
    ensures var rows := Cross(m, q, floor, at).0;
            Cross(Memory(rows, quote), q, floor, later) == (rows, None)
  {
    var rows := Cross(m, q, floor, at).0;
    var again := Memory(rows, quote);
    CrossReachesClock(m, q, floor, at);
    EarliestTimed(m.rows, m.quote);
    assert WellTimed(again);
    EarliestTimed(rows, quote);
    if !StateBelow(again) && EarliestRow(rows, BelowFloor, true).None? {
      assert HasId(m.rows, q.evidence);
      assert rows == m.rows;
    }
  }

  lemma NoBidCrossTwice(m: Memory, q: Quote, floor: real, at: Time, quote: Option<QuoteState>, later: Time)
    requires IsNoBid(q) && !IsBelow(q, floor)
    requires (quote.Some? && quote.value.episodeOpen) || quote == m.quote
    ensures var rows := Cross(m, q, floor, at).0;
            Cross(Memory(rows, quote), q, floor, later) == (rows, None)
  {
    var rows := Cross(m, q, floor, at).0;
    if rows != m.rows {
      assert rows[|m.rows|].kind == NoBid && rows[|m.rows|].id == q.evidence;
      assert HasKind(rows, NoBid) && HasId(rows, q.evidence);
      assert Matches(rows[|m.rows|], NoBid, false);
    } else if !EpisodeOpenFor(m) || !HasKind(m.rows, NoBid) {
      if HasKind(m.rows, NoBid) {
        var i :| 0 <= i < |m.rows| && m.rows[i].kind == NoBid;
        assert Matches(m.rows[i], NoBid, false);
      }
      assert HasId(m.rows, q.evidence);
    }
  }

  /** Crossing again, at the same clock or a later one, changes nothing once the state has caught up. */
  lemma CrossTwice(m: Memory, q: Quote, floor: real, at: Time, quote: Option<QuoteState>, later: Time)
    requires WellTimed(m) && at <= later
    requires StateBelow(m) ==> StateBelow(Memory(m.rows, quote)) || !IsBelow(q, floor)
    requires (quote.Some? && quote.value.episodeOpen) || quote == m.quote || !IsNoBid(q)
    ensures var rows := Cross(m, q, floor, at).0;
            Cross(Memory(rows, quote), q, floor, later) == (rows, None)
  {
    if IsBelow(q, floor) {
      BelowCrossTwice(m, q, floor, at, quote, later);
    } else if IsNoBid(q) {
      NoBidCrossTwice(m, q, floor, at, quote, later);
    }
  }

  /** Observing the same quote twice in a row is observing it once. */
  lemma ObserveTwice(m: Memory, p: Position, q: Quote, floor: real, corroborated: Option<Time>)
    requires WellTimed(m)
    ensures var next := ObserveSpec(m, p, q, floor, false, corroborated).0;
            ObserveSpec(next, p, q, floor, false, corroborated) == (next, None)
  {
    if WithinExposure(p, q.seenAt) {
      var arrival := ArrivalOf(Clock(m), p, q, floor, corroborated);
      var next := ObserveSpec(m, p, q, floor, false, corroborated).0;
      CrossTwice(m, q, floor, arrival.at, next.quote, arrival.at);
      assert ArrivalOf(Clock(next), p, q, floor, corroborated) == arrival;
      if !arrival.outOfOrder {
        assert NextState(next.quote, q, floor, arrival.at) == next.quote.value;
      }
    }
  }

  /** The durable state of a full book and then its incomplete projection is a fixed point of both. */
  lemma PairedStateTwice(previous: Option<QuoteState>, full: Quote, current: Quote, floor: real, at: Time, later: Time)
    requires IsBelow(full, floor) || IsNoBid(full)
    requires Reconcile(current).Incomplete?
    ensures var settled := NextState(Some(NextState(previous, full, floor, at)), current, floor, later);
            NextState(Some(NextState(Some(settled), full, floor, later)), current, floor, later) == settled
  {
  }

  /** A corroborated pair observed twice is the pair observed once. */
  lemma PairTwice(m: Memory, p: Position, full: Quote, current: Quote, floor: real)
    requires WellTimed(m) && CorroboratesFloor(full, Some(current), floor)
    ensures var once := TriggerSpec(m, p, Paired(full, Some(current)), floor).0;
            TriggerSpec(once, p, Paired(full, Some(current)), floor) == (once, [])
  {
    var first := ObserveSpec(m, p, full, floor, false, current.seenAt).0;
    var once := ObserveSpec(first, p, current, floor, false, None).0;
    if !WithinExposure(p, full.seenAt) {
      ObserveTwice(m, p, current, floor, None);
    } else if !WithinExposure(p, current.seenAt) {
      ObserveTwice(m, p, full, floor, current.seenAt);
    } else {
      var arrival := ArrivalOf(Clock(m), p, full, floor, current.seenAt);
      var later := current.seenAt.value;
      assert once.rows == first.rows == Cross(m, full, floor, arrival.at).0;
      if arrival.outOfOrder {
        assert once.quote == m.quote;
        CrossTwice(m, full, floor, arrival.at, m.quote, arrival.at);
      } else {
        assert once.quote == Some(NextState(first.quote, current, floor, later));
        CrossTwice(m, full, floor, arrival.at, once.quote, later);
        assert ArrivalOf(Clock(once), p, full, floor, current.seenAt) == Arrival(later, false);
        PairedStateTwice(m.quote, full, current, floor, arrival.at, later);
      }
    }
  }

  /** The newer scalar bears out the older book: below the floor as it was, or without a bid as it was. */
  predicate BearsOut(full: Quote, current: Quote, floor: real) {
    && full.seenAt.Some? && current.seenAt.Some? && full.seenAt.value <= current.seenAt.value
    && (|| (IsBelow(full, floor) && current.scalarBid.Some? && current.scalarBid.value < floor)
        || (IsNoBid(full) && current.scalarBid.Some? && current.scalarBid.value <= 0.0)
        || (&& IsNoBid(full) && current.scalarBid.None? && current.bookHash != ""
            && current.scalarAsk.Some? && 0.0 < current.scalarAsk.value <= 1.0))
  }

  /** An older book that the newer incomplete quote does not bear out touches no incident row and reports nothing. */
  lemma UnconfirmedPairIsIgnored(m: Memory, p: Position, full: Quote, current: Quote, floor: real)
    requires Reconcile(current).Incomplete? && !BearsOut(full, current, floor)
    ensures var (next, reported) := TriggerSpec(m, p, Paired(full, Some(current)), floor);
            next.rows == m.rows && reported == []
  {
  }

  /**
   One that it does bear out is counted: on every run, a full book below the floor inside the
   exposure leaves a below-floor incident no later than the newer quote's time.
   */
  lemma ConfirmedPairIsCounted(events: seq<Event>, p: Position, full: Quote, current: Quote, floor: real, book: Book)
    requires AllFromBook(events, book) && full.evidence in book && book[full.evidence] == full
    requires Reconcile(current).Incomplete? && IsBelow(full, floor) && BearsOut(full, current, floor)
    requires WithinExposure(p, full.seenAt) && WithinExposure(p, current.seenAt)
    ensures var next := TriggerSpec(After(events, floor), p, Paired(full, Some(current)), floor).0;
            FloorTime(next).Some? && FloorTime(next).value <= current.seenAt.value
  {
    var m := After(events, floor);
    var e := Observed(p, full, false, current.seenAt);
    CrossingIsCounted(events, e, floor, book);
    IncompleteKeepsRows(Apply(m, e, floor), p, current, floor);
  }

  lemma IncompleteKeepsRows(m: Memory, p: Position, q: Quote, floor: real)
    requires Reconcile(q).Incomplete?
    ensures ObserveSpec(m, p, q, floor, false, None).0.rows == m.rows
  {
  }

  /** A crossing leaves an incident no later than the clock it counts at. */
  lemma CrossingIsCounted(events: seq<Event>, e: Event, floor: real, book: Book)
    requires AllFromBook(events, book) && FromBook(e, book) && IsCrossing(e, floor)
    ensures var next := Apply(After(events, floor), e, floor);
            FloorTime(next).Some? && FloorTime(next).value <= CrossingClock(After(events, floor), e, floor)
  {
    var longer := events + [e];
    assert longer[..|events|] == events;
    FloorAnchor(longer, floor, book);
    FloorTimeOf(After(longer, floor), CrossingTimes(longer, floor));
    assert CrossingClock(After(events, floor), e, floor) in CrossingTimes(longer, floor);
  }

  /** On every run, a position's only quote, below the floor in the exposure, leaves an incident no later than it. */
  lemma SingleCrossingIsCounted(events: seq<Event>, p: Position, q: Quote, floor: real, book: Book)
    requires AllFromBook(events, book) && q.evidence in book && book[q.evidence] == q
    requires IsBelow(q, floor) && WithinExposure(p, q.seenAt)
    ensures var next := TriggerSpec(After(events, floor), p, Single(q), floor).0;
            FloorTime(next).Some? && FloorTime(next).value <= q.seenAt.value
  {
    CrossingIsCounted(events, Observed(p, q, false, None), floor, book);
  }

  /** Repeating a position's trigger step over unchanged inputs reports nothing and changes nothing. */
  lemma TriggerTwice(m: Memory, p: Position, latest: Latest, floor: real)
    requires WellTimed(m)
    ensures var once := TriggerSpec(m, p, latest, floor).0;
            TriggerSpec(once, p, latest, floor) == (once, [])
  {
    match latest {
      case Absent =>
      case Single(q) => ObserveTwice(m, p, q, floor, None);
      case Paired(full, current) =>
        if CorroboratesFloor(full, current, floor) {
          PairTwice(m, p, full, current.value, floor);
        } else {
          ObserveTwice(m, p, if current.Some? then current.value else full, floor, None);
        }
    }
  }

  // ----- memories a run reaches -----

  /** A memory some run of events, each at the floor then configured, leads to. */
  ghost predicate Reached(m: Memory) {
    exists events, floors :: |floors| == |events| && m == AfterFloors(events, floors)
  }

  lemma ApplyKeepsTimed(m: Memory, e: Event, floor: real)
    requires WellTimed(m)
    ensures WellTimed(Apply(m, e, floor))
  {
    if e.Observed? {
      ObserveKeepsTimed(m, e.p, e.q, floor, e.historical, e.corroborated);
    }
  }

  lemma {:induction false} RunKeepsTimed(events: seq<Event>, floors: seq<real>)
    requires |floors| == |events|
    ensures WellTimed(AfterFloors(events, floors))
  {
    if events != [] {
      var n := |events| - 1;
      RunKeepsTimed(events[..n], floors[..n]);
      ApplyKeepsTimed(AfterFloors(events[..n], floors[..n]), events[n], floors[n]);
    }
  }

  lemma ReachedApply(m: Memory, e: Event, floor: real)
    requires Reached(m)
    ensures Reached(Apply(m, e, floor))
  {
    var events, floors :| |floors| == |events| && m == AfterFloors(events, floors);
    assert (events + [e])[..|events|] == events && (floors + [floor])[..|events|] == floors;
    assert AfterFloors(events + [e], floors + [floor]) == Apply(m, e, floor);
  }

  /** A trigger step stays among the reached memories, and repeating it on any of them does nothing. */
  lemma ReachedTriggerTwice(m: Memory, p: Position, latest: Latest, floor: real)
    requires Reached(m)
    ensures Reached(TriggerSpec(m, p, latest, floor).0)
    ensures var once := TriggerSpec(m, p, latest, floor).0;
            TriggerSpec(once, p, latest, floor) == (once, [])
  {
    var events, floors :| |floors| == |events| && m == AfterFloors(events, floors);
    RunKeepsTimed(events, floors);
    TriggerTwice(m, p, latest, floor);
    match latest {
      case Absent =>
      case Single(q) => ReachedApply(m, Observed(p, q, false, None), floor);
      case Paired(full, current) =>
        var quote := if current.Some? then current.value else full;
        if CorroboratesFloor(full, current, floor) {
          var first := Observed(p, full, false, current.value.seenAt);
          ReachedApply(m, first, floor);
          ReachedApply(Apply(m, first, floor), Observed(p, quote, false, None), floor);
        } else {
          ReachedApply(m, Observed(p, quote, false, None), floor);
        }
    }
  }

  /** The open positions of one pass with what the market projection shows for each. */
  datatype Input = Input(position: Position, latest: Latest)

  predicate DistinctPositions(inputs: seq<Input>) {
    forall i, j :: 0 <= i < j < |inputs| ==> inputs[i].position.id != inputs[j].position.id
  }

  /** An incident's identifier is the digest of its position and first evidence. */
  datatype IncidentId = IncidentId(position: string, evidence: EvidenceId)

  function Named(position: string, evidence: seq<EvidenceId>): seq<IncidentId> {
    seq(|evidence|, i requires 0 <= i < |evidence| => IncidentId(position, evidence[i]))
  }

  /** What one position reports from the memory it had before the pass. */
  function ReportsOf(before: Memory, input: Input, floor: real): seq<IncidentId> {
    Named(input.position.id, TriggerSpec(before, input.position, input.latest, floor).1)
  }

  /** What the positions report, in their order. */
  function Reports(before: seq<Memory>, inputs: seq<Input>, floor: real): seq<IncidentId>
    requires |before| == |inputs|
  {
    if inputs == [] then []
    else
      var n := |inputs| - 1;
      Reports(before[..n], inputs[..n], floor) + ReportsOf(before[n], inputs[n], floor)
  }

  /** The positions of one pass in turn; `before` are their memories when it begins. */
  method TriggerEach(memory: IncidentMemory, inputs: seq<Input>, floor: real)
    returns (created: seq<IncidentId>, ghost before: seq<Memory>)
    requires DistinctPositions(inputs)
    modifies memory
    ensures |before| == |inputs|
    ensures forall k :: 0 <= k < |inputs| ==> before[k] == old(memory.View(inputs[k].position.id))
    ensures created == Reports(before, inputs, floor)
    ensures forall k :: 0 <= k < |inputs| ==>
              memory.View(inputs[k].position.id)
              == TriggerSpec(before[k], inputs[k].position, inputs[k].latest, floor).0
    ensures forall id :: (forall k :: 0 <= k < |inputs| ==> inputs[k].position.id != id) ==>
                           memory.View(id) == old(memory.View(id))
  {
    before := ViewsOf(memory, inputs);
    created := [];
    for k := 0 to |inputs|
      invariant forall i :: 0 <= i < k ==>
                  memory.View(inputs[i].position.id)
                  == TriggerSpec(before[i], inputs[i].position, inputs[i].latest, floor).0
      invariant forall id :: (forall i :: 0 <= i < k ==> inputs[i].position.id != id) ==>
                               memory.View(id) == old(memory.View(id))
      invariant created == Reports(before[..k], inputs[..k], floor)
    {
      ReportsNext(before, inputs, floor, k);
      assert forall i :: 0 <= i < k ==> inputs[i].position.id != inputs[k].position.id;
      assert memory.View(inputs[k].position.id) == before[k];
      var reported := TriggerPosition(memory, inputs[k], floor);
      created := created + Named(inputs[k].position.id, reported);
    }
    assert before[..|inputs|] == before && inputs[..|inputs|] == inputs;
  }

  /**
   One trigger pass.  `interruptedAt` is the position before which the deadline
   handler interrupts SQLite; the transaction is then rolled back.
   */
  method DetectTrigger(memory: IncidentMemory, inputs: seq<Input>, floor: real, interruptedAt: Option<nat>)
    returns (created: seq<IncidentId>, ghost before: seq<Memory>)
    requires DistinctPositions(inputs)
    modifies memory
    ensures |before| == |inputs|
    ensures forall k :: 0 <= k < |inputs| ==> before[k] == old(memory.View(inputs[k].position.id))
    ensures interruptedAt.Some? && interruptedAt.value < |inputs| ==>
              created == [] && forall id :: memory.View(id) == old(memory.View(id))
    ensures interruptedAt.None? || interruptedAt.value >= |inputs| ==>
              && created == Unique(Reports(before, inputs, floor))
              && (forall k :: 0 <= k < |inputs| ==>
                    memory.View(inputs[k].position.id)
                    == TriggerSpec(before[k], inputs[k].position, inputs[k].latest, floor).0)
              && (forall id :: (forall k :: 0 <= k < |inputs| ==> inputs[k].position.id != id) ==>
                                 memory.View(id) == old(memory.View(id)))
  {
    before := ViewsOf(memory, inputs);
    if interruptedAt.Some? && interruptedAt.value < |inputs| {
      var incidents, quotes := memory.incidents, memory.quotes;
      ghost var part;
      created, part := TriggerEach(memory, inputs[..interruptedAt.value], floor);
      memory.incidents, memory.quotes := incidents, quotes;
      return [], before;
    }
    ghost var views;
    created, views := TriggerEach(memory, inputs, floor);
    assert views == before;
    created := Unique(created);
  }

  ghost function ViewsOf(memory: IncidentMemory, inputs: seq<Input>): (views: seq<Memory>)
    reads memory
    ensures |views| == |inputs| && forall k :: 0 <= k < |inputs| ==> views[k] == memory.View(inputs[k].position.id)
  {
    if inputs == [] then []
    else ViewsOf(memory, inputs[..|inputs| - 1]) + [memory.View(inputs[|inputs| - 1].position.id)]
  }

  lemma ReportsNext(before: seq<Memory>, inputs: seq<Input>, floor: real, k: nat)
    requires |before| == |inputs| && k < |inputs|
    ensures Reports(before[..k + 1], inputs[..k + 1], floor)
            == Reports(before[..k], inputs[..k], floor)
               + ReportsOf(before[k], inputs[k], floor)
  {
    assert before[..k + 1][..k] == before[..k] && inputs[..k + 1][..k] == inputs[..k];
  }

  /** Positions with nothing to report report nothing together. */
  lemma {:induction false} NothingReported(before: seq<Memory>, inputs: seq<Input>, floor: real)
    requires |before| == |inputs|
    requires forall k :: 0 <= k < |inputs| ==>
               TriggerSpec(before[k], inputs[k].position, inputs[k].latest, floor).1 == []
    ensures Reports(before, inputs, floor) == []
  {
    if inputs != [] {
      NothingReported(before[..|inputs| - 1], inputs[..|inputs| - 1], floor);
    }
  }

  method TriggerPosition(memory: IncidentMemory, input: Input, floor: real) returns (reported: seq<EvidenceId>)
    modifies memory
    ensures (memory.View(input.position.id), reported)
         == TriggerSpec(old(memory.View(input.position.id)), input.position, input.latest, floor)
    ensures forall id :: id != input.position.id ==> memory.View(id) == old(memory.View(id))
  {
    reported := [];
    if input.latest.Absent? {
      return;
    }
    var quote := if input.latest.Single? then input.latest.quote else input.latest.full;
    var current := if input.latest.Single? then None else input.latest.current;
    if CorroboratesFloor(quote, current, floor) {
      var id := memory.ObserveQuote(input.position, quote, floor, false, current.value.seenAt);
      if id.Some? {
        reported := reported + [id.value];
      }
    }
    var id := memory.ObserveQuote(input.position, if current.Some? then current.value else quote, floor, false, None);
    if id.Some? {
      reported := reported + [id.value];
    }
  }

  /** A second pass over unchanged positions and quotes creates nothing and leaves every memory alone. */
  method TriggerPassTwice(memory: IncidentMemory, inputs: seq<Input>, floor: real)
    returns (first: seq<IncidentId>, second: seq<IncidentId>)
    requires DistinctPositions(inputs)
    requires forall k :: 0 <= k < |inputs| ==> WellTimed(memory.View(inputs[k].position.id))
    modifies memory
    ensures second == []
    ensures forall k :: 0 <= k < |inputs| ==>
              memory.View(inputs[k].position.id)
              == TriggerSpec(old(memory.View(inputs[k].position.id)), inputs[k].position, inputs[k].latest, floor).0
  {
    ghost var before, between;
    first, before := DetectTrigger(memory, inputs, floor, None);
    forall k | 0 <= k < |inputs|
      ensures var m := memory.View(inputs[k].position.id);
              TriggerSpec(m, inputs[k].position, inputs[k].latest, floor) == (m, [])
    {
      TriggerTwice(before[k], inputs[k].position, inputs[k].latest, floor);
    }
    second, between := DetectTrigger(memory, inputs, floor, None);
    NothingReported(between, inputs, floor);
  }
}
