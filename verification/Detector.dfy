/**
 The quote detector: one observed quote against the incident table and the
 durable quote state.  Every statement of the detector selects by position, and a
 hard incident's identifier is a digest of its position and evidence, so the two
 tables are kept as one `Memory` per position.
 */
module Detector {
  import opened Common
  import opened Quotes

  datatype Kind = BelowFloor | NoBid

  datatype Status = Queued | Running | RetryPending | Observing | Blocked | Completed

  datatype Stage = Blind | Later(name: string)

  /** A hard incident row; `id` is the evidence that first created it, `crossing` its present anchor. */
  datatype Incident = Incident(
    id: EvidenceId,
    crossing: EvidenceId,
    kind: Kind,
    tFloor: Option<Time>,
    floor: real,
    bid: Option<real>,
    status: Status,
    stage: Stage,
    revision: nat)

  datatype QuoteStatus = StatusIncomplete | StatusConflict | StatusNoBid | StatusExecutable

  datatype QuoteState = QuoteState(
    evidence: EvidenceId,
    seenAt: Time,
    bid: Option<real>,
    status: QuoteStatus,
    below: bool,
    generation: nat,
    episodeOpen: bool)

  datatype Memory = Memory(rows: seq<Incident>, quote: Option<QuoteState>)

  const EMPTY := Memory([], None)

  // ----- table queries -----

  predicate Matches(row: Incident, kind: Kind, timedOnly: bool) {
    row.kind == kind && (timedOnly ==> row.tFloor.Some?)
  }

  /** `ORDER BY t_floor`: SQL puts NULL first. */
  predicate Precedes(a: Option<Time>, b: Option<Time>) {
    b.Some? && (a.None? || a.value < b.value)
  }

  predicate HasKind(rows: seq<Incident>, kind: Kind) {
    exists i :: 0 <= i < |rows| && rows[i].kind == kind
  }

  predicate HasId(rows: seq<Incident>, id: EvidenceId) {
    exists i :: 0 <= i < |rows| && rows[i].id == id
  }

  /** `SELECT ... WHERE crossing_kind=? ORDER BY t_floor LIMIT 1`, as a row number. */
  function EarliestRow(rows: seq<Incident>, kind: Kind, timedOnly: bool): (r: Option<nat>)
    ensures r.Some? ==> r.value < |rows| && Matches(rows[r.value], kind, timedOnly)
    ensures r.None? ==> forall i :: 0 <= i < |rows| ==> !Matches(rows[i], kind, timedOnly)
    ensures r.Some? ==>
              forall i :: 0 <= i < |rows| && Matches(rows[i], kind, timedOnly) ==>
                !Precedes(rows[i].tFloor, rows[r.value].tFloor)
  {
    if rows == [] then None
    else
      var n := |rows| - 1;
      var rest := EarliestRow(rows[..n], kind, timedOnly);
      if Matches(rows[n], kind, timedOnly) && (rest.None? || Precedes(rows[n].tFloor, rows[rest.value].tFloor))
      then Some(n) else rest
  }

  method FindEarliest(rows: seq<Incident>, kind: Kind, timedOnly: bool) returns (r: Option<nat>)
    ensures r == EarliestRow(rows, kind, timedOnly)
  {
    r := None;
    for n := 0 to |rows|
      invariant r == EarliestRow(rows[..n], kind, timedOnly)
    {
      assert rows[..n + 1][..n] == rows[..n];
      if Matches(rows[n], kind, timedOnly) && (r.None? || Precedes(rows[n].tFloor, rows[r.value].tFloor)) {
        r := Some(n);
      }
    }
    assert rows[..|rows|] == rows;
  }

  // ----- inserting or re-anchoring an incident -----

  function KindOf(bid: Option<real>): Kind {
    if bid.None? then NoBid else BelowFloor
  }

  function FreshIncident(evidence: EvidenceId, at: Time, bid: Option<real>, floor: real): Incident {
    Incident(evidence, evidence, KindOf(bid), if bid.Some? then Some(at) else None, floor, bid, Queued, Blind, 1)
  }

  function Anchored(row: Incident, evidence: EvidenceId, at: Time, bid: Option<real>): Incident {
    row.(crossing := evidence, tFloor := Some(at), bid := bid, revision := row.revision + 1)
  }

  /** Table after an insertion attempt, and the identifier it reports. */
  function InsertSpec(rows: seq<Incident>, evidence: EvidenceId, at: Time, bid: Option<real>,
                      floor: real, allowNewEpisode: bool): (seq<Incident>, Option<EvidenceId>)
  {
    var existing := EarliestRow(rows, KindOf(bid), false);
    if bid.Some? && existing.Some?
       && (rows[existing.value].tFloor.None? || at < rows[existing.value].tFloor.value)
    then
      (rows[existing.value := Anchored(rows[existing.value], evidence, at, bid)], Some(rows[existing.value].id))
    else if existing.Some? && !allowNewEpisode then (rows, None)
    else if HasId(rows, evidence) then (rows, None)
    else (rows + [FreshIncident(evidence, at, bid, floor)], Some(evidence))
  }

  // ----- observing one quote -----

  /** The clock at which an accepted quote counts, and whether durable state is already newer. */
  datatype Arrival = Arrival(at: Time, outOfOrder: bool)

  function Clock(m: Memory): Option<Time> {
    if m.quote.Some? then Some(m.quote.value.seenAt) else None
  }

  function ArrivalOf(clock: Option<Time>, p: Position, q: Quote, floor: real, corroborated: Option<Time>): Arrival
    requires q.seenAt.Some?
  {
    var late := clock.Some? && q.seenAt.value < clock.value;
    if late && (IsBelow(q, floor) || IsNoBid(q)) && WithinExposure(p, corroborated) && clock.value <= corroborated.value
    then Arrival(corroborated.value, false)
    else Arrival(q.seenAt.value, late)
  }

  predicate StateBelow(m: Memory) {
    m.quote.Some? && m.quote.value.below
  }

  /** Whether a no-bid episode is open as a no-bid quote sees it, with the pre-generation rows' fallback. */
  predicate EpisodeOpenFor(m: Memory) {
    && m.quote.Some?
    && (|| m.quote.value.episodeOpen
        || (&& m.quote.value.generation == 0
            && m.quote.value.status == StatusNoBid
            && HasKind(m.rows, NoBid)))
  }

  function Reopened(row: Incident): Incident {
    if row.status in {Queued, Running, RetryPending} then row
    else row.(status := Queued, stage := Blind)
  }

  /** Incident table and created identifier after an accepted quote that counts at `at`. */
  function Cross(m: Memory, q: Quote, floor: real, at: Time): (seq<Incident>, Option<EvidenceId>) {
    if IsBelow(q, floor) then
      var bid := Some(Reconcile(q).bid);
      var earliest := EarliestRow(m.rows, BelowFloor, true);
      if earliest.Some? && at < m.rows[earliest.value].tFloor.value then
        (m.rows[earliest.value := Reopened(Anchored(m.rows[earliest.value], q.evidence, at, bid))],
         Some(m.rows[earliest.value].id))
      else if !StateBelow(m) then InsertSpec(m.rows, q.evidence, at, bid, floor, false)
      else (m.rows, None)
    else if IsNoBid(q) && (!EpisodeOpenFor(m) || !HasKind(m.rows, NoBid)) then
      InsertSpec(m.rows, q.evidence, at, None, floor, !EpisodeOpenFor(m) && HasKind(m.rows, NoBid))
    else (m.rows, None)
  }

  /** Durable quote state after an in-order quote; incomplete books carry the last bid forward. */
  function NextState(previous: Option<QuoteState>, q: Quote, floor: real, at: Time): QuoteState {
    var generation := if previous.Some? then previous.value.generation else 0;
    var open := previous.Some? && previous.value.episodeOpen;
    match Reconcile(q)
    case Executable(bid) =>
      QuoteState(q.evidence, at, Some(bid), StatusExecutable, bid < floor,
                 if bid >= floor && open then generation + 1 else generation, open && bid < floor)
    case NoBidReading => QuoteState(q.evidence, at, None, StatusNoBid, false, generation, true)
    case Conflict(depthBid) => QuoteState(q.evidence, at, depthBid, StatusConflict, false, generation, open)
    case Incomplete =>
      if previous.None? then QuoteState(q.evidence, at, None, StatusIncomplete, false, 0, false)
      else QuoteState(q.evidence, at, previous.value.bid, if open then StatusNoBid else StatusIncomplete,
                      previous.value.below, generation, open)
  }

  /** One call of the observer: the position's memory after it and the identifier it reports. */
  function ObserveSpec(m: Memory, p: Position, q: Quote, floor: real, historical: bool,
                       corroborated: Option<Time>): (Memory, Option<EvidenceId>)
  {
    if !WithinExposure(p, q.seenAt) then (m, None)
    else
      var arrival := ArrivalOf(Clock(m), p, q, floor, corroborated);
      if historical && arrival.outOfOrder && IsNoBid(q) then (m, None)
      else
        var (rows, created) := Cross(m, q, floor, arrival.at);
        (Memory(rows, if arrival.outOfOrder then m.quote else Some(NextState(m.quote, q, floor, arrival.at))), created)
  }

  /** The two tables as the process holds them, keyed by position. */
  class IncidentMemory {
    var incidents: map<string, seq<Incident>>
    var quotes: map<string, QuoteState>

    function View(id: string): Memory
      reads this
    {
      Memory(if id in incidents then incidents[id] else [], if id in quotes then Some(quotes[id]) else None)
    }

    constructor ()
      ensures forall id :: View(id) == EMPTY
    {
      incidents, quotes := map[], map[];
    }

    method InsertIncident(position: string, evidence: EvidenceId, at: Time, bid: Option<real>, floor: real,
                          allowNewEpisode: bool) returns (created: Option<EvidenceId>)
      modifies this`incidents
      ensures (View(position).rows, created)
           == InsertSpec(old(View(position).rows), evidence, at, bid, floor, allowNewEpisode)
      ensures created.Some? && !HasId(old(View(position).rows), created.value) ==>
                var row := View(position).rows[|old(View(position).rows)|];
                row.id == created.value && row.status == Queued && row.stage == Blind
      ensures forall other :: other != position ==> View(other) == old(View(other))
    {
      var rows := View(position).rows;
      var existing := FindEarliest(rows, KindOf(bid), false);
      if bid.Some? && existing.Some? {
        var row := rows[existing.value];
        if row.tFloor.None? || at < row.tFloor.value {
          incidents := incidents[position := rows[existing.value := Anchored(row, evidence, at, bid)]];
          return Some(row.id);
        }
      }
      if existing.Some? && !allowNewEpisode {
        return None;
      }
      if HasId(rows, evidence) {
        return None;
      }
      incidents := incidents[position := rows + [FreshIncident(evidence, at, bid, floor)]];
      return Some(evidence);
    }

    /** The incident half of one observation, for a quote that counts at `seenAt`. */
    method RecordCrossing(p: Position, q: Quote, reading: Reading, floor: real, seenAt: Time)
      returns (created: Option<EvidenceId>)
      requires reading == Reconcile(q)
      modifies this`incidents
      ensures (View(p.id).rows, created) == Cross(old(View(p.id)), q, floor, seenAt)
      ensures forall other :: other != p.id ==> View(other) == old(View(other))
    {
      created := None;
      var previous := View(p.id).quote;
      var rows := View(p.id).rows;
      var episodeExists := HasKind(rows, NoBid);
      if reading.NoBidReading? {
        var open := previous.Some? && previous.value.episodeOpen;
        if previous.Some? && previous.value.generation == 0 && !open
           && previous.value.status == StatusNoBid && episodeExists {
          open := true;
        }
        if !open || !episodeExists {
          created := InsertIncident(p.id, q.evidence, seenAt, None, floor, !open && episodeExists);
        }
      } else if reading.Executable? && reading.bid < floor {
        var earliest := FindEarliest(rows, BelowFloor, true);
        if earliest.Some? && seenAt < rows[earliest.value].tFloor.value {
          var row := Anchored(rows[earliest.value], q.evidence, seenAt, Some(reading.bid));
          if row.status !in {Queued, Running, RetryPending} {
            row := row.(status := Queued, stage := Blind);
          }
          incidents := incidents[p.id := rows[earliest.value := row]];
          created := Some(row.id);
        } else if previous.None? || !previous.value.below {
          created := InsertIncident(p.id, q.evidence, seenAt, Some(reading.bid), floor, false);
        }
      }
    }

    /** The quote-state half of one observation, for an in-order quote. */
    method RecordState(p: Position, q: Quote, reading: Reading, floor: real, seenAt: Time)
      requires reading == Reconcile(q)
      modifies this`quotes
      ensures View(p.id).quote == Some(NextState(old(View(p.id).quote), q, floor, seenAt))
      ensures forall other :: other != p.id ==> View(other) == old(View(other))
    {
      var previous := View(p.id).quote;
      var generation := if previous.Some? then previous.value.generation else 0;
      var open := previous.Some? && previous.value.episodeOpen;
      var bid, status, below := None, StatusIncomplete, false;
      match reading {
        case Executable(b) => bid, status, below := Some(b), StatusExecutable, b < floor;
        case Conflict(b) => bid, status := b, StatusConflict;
        case NoBidReading => status := StatusNoBid;
        case Incomplete =>
      }
      if reading.Executable? && reading.bid >= floor && open {
        open, generation := false, generation + 1;
      }
      if reading.Incomplete? && previous.Some? {
        bid, below := previous.value.bid, previous.value.below;
        if open {
          status := StatusNoBid;
        }
      }
      if reading.NoBidReading? {
        open := true;
      }
      quotes := quotes[p.id := QuoteState(q.evidence, seenAt, bid, status, below, generation, open)];
    }

    method ObserveQuote(p: Position, q: Quote, floor: real, historical: bool, corroborated: Option<Time>)
      returns (created: Option<EvidenceId>)
      modifies this
      ensures (View(p.id), created) == ObserveSpec(old(View(p.id)), p, q, floor, historical, corroborated)
      ensures forall other :: other != p.id ==> View(other) == old(View(other))
    {
      if !WithinExposure(p, q.seenAt) {
        return None;
      }
      var reading := ReconcileHeldQuote(q);
      var floorFact := reading.NoBidReading? || (reading.Executable? && reading.bid < floor);
      var previous := View(p.id).quote;
      var seenAt := q.seenAt.value;
      var outOfOrder := previous.Some? && seenAt < previous.value.seenAt;
      if outOfOrder && floorFact && WithinExposure(p, corroborated) && previous.value.seenAt <= corroborated.value {
        seenAt, outOfOrder := corroborated.value, false;
      }
      if historical && outOfOrder && reading.NoBidReading? {
        return None;
      }
      created := RecordCrossing(p, q, reading, floor, seenAt);
      if !outOfOrder {
        RecordState(p, q, reading, floor, seenAt);
      }
    }
  }
}
