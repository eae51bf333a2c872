/** What one event of a run does to the incident rows: how they are born, re-anchored and reopened. */
module DetectorRows {
  import opened Common
  import opened Quotes
  import opened Detector
  import opened DetectorRuns

  /** The identifier an event reports. */
  function Report(m: Memory, e: Event, floor: real): Option<EvidenceId> {
    match e
    case Observed(p, q, historical, corroborated) => ObserveSpec(m, p, q, floor, historical, corroborated).1
    case Replayed(p, q) =>
      if WithinExposure(p, q.seenAt) && IsBelow(q, floor)
      then InsertSpec(m.rows, q.evidence, q.seenAt.value, Some(Reconcile(q).bid), floor, false).1
      else None
    case Restated(_, _, _) => None
  }

  /** Work on the incident is under way or about to start. */
  predicate Active(status: Status) {
    status == Queued || status == Running || status == RetryPending
  }

  /** A row as the quote that crossed first leaves it: waiting for its blind diagnosis. */
  predicate Born(row: Incident, q: Quote, floor: real) {
    && row.status == Queued && row.stage == Blind && row.revision == 1
    && row.id == q.evidence && row.crossing == q.evidence && row.floor == floor
    && (if IsNoBid(q) then row.kind == NoBid && row.bid.None? && row.tFloor.None?
        else IsBelow(q, floor) && row.kind == BelowFloor && row.bid == Some(Reconcile(q).bid) && row.tFloor.Some?)
  }

  /** A below-floor row moved back to an earlier crossing; nothing else of its identity changes. */
  predicate MovedBack(before: Incident, after: Incident, q: Quote, floor: real) {
    && IsBelow(q, floor) && before.kind == BelowFloor && before.tFloor.Some?
    && after.tFloor.Some? && after.tFloor.value < before.tFloor.value
    && after.crossing == q.evidence && after.bid == Some(Reconcile(q).bid) && after.revision == before.revision + 1
    && after.id == before.id && after.kind == before.kind && after.floor == before.floor
  }

  /** What an event does to the row at `i`, in the row's own columns. */
  ghost predicate RowChanges(before: seq<Incident>, after: seq<Incident>, e: Event, floor: real, i: nat)
    requires i < |before| <= |after|
  {
    match e
    case Observed(_, q, _, _) =>
      || after[i] == before[i]
      || (&& MovedBack(before[i], after[i], q, floor)
          && (if Active(before[i].status) then after[i].status == before[i].status && after[i].stage == before[i].stage
              else after[i].status == Queued && after[i].stage == Blind))
    case Replayed(_, q) =>
      || after[i] == before[i]
      || (&& MovedBack(before[i], after[i], q, floor)
          && after[i].status == before[i].status && after[i].stage == before[i].stage)
    case Restated(row, status, stage) =>
      after[i] == if i == row then before[i].(status := status, stage := stage) else before[i]
  }

  /** Rows stay where they are, and an event appends at most the row it reports. */
  ghost predicate RowsChange(before: seq<Incident>, after: seq<Incident>, e: Event, floor: real,
                             report: Option<EvidenceId>) {
    && |before| <= |after| <= |before| + 1
    && (forall i :: 0 <= i < |before| ==> RowChanges(before, after, e, floor, i))
    && (|after| > |before| ==>
          !e.Restated? && Born(after[|before|], e.q, floor) && report == Some(after[|before|].id)
          && !HasId(before, after[|before|].id))
    && (report.Some? ==> HasId(after, report.value))
    && (report.Some? && |after| == |before| ==>
          exists i :: 0 <= i < |before| && before[i].id == report.value && after[i].revision > before[i].revision)
  }

  /** Every below-floor row has a time. */
  predicate Timed(rows: seq<Incident>) {
    forall i :: 0 <= i < |rows| && rows[i].kind == BelowFloor ==> rows[i].tFloor.Some?
  }

  lemma InsertChanges(rows: seq<Incident>, e: Event, at: Time, floor: real)
    requires Timed(rows) && !e.Restated? && IsBelow(e.q, floor)
    requires var existing := EarliestRow(rows, BelowFloor, false);
             e.Observed? && existing.Some? ==> rows[existing.value].tFloor.value <= at
    ensures var (after, report) := InsertSpec(rows, e.q.evidence, at, Some(Reconcile(e.q).bid), floor, false);
            RowsChange(rows, after, e, floor, report) && Timed(after)
  {
    var (after, report) := InsertSpec(rows, e.q.evidence, at, Some(Reconcile(e.q).bid), floor, false);
    if |after| > |rows| {
      assert after[|rows|].id == e.q.evidence;
    } else if report.Some? {
      var existing := EarliestRow(rows, BelowFloor, false);
      assert after[existing.value].id == report.value;
    }
  }

  lemma NoBidChanges(rows: seq<Incident>, e: Event, at: Time, floor: real, allowNew: bool)
    requires Timed(rows) && e.Observed? && IsNoBid(e.q)
    ensures var (after, report) := InsertSpec(rows, e.q.evidence, at, None, floor, allowNew);
            RowsChange(rows, after, e, floor, report) && Timed(after)
  {
    var (after, report) := InsertSpec(rows, e.q.evidence, at, None, floor, allowNew);
    if |after| > |rows| {
      assert after[|rows|].id == e.q.evidence;
    }
  }

  lemma CrossChanges(m: Memory, e: Event, at: Time, floor: real)
    requires Timed(m.rows) && e.Observed?
    ensures var (after, report) := Cross(m, e.q, floor, at);
            RowsChange(m.rows, after, e, floor, report) && Timed(after)
  {
    if IsBelow(e.q, floor) {
      var earliest := EarliestRow(m.rows, BelowFloor, true);
      if earliest.Some? && at < m.rows[earliest.value].tFloor.value {
        var (after, report) := Cross(m, e.q, floor, at);
        assert after[earliest.value].id == report.value;
      } else if !StateBelow(m) {
        var existing := EarliestRow(m.rows, BelowFloor, false);
        if existing.Some? {
          assert Matches(m.rows[existing.value], BelowFloor, true);
          assert Matches(m.rows[earliest.value], BelowFloor, false);
        }
        InsertChanges(m.rows, e, at, floor);
      }
    } else if IsNoBid(e.q) && (!EpisodeOpenFor(m) || !HasKind(m.rows, NoBid)) {
      NoBidChanges(m.rows, e, at, floor, !EpisodeOpenFor(m) && HasKind(m.rows, NoBid));
    }
  }

  lemma EventChanges(m: Memory, e: Event, floor: real)
    requires Timed(m.rows)
    ensures RowsChange(m.rows, Apply(m, e, floor).rows, e, floor, Report(m, e, floor))
    ensures Timed(Apply(m, e, floor).rows)
  {
    match e {
      case Observed(p, q, historical, corroborated) =>
        if WithinExposure(p, q.seenAt) {
          CrossChanges(m, e, ArrivalOf(Clock(m), p, q, floor, corroborated).at, floor);
        }
      case Replayed(p, q) =>
        if WithinExposure(p, q.seenAt) && IsBelow(q, floor) {
          InsertChanges(m.rows, e, q.seenAt.value, floor);
        }
      case Restated(_, _, _) =>
    }
  }

  lemma {:induction false} RunIsTimed(events: seq<Event>, floor: real)
    ensures Timed(After(events, floor).rows)
  {
    if events != [] {
      var n := |events| - 1;
      RunIsTimed(events[..n], floor);
      EventChanges(After(events[..n], floor), events[n], floor);
    }
  }

  /** The memory the last event of a run found. */
  function Found(events: seq<Event>, floor: real): Memory
    requires events != []
  {
    After(events[..|events| - 1], floor)
  }

  /**
   Over every run, an event keeps every row in its place and changes it only by moving it
   back to an earlier crossing, or by the dispatcher's restatement; an observation that moves
   a row back leaves it queued for a blind diagnosis unless work on it was under way, a
   replay leaves its status alone.  At most one row is appended, the one reported.
   */
  lemma EveryEventKeepsRows(events: seq<Event>, floor: real)
    requires events != []
    ensures var e := events[|events| - 1];
            RowsChange(Found(events, floor).rows, After(events, floor).rows, e, floor,
                       Report(Found(events, floor), e, floor))
  {
    var n := |events| - 1;
    RunIsTimed(events[..n], floor);
    EventChanges(After(events[..n], floor), events[n], floor);
  }

  /** Over every run, an identifier reported for the first time names a row that is queued at the blind stage. */
  lemma NewIncidentIsQueued(events: seq<Event>, floor: real, id: EvidenceId)
    requires events != [] && Report(Found(events, floor), events[|events| - 1], floor) == Some(id)
    requires !HasId(Found(events, floor).rows, id)
    ensures var before, after := Found(events, floor).rows, After(events, floor).rows;
            && |after| == |before| + 1 && after[|before|].id == id
            && after[|before|].status == Queued && after[|before|].stage == Blind && after[|before|].revision == 1
  {
    EveryEventKeepsRows(events, floor);
  }

  /** Over every run, an observation that re-anchors a row leaves work on it under way or queued at the blind stage. */
  lemma ReanchoredRowIsActive(events: seq<Event>, floor: real, i: nat)
    requires events != [] && events[|events| - 1].Observed?
    requires i < |Found(events, floor).rows| && i < |After(events, floor).rows|
    requires After(events, floor).rows[i].crossing != Found(events, floor).rows[i].crossing
    ensures var before, after := Found(events, floor).rows[i], After(events, floor).rows[i];
            && Active(after.status) && after.revision == before.revision + 1
            && (if Active(before.status) then after.status == before.status && after.stage == before.stage
                else after.status == Queued && after.stage == Blind)
  {
    EveryEventKeepsRows(events, floor);
    assert RowChanges(Found(events, floor).rows, After(events, floor).rows, events[|events| - 1], floor, i);
  }

  // ----- the clock a crossing counts at -----

  /** The quote is older than the durable state, and a quote at `at`, inside the exposure, stands by it. */
  predicate StoodBy(m: Memory, e: Event, at: Time) {
    && e.Observed? && WithinExposure(e.p, e.q.seenAt) && WithinExposure(e.p, e.corroborated)
    && e.corroborated == Some(at) && Clock(m).Some? && e.q.seenAt.value < Clock(m).value <= at
  }

  /**
   Over every run, a late crossing that a newer quote stands by counts at that quote's own
   time and becomes the durable state; any other crossing counts at its own time, and
   becomes the durable state unless it is late.
   */
  lemma CorroboratedCrossingCounts(events: seq<Event>, floor: real)
    requires events != [] && events[|events| - 1].Observed? && IsCrossing(events[|events| - 1], floor)
    ensures var e, m, next := events[|events| - 1], Found(events, floor), After(events, floor);
            var times := CrossingTimes(events[..|events| - 1], floor);
            && (forall at :: StoodBy(m, e, at) ==>
                  && CrossingTimes(events, floor) == times + {at}
                  && next.quote.Some? && next.quote.value.seenAt == at && next.quote.value.evidence == e.q.evidence
                  && next.quote.value.below)
            && ((forall at :: !StoodBy(m, e, at)) ==>
                  && CrossingTimes(events, floor) == times + {e.q.seenAt.value}
                  && (if Clock(m).Some? && e.q.seenAt.value < Clock(m).value then next.quote == m.quote
                      else next.quote.Some? && next.quote.value.seenAt == e.q.seenAt.value && next.quote.value.below))
  {
    var e, m := events[|events| - 1], Found(events, floor);
    if e.corroborated.Some? && !StoodBy(m, e, e.corroborated.value) {
      assert ArrivalOf(Clock(m), e.p, e.q, floor, e.corroborated).at == e.q.seenAt.value;
    }
  }

  // ----- the durable quote state -----

  /** The state a quote leaves: its own reading, an incomplete book carrying forward what was known. */
  predicate Reads(state: QuoteState, previous: Option<QuoteState>, q: Quote, floor: real) {
    && state.evidence == q.evidence
    && match Reconcile(q)
       case Executable(bid) =>
         state.bid == Some(bid) && state.status == StatusExecutable && state.below == (bid < floor)
       case NoBidReading => state.bid.None? && state.status == StatusNoBid && !state.below && state.episodeOpen
       case Conflict(depthBid) => state.bid == depthBid && state.status == StatusConflict && !state.below
       case Incomplete =>
         && state.bid == (if previous.Some? then previous.value.bid else None)
         && state.below == (previous.Some? && previous.value.below)
         && state.episodeOpen == (previous.Some? && previous.value.episodeOpen)
         && state.status == if state.episodeOpen then StatusNoBid else StatusIncomplete
  }

  /**
   Over every run, an accepted quote that is not late, or is a floor fact a newer quote
   stands by, becomes the durable state as it reads; nothing else touches it.
   */
  lemma StateReadsLastQuote(events: seq<Event>, floor: real)
    requires events != []
    ensures var e, m, next := events[|events| - 1], Found(events, floor), After(events, floor);
            if && e.Observed? && WithinExposure(e.p, e.q.seenAt)
               && (|| Clock(m).None? || Clock(m).value <= e.q.seenAt.value
                   || ((IsBelow(e.q, floor) || IsNoBid(e.q)) && exists at :: StoodBy(m, e, at)))
            then next.quote.Some? && Reads(next.quote.value, m.quote, e.q, floor)
            else next.quote == m.quote
  {
    var e, m := events[|events| - 1], Found(events, floor);
    if e.Observed? && e.corroborated.Some? {
      assert StoodBy(m, e, e.corroborated.value) <==> exists at :: StoodBy(m, e, at);
    }
  }
}
