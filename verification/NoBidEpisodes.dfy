/**
 No-bid episodes.  A reference scan, which knows nothing of incident rows, splits a
 run's accepted quotes into episodes; the detector's durable state is shown to be
 that scan, and its no-bid incidents exactly the facts that opened the episodes.
 */
module NoBidEpisodes {
  import opened Common
  import opened Quotes
  import opened Detector
  import opened DetectorRuns

  /** `openers` holds the first fact of each episode; `strays` live no-bid facts older than the clock. */
  datatype Episodes = Episodes(
    clock: Option<Time>,
    open: bool,
    generation: nat,
    openers: seq<EvidenceId>,
    strays: seq<EvidenceId>)

  function Track(r: Episodes, e: Event, floor: real): Episodes {
    if !e.Observed? || !WithinExposure(e.p, e.q.seenAt) then r
    else
      var arrival := ArrivalOf(r.clock, e.p, e.q, floor, e.corroborated);
      if arrival.outOfOrder then
        if IsNoBid(e.q) && !e.historical && !r.open then r.(strays := r.strays + [e.q.evidence]) else r
      else
        var seen := r.(clock := Some(arrival.at));
        if IsNoBid(e.q) && !r.open then seen.(open := true, openers := r.openers + [e.q.evidence])
        else if Reconcile(e.q).Executable? && Reconcile(e.q).bid >= floor && r.open then
          seen.(open := false, generation := r.generation + 1)
        else seen
  }

  function Reference(events: seq<Event>, floor: real): Episodes {
    if events == [] then Episodes(None, false, 0, [], [])
    else Track(Reference(events[..|events| - 1], floor), events[|events| - 1], floor)
  }

  function NoBidIds(rows: seq<Incident>): set<EvidenceId> {
    set i | 0 <= i < |rows| && rows[i].kind == NoBid :: rows[i].id
  }

  /** No two rows share an identifier, and a no-bid row never leaves the fact that created it. */
  predicate Keyed(rows: seq<Incident>) {
    && (forall i, j :: 0 <= i < j < |rows| ==> rows[i].id != rows[j].id)
    && (forall i :: 0 <= i < |rows| && rows[i].kind == NoBid ==> rows[i].crossing == rows[i].id && rows[i].tFloor.None?)
  }

  /** The quote half of the correspondence. */
  predicate StateFollows(quote: Option<QuoteState>, r: Episodes) {
    && |r.openers| == r.generation + (if r.open then 1 else 0)
    && (quote.None? ==> r == Episodes(None, false, 0, [], []))
    && (quote.Some? ==>
          && r.clock == Some(quote.value.seenAt)
          && r.open == quote.value.episodeOpen
          && r.generation == quote.value.generation
          && (quote.value.status == StatusNoBid ==> r.open))
  }

  ghost predicate Follows(m: Memory, r: Episodes) {
    && Keyed(m.rows)
    && NoBidIds(m.rows) == Elements(r.openers) + Elements(r.strays)
    && StateFollows(m.quote, r)
  }

  lemma KindIffIds(rows: seq<Incident>)
    ensures HasKind(rows, NoBid) <==> NoBidIds(rows) != {}
    ensures HasKind(rows, NoBid) <==> EarliestRow(rows, NoBid, false).Some?
  {
    if HasKind(rows, NoBid) {
      var i :| 0 <= i < |rows| && rows[i].kind == NoBid;
      assert rows[i].id in NoBidIds(rows);
      assert Matches(rows[i], NoBid, false);
    }
  }

  /** Re-anchoring or restating a row keeps every key and every no-bid identifier. */
  lemma UpdateKeepsIds(rows: seq<Incident>, k: nat, row: Incident)
    requires k < |rows| && Keyed(rows)
    requires row.id == rows[k].id && row.kind == rows[k].kind
    requires row.kind == NoBid ==> row.crossing == rows[k].crossing && row.tFloor == rows[k].tFloor
    ensures Keyed(rows[k := row]) && NoBidIds(rows[k := row]) == NoBidIds(rows)
  {
    var next := rows[k := row];
    assert forall i :: 0 <= i < |rows| ==> next[i].id == rows[i].id && next[i].kind == rows[i].kind;
    assert forall id :: id in NoBidIds(rows) <==> id in NoBidIds(next);
  }

  lemma AppendKeepsIds(rows: seq<Incident>, row: Incident)
    requires Keyed(rows) && !HasId(rows, row.id)
    requires row.kind == NoBid ==> row.crossing == row.id && row.tFloor.None?
    ensures Keyed(rows + [row])
    ensures NoBidIds(rows + [row]) == NoBidIds(rows) + if row.kind == NoBid then {row.id} else {}
  {
    var next := rows + [row];
    assert forall i :: 0 <= i < |rows| ==> next[i] == rows[i];
    forall id | id in NoBidIds(next)
      ensures id in NoBidIds(rows) + if row.kind == NoBid then {row.id} else {}
    {
      var i :| 0 <= i < |next| && next[i].kind == NoBid && next[i].id == id;
      assert i < |rows| ==> rows[i].id == id;
    }
    forall id | id in NoBidIds(rows)
      ensures id in NoBidIds(next)
    {
      var i :| 0 <= i < |rows| && rows[i].kind == NoBid && rows[i].id == id;
      assert next[i].id == id;
    }
    if row.kind == NoBid {
      assert next[|rows|].id == row.id;
    }
  }

  lemma InsertKeepsBelow(rows: seq<Incident>, q: Quote, at: Time, floor: real)
    requires Keyed(rows) && IsBelow(q, floor)
    ensures var next := InsertSpec(rows, q.evidence, at, Some(Reconcile(q).bid), floor, false).0;
            Keyed(next) && NoBidIds(next) == NoBidIds(rows)
  {
    var bid := Some(Reconcile(q).bid);
    var existing := EarliestRow(rows, BelowFloor, false);
    if existing.Some? {
      UpdateKeepsIds(rows, existing.value, Anchored(rows[existing.value], q.evidence, at, bid));
    } else if !HasId(rows, q.evidence) {
      AppendKeepsIds(rows, FreshIncident(q.evidence, at, bid, floor));
    }
  }

  /** A no-bid insertion that is allowed through leaves the fact's identifier present exactly once. */
  lemma InsertAddsNoBid(m: Memory, q: Quote, at: Time, floor: real, book: Book)
    requires Keyed(m.rows) && IdsFrom(m, book) && IsNoBid(q)
    requires q.evidence in book && book[q.evidence] == q
    ensures var next := InsertSpec(m.rows, q.evidence, at, None, floor, HasKind(m.rows, NoBid)).0;
            Keyed(next) && NoBidIds(next) == NoBidIds(m.rows) + {q.evidence}
  {
    KindIffIds(m.rows);
    if HasId(m.rows, q.evidence) {
      var i :| 0 <= i < |m.rows| && m.rows[i].id == q.evidence;
      assert m.rows[i].kind == NoBid;
      assert q.evidence in NoBidIds(m.rows);
    } else {
      AppendKeepsIds(m.rows, FreshIncident(q.evidence, at, None, floor));
    }
  }

  /** What one accepted quote does to the no-bid identifiers. */
  lemma CrossIds(m: Memory, r: Episodes, q: Quote, floor: real, at: Time, book: Book)
    requires Follows(m, r) && IdsFrom(m, book)
    requires q.evidence in book && book[q.evidence] == q
    ensures var next := Cross(m, q, floor, at).0;
            && Keyed(next)
            && NoBidIds(next) == NoBidIds(m.rows) + if IsNoBid(q) && !r.open then {q.evidence} else {}
  {
    KindIffIds(m.rows);
    if IsBelow(q, floor) {
      var earliest := EarliestRow(m.rows, BelowFloor, true);
      if earliest.Some? && at < m.rows[earliest.value].tFloor.value {
        UpdateKeepsIds(m.rows, earliest.value,
                       Reopened(Anchored(m.rows[earliest.value], q.evidence, at, Some(Reconcile(q).bid))));
      } else if !StateBelow(m) {
        InsertKeepsBelow(m.rows, q, at, floor);
      }
    } else if IsNoBid(q) {
      if r.open {
        assert r.openers[0] in Elements(r.openers);
      } else {
        InsertAddsNoBid(m, q, at, floor, book);
      }
    }
  }

  lemma StateStep(m: Memory, r: Episodes, e: Event, floor: real)
    requires StateFollows(m.quote, r)
    ensures StateFollows(Apply(m, e, floor).quote, Track(r, e, floor))
  {
    if e.Observed? && WithinExposure(e.p, e.q.seenAt) {
      assert Clock(m) == r.clock;
      var arrival := ArrivalOf(r.clock, e.p, e.q, floor, e.corroborated);
    }
  }

  lemma IdStep(m: Memory, r: Episodes, e: Event, floor: real, book: Book)
    requires Follows(m, r) && IdsFrom(m, book) && FromBook(e, book)
    ensures var next, track := Apply(m, e, floor), Track(r, e, floor);
            Keyed(next.rows) && NoBidIds(next.rows) == Elements(track.openers) + Elements(track.strays)
  {
    match e {
      case Observed(p, q, historical, corroborated) =>
        if WithinExposure(p, q.seenAt) {
          var arrival := ArrivalOf(Clock(m), p, q, floor, corroborated);
          if !(historical && arrival.outOfOrder && IsNoBid(q)) {
            CrossIds(m, r, q, floor, arrival.at, book);
            ElementsOfSnoc(r.openers, q.evidence);
            ElementsOfSnoc(r.strays, q.evidence);
          }
        }
      case Replayed(p, q) =>
        if IsCrossing(e, floor) {
          InsertKeepsBelow(m.rows, q, q.seenAt.value, floor);
        }
      case Restated(row, status, stage) =>
        if row < |m.rows| {
          UpdateKeepsIds(m.rows, row, m.rows[row].(status := status, stage := stage));
        }
    }
  }

  /** Every run's durable state is the reference scan, and its no-bid incidents are the scan's facts. */
  lemma {:induction false} DetectorFollowsEpisodes(events: seq<Event>, floor: real, book: Book)
    requires AllFromBook(events, book)
    ensures Follows(After(events, floor), Reference(events, floor))
  {
    if events != [] {
      var n := |events| - 1;
      DetectorFollowsEpisodes(events[..n], floor, book);
      FloorAnchor(events[..n], floor, book);
      var m, r := After(events[..n], floor), Reference(events[..n], floor);
      StateStep(m, r, events[n], floor);
      IdStep(m, r, events[n], floor, book);
    }
  }

  /**
   When every out-of-order no-bid quote is a historical one, the no-bid incidents
   are exactly the opening facts, at most one per closed generation plus one if open.
   */
  lemma OneIncidentPerEpisode(events: seq<Event>, floor: real, book: Book)
    requires AllFromBook(events, book) && Reference(events, floor).strays == []
    ensures var m, r := After(events, floor), Reference(events, floor);
            && NoBidIds(m.rows) == Elements(r.openers)
            && |NoBidIds(m.rows)| <= (if m.quote.None? then 0
                                      else m.quote.value.generation + if m.quote.value.episodeOpen then 1 else 0)
  {
    DetectorFollowsEpisodes(events, floor, book);
    ElementsNoLarger(Reference(events, floor).openers);
  }

  /** With no restriction on the run, each live out-of-order no-bid quote can add one more. */
  lemma IncidentsBoundedByEpisodesAndStrays(events: seq<Event>, floor: real, book: Book)
    requires AllFromBook(events, book)
    ensures var r := Reference(events, floor);
            |NoBidIds(After(events, floor).rows)| <= r.generation + (if r.open then 1 else 0) + |r.strays|
  {
    DetectorFollowsEpisodes(events, floor, book);
    var r := Reference(events, floor);
    ElementsNoLarger(r.openers + r.strays);
    assert Elements(r.openers + r.strays) == Elements(r.openers) + Elements(r.strays);
  }

  /** And it does: a recovered book followed by an older live no-bid quote leaves an incident with no episode. */
  lemma LiveStrayMakesAnExtraIncident(p: Position, recovered: Quote, stale: Quote, floor: real)
    requires WithinExposure(p, recovered.seenAt) && WithinExposure(p, stale.seenAt)
    requires stale.seenAt.value < recovered.seenAt.value
    requires Reconcile(recovered).Executable? && Reconcile(recovered).bid >= floor && IsNoBid(stale)
    ensures var m := After([Observed(p, recovered, false, None), Observed(p, stale, false, None)], floor);
            && NoBidIds(m.rows) == {stale.evidence}
            && m.quote.Some? && m.quote.value.generation == 0 && !m.quote.value.episodeOpen
  {
    var first := [Observed(p, recovered, false, None)];
    var both := first + [Observed(p, stale, false, None)];
    assert both[..1] == first && first[..0] == [];
    assert After([], floor) == EMPTY;
    assert After(first, floor) == Apply(After(first[..0], floor), first[0], floor);
    var m := After(first, floor);
    assert m.rows == [];
    var after := After(both, floor);
    assert after == Apply(m, both[1], floor);
    assert EarliestRow(m.rows, NoBid, false).None?;
    assert after.rows == [FreshIncident(stale.evidence, stale.seenAt.value, None, floor)];
    assert after.rows[0].id == stale.evidence;
    assert both == [Observed(p, recovered, false, None), Observed(p, stale, false, None)];
  }

  /** From any memory at all: the clock never moves back, and only an in-order recovery closes an episode. */
  lemma OnlyRecoveryClosesAnEpisode(m: Memory, e: Event, floor: real)
    requires m.quote.Some?
    ensures var next := Apply(m, e, floor);
            && next.quote.Some?
            && m.quote.value.seenAt <= next.quote.value.seenAt
            && m.quote.value.generation <= next.quote.value.generation <= m.quote.value.generation + 1
            && (m.quote.value.episodeOpen && !next.quote.value.episodeOpen <==>
                next.quote.value.generation == m.quote.value.generation + 1)
            && (next.quote.value.generation == m.quote.value.generation + 1 ==>
                  && e.Observed?
                  && Reconcile(e.q).Executable? && Reconcile(e.q).bid >= floor
                  && e.q.seenAt.Some? && m.quote.value.seenAt <= e.q.seenAt.value)
  {
    if e.Observed? && WithinExposure(e.p, e.q.seenAt) {
      var arrival := ArrivalOf(Clock(m), e.p, e.q, floor, e.corroborated);
      assert !arrival.outOfOrder ==> m.quote.value.seenAt <= arrival.at;
    }
  }

  /** A no-bid row, once there, keeps its place, its identifier and its anchor under every event. */
  lemma NoBidRowsStayAnchored(m: Memory, e: Event, floor: real, i: nat)
    requires i < |m.rows| && m.rows[i].kind == NoBid
    ensures var next := Apply(m, e, floor);
            && i < |next.rows|
            && next.rows[i] == m.rows[i].(status := next.rows[i].status, stage := next.rows[i].stage)
  {
    if e.Observed? && WithinExposure(e.p, e.q.seenAt) {
      var arrival := ArrivalOf(Clock(m), e.p, e.q, floor, e.corroborated);
      var rows := Cross(m, e.q, floor, arrival.at).0;
      assert i < |rows| && rows[i] == m.rows[i];
    }
  }
}
