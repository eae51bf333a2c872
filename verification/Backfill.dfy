/**
 Paged replay of a position's quote history.  A slice reads one page after the
 durable (time, rowid) cursor and may be cut by its deadline or interrupted inside
 SQLite; replay stops for good at the first crossing or at the end of history.
 */
module Backfill {
  import opened Common
  import opened Quotes
  import opened Detector

  datatype Key = Key(at: Time, row: nat)

  predicate Before(a: Key, b: Key) {
    a.at < b.at || (a.at == b.at && a.row < b.row)
  }

  datatype HistoryRow = HistoryRow(key: Key, quote: Quote)

  /** Exposure facts digested into the stored fingerprint. */
  type Fingerprint = (Option<Time>, Option<Time>)

  function FingerprintOf(p: Position): Fingerprint {
    (p.start, p.end)
  }

  datatype BackfillState = BackfillState(
    fingerprint: Fingerprint,
    last: Option<Key>,
    bid: Option<real>,
    below: bool,
    completed: bool)

  /** How a slice ends early: inside SQLite, or before the row numbered `rows` is looked at. */
  datatype Cut = Interrupted | Deadline(rows: nat)

  /** Replay never starts before the history cutoff or the exposure. */
  function ReplayStart(p: Position, cutoff: Time): (start: Time)
    requires p.start.Some?
    ensures start >= cutoff && start >= p.start.value && (start == cutoff || start == p.start.value)
  {
    Max(cutoff, p.start.value)
  }

  /** The token's rows inside the replay window, in `ORDER BY quote_seen_at, rowid` order. */
  ghost predicate IsHistory(history: seq<HistoryRow>, p: Position, cutoff: Time) {
    && p.start.Some?
    && (forall i, j :: 0 <= i < j < |history| ==> Before(history[i].key, history[j].key))
    && (forall i :: 0 <= i < |history| ==>
                      && history[i].quote.seenAt == Some(history[i].key.at)
                      && history[i].key.row > 0
                      && ReplayStart(p, cutoff) <= history[i].key.at
                      && (p.end.Some? ==> history[i].key.at < p.end.value))
  }

  /** `WHERE quote_seen_at > ? OR (quote_seen_at = ? AND rowid > ?)`. */
  function Pending(history: seq<HistoryRow>, cursor: Key): seq<HistoryRow> {
    if history == [] then []
    else (if Before(cursor, history[0].key) then [history[0]] else []) + Pending(history[1..], cursor)
  }

  function Page(rows: seq<HistoryRow>, limit: nat): seq<HistoryRow> {
    if |rows| <= limit then rows else rows[..limit]
  }

  // ----- one page -----

  datatype Scan = Scan(processed: nat, found: bool, below: bool, bid: Option<real>)

  /** One more reading of a scan that has not crossed yet. */
  function ScanStep(s: Scan, reading: Reading, floor: real): Scan {
    var next := s.(processed := s.processed + 1);
    match reading
    case Executable(b) => next.(found := b < floor && !s.below, below := b < floor, bid := Some(b))
    case NoBidReading => next.(below := false, bid := None)
    case _ => next
  }

  /** What the first `n` rows of a page leave behind; the scan stops at its first crossing. */
  function ScanRows(page: seq<HistoryRow>, n: nat, floor: real, below: bool, bid: Option<real>): (s: Scan)
    requires n <= |page|
    ensures s.processed <= n
    ensures s.found ==> 0 < s.processed
    ensures !s.found ==> s.processed == n
  {
    if n == 0 then Scan(0, false, below, bid)
    else
      var s := ScanRows(page, n - 1, floor, below, bid);
      if s.found then s else ScanStep(s, Reconcile(page[n - 1].quote), floor)
  }

  /** Incident table after a page in which the row `at` was the crossing. */
  function Crossed(m: Memory, row: HistoryRow, bid: Option<real>, floor: real): Memory {
    Memory(InsertSpec(m.rows, row.quote.evidence, row.key.at, bid, floor, false).0, m.quote)
  }

  /** Stored columns as they are once at least one row of a page has been looked at. */
  function PageState(fingerprint: Fingerprint, page: seq<HistoryRow>, s: Scan, limit: nat): BackfillState
    requires 0 < s.processed <= |page|
  {
    BackfillState(fingerprint, Some(page[s.processed - 1].key), s.bid, s.below,
                  s.found || (s.processed == |page| && |page| < limit))
  }

  /** Outcome of looking at the first `n` rows of a non-empty page. */
  function PageSpec(m: Memory, st: Option<BackfillState>, p: Position, page: seq<HistoryRow>, n: nat,
                    floor: real, limit: nat): (Memory, Option<BackfillState>)
    requires n <= |page|
  {
    var resumed := Resumed(st, p);
    var s := ScanRows(page, n, floor, resumed && st.value.below, if resumed then st.value.bid else None);
    if s.processed == 0 then (m, st)
    else
      (if s.found then Crossed(m, page[s.processed - 1], s.bid, floor) else m,
       Some(PageState(FingerprintOf(p), page, s, limit)))
  }

  predicate Resumed(st: Option<BackfillState>, p: Position) {
    st.Some? && st.value.fingerprint == FingerprintOf(p)
  }

  function CursorOf(st: Option<BackfillState>, p: Position, cutoff: Time): Key
    requires p.start.Some?
  {
    if Resumed(st, p) && st.value.last.Some? then st.value.last.value else Key(ReplayStart(p, cutoff), 0)
  }

  /** One slice for one position; a position whose replay is complete is not picked. */
  function SliceSpec(m: Memory, st: Option<BackfillState>, p: Position, cutoff: Time, history: seq<HistoryRow>,
                     floor: real, limit: nat, cut: Cut): (Memory, Option<BackfillState>)
  {
    if Resumed(st, p) && st.value.completed then (m, st)
    else if p.start.None? then (m, Some(Finished(st, FingerprintOf(p))))
    else if cut.Interrupted? then (m, st)
    else
      var page := Page(Pending(history, CursorOf(st, p, cutoff)), limit);
      if page == [] then (m, Some(Finished(st, FingerprintOf(p))))
      else PageSpec(m, st, p, page, Min(cut.rows, |page|), floor, limit)
  }

  /** The upsert that marks a position complete leaves the other stored columns alone. */
  function Finished(st: Option<BackfillState>, fingerprint: Fingerprint): BackfillState {
    if st.Some? then st.value.(fingerprint := fingerprint, completed := true)
    else BackfillState(fingerprint, None, None, false, true)
  }

  /** The replay table beside the incident tables. */
  class BackfillMemory {
    var states: map<string, BackfillState>

    function View(id: string): Option<BackfillState>
      reads this
    {
      if id in states then Some(states[id]) else None
    }

    constructor ()
      ensures states == map[]
    {
      states := map[];
    }

    /** Advance one position by one slice. */
    method BackfillStep(memory: IncidentMemory, p: Position, cutoff: Time, history: seq<HistoryRow>,
                        floor: real, limit: nat, cut: Cut) returns (created: Option<EvidenceId>)
      modifies this, memory`incidents
      ensures (memory.View(p.id), View(p.id))
           == SliceSpec(old(memory.View(p.id)), old(View(p.id)), p, cutoff, history, floor, limit, cut)
      ensures forall id :: id != p.id ==> View(id) == old(View(id)) && memory.View(id) == old(memory.View(id))
    {
      created := None;
      var st := View(p.id);
      if Resumed(st, p) && st.value.completed {
        return;
      }
      if p.start.None? {
        states := states[p.id := Finished(st, FingerprintOf(p))];
        return;
      }
      if cut.Interrupted? {
        return;
      }
      var page := Page(Pending(history, CursorOf(st, p, cutoff)), limit);
      if page == [] {
        states := states[p.id := Finished(st, FingerprintOf(p))];
        return;
      }
      created := ReplayPage(memory, p, page, Min(cut.rows, |page|), floor, limit);
    }

    method ReplayPage(memory: IncidentMemory, p: Position, page: seq<HistoryRow>, n: nat, floor: real, limit: nat)
      returns (created: Option<EvidenceId>)
      requires n <= |page|
      modifies this, memory`incidents
      ensures (memory.View(p.id), View(p.id))
           == PageSpec(old(memory.View(p.id)), old(View(p.id)), p, page, n, floor, limit)
      ensures forall id :: id != p.id ==> View(id) == old(View(id)) && memory.View(id) == old(memory.View(id))
    {
      created := None;
      var st := View(p.id);
      var s := ScanPage(page, n, floor, Resumed(st, p) && st.value.below, if Resumed(st, p) then
          st.value.bid else None);
      if s.processed == 0 {
        return;
      }
      var tail := page[s.processed - 1];
      if s.found {
        created := memory.InsertIncident(p.id, tail.quote.evidence, tail.key.at, s.bid, floor, false);
      }
      states := states[p.id := PageState(FingerprintOf(p), page, s, limit)];
    }
  }

  /** The page loop: at most `n` rows, stopping at the first crossing. */
  method ScanPage(page: seq<HistoryRow>, n: nat, floor: real, below: bool, bid: Option<real>) returns (s: Scan)
    requires n <= |page|
    ensures s == ScanRows(page, n, floor, below, bid)
  {
    s := Scan(0, false, below, bid);
    while s.processed < n && !s.found
      invariant s.processed <= n
      invariant s == ScanRows(page, s.processed, floor, below, bid)
      decreases n - s.processed
    {
      var reading := ReconcileHeldQuote(page[s.processed].quote);
      s := ScanStep(s, reading, floor);
    }
    FoundStaysFound(page, s.processed, n, floor, below, bid);
  }

  lemma {:induction false} FoundStaysFound(page: seq<HistoryRow>, k: nat, n: nat, floor: real, below: bool,
                                           bid: Option<real>)
    requires k <= n <= |page|
    requires ScanRows(page, k, floor, below, bid).found || k == n
    ensures ScanRows(page, n, floor, below, bid) == ScanRows(page, k, floor, below, bid)
    decreases n
  {
    if k < n {
      FoundStaysFound(page, k, n - 1, floor, below, bid);
    }
  }
}
