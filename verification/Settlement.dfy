/**
 Settlement-backed full losses of one position.  The incident's identity is the
 settlement price alone, so mirrored settlement events cannot make a second one.
 */
module Settlement {
  import opened Common
  import opened Detector

  datatype SettledEvent = SettledEvent(sequence: int, occurredAt: Time, payloadPrice: Option<real>)

  /** Command-deduplicated entry basis; `complete` is the command-identity flag. */
  datatype Aggregate = Aggregate(complete: bool, basis: Option<real>)

  /** What one maintenance pass reads about the position. */
  datatype Facts = Facts(
    material: bool,
    settled: seq<SettledEvent>,
    exits: seq<int>,
    price: Option<real>,
    entry: Option<Aggregate>,
    realized: Option<real>)

  datatype Judgement = Unsettled | NotFullLoss | BasisPending | FullLoss(price: real)

  predicate Later(a: SettledEvent, b: SettledEvent) {
    a.sequence > b.sequence || (a.sequence == b.sequence && a.occurredAt > b.occurredAt)
  }

  /** `ORDER BY sequence_no DESC, occurred_at DESC LIMIT 1`. */
  function Terminal(settled: seq<SettledEvent>): (t: SettledEvent)
    requires settled != []
    ensures t in settled && forall e :: e in settled ==> !Later(e, t)
  {
    if |settled| == 1 then settled[0]
    else
      var n := |settled| - 1;
      var rest := Terminal(settled[..n]);
      assert settled == settled[..n] + [settled[n]];
      if Later(settled[n], rest) then settled[n] else rest
  }

  /** The projection's price when it has one, else the terminal event's payload. */
  function SettlementPrice(f: Facts): Option<real> {
    if f.price.Some? then f.price else if f.settled == [] then None else Terminal(f.settled).payloadPrice
  }

  function Judge(f: Facts): Judgement {
    if !f.material || f.settled == [] then Unsettled
    else
      var price := SettlementPrice(f);
      if price.None? || price.value > 0.0 then NotFullLoss
      else if exists s :: s in f.exits && s < Terminal(f.settled).sequence then NotFullLoss
      else if f.entry.None? || !f.entry.value.complete then BasisPending
      else if f.entry.value.basis.None? || f.entry.value.basis.value <= 0.0 || f.realized.None? then BasisPending
      else if f.realized.value >= 0.0 || -f.realized.value < 0.95 * f.entry.value.basis.value then NotFullLoss
      else FullLoss(price.value)
  }

  /** The digest of position and settlement price, or an identity some older policy produced. */
  datatype Identity = Canonical(price: real) | Legacy(name: string)

  datatype Row = Row(id: Identity, evidence: Identity, status: Status, stage: Stage)

  predicate Waiting(s: Status) {
    s == Queued || s == RetryPending
  }

  /** First row that is the canonical incident or carries its evidence. */
  function FindExisting(rows: seq<Row>, id: Identity): (r: Option<nat>)
    ensures r.Some? ==> r.value < |rows| && (rows[r.value].id == id || rows[r.value].evidence == id)
    ensures r.None? ==> forall i :: 0 <= i < |rows| ==> rows[i].id != id && rows[i].evidence != id
  {
    if rows == [] then None
    else if rows[0].id == id || rows[0].evidence == id then Some(0)
    else
      var rest := FindExisting(rows[1..], id);
      if rest.Some? then Some(rest.value + 1) else None
  }

  /** Every other waiting settlement incident steps back to observing; running ones are left alone. */
  function Consolidated(rows: seq<Row>, keep: Identity): seq<Row> {
    seq(|rows|, i requires 0 <= i < |rows| =>
      if rows[i].id != keep && Waiting(rows[i].status) then rows[i].(status := Observing) else rows[i])
  }

  /** A corrected settlement that is no longer a full loss retires what was active. */
  function Revised(rows: seq<Row>): seq<Row> {
    seq(|rows|, i requires 0 <= i < |rows| =>
      if Waiting(rows[i].status) || rows[i].status == Running then rows[i].(status := Observing) else rows[i])
  }

  function PassSpec(rows: seq<Row>, f: Facts): (seq<Row>, Option<Identity>) {
    match Judge(f)
    case FullLoss(price) =>
      var id := Canonical(price);
      var existing := FindExisting(rows, id);
      if existing.Some? then (Consolidated(rows, rows[existing.value].id), None)
      else (Consolidated(rows + [Row(id, id, Queued, Blind)], id), Some(id))
    case NotFullLoss => (if SettlementPrice(f).Some? then Revised(rows) else rows, None)
    case Unsettled => (if f.settled != [] && SettlementPrice(f).Some? then Revised(rows) else rows, None)
    case BasisPending => (rows, None)
  }

  class SettlementMemory {
    var rows: seq<Row>

    constructor ()
      ensures rows == []
    {
      rows := [];
    }

    /** One maintenance pass over the position. */
    method Pass(f: Facts) returns (created: Option<Identity>)
      modifies this
      ensures (rows, created) == PassSpec(old(rows), f)
    {
      created := None;
      var judgement := Judge(f);
      if judgement.BasisPending? {
        return;
      }
      if !judgement.FullLoss? {
        if f.settled != [] && SettlementPrice(f).Some? {
          rows := Revised(rows);
        }
        return;
      }
      var id := Canonical(judgement.price);
      var existing := FindExisting(rows, id);
      if existing.Some? {
        Consolidate(rows[existing.value].id);
      } else {
        rows := rows + [Row(id, id, Queued, Blind)];
        Consolidate(id);
        created := Some(id);
      }
    }

    method Consolidate(keep: Identity)
      modifies this
      ensures rows == Consolidated(old(rows), keep)
    {
      for i := 0 to |rows|
        invariant |rows| == |old(rows)|
        invariant forall k :: 0 <= k < i ==> rows[k] == Consolidated(old(rows), keep)[k]
        invariant forall k :: i <= k < |rows| ==> rows[k] == old(rows)[k]
      {
        if rows[i].id != keep && Waiting(rows[i].status) {
          rows := rows[i := rows[i].(status := Observing)];
        }
      }
    }
  }

  // ----- runs -----

  /** A pass, or the dispatcher moving an incident along. */
  datatype Event = Maintained(facts: Facts) | Restated(row: nat, status: Status, stage: Stage)

  function Apply(rows: seq<Row>, e: Event): seq<Row> {
    match e
    case Maintained(facts) => PassSpec(rows, facts).0
    case Restated(i, status, stage) => if i < |rows| then
        rows[i := rows[i].(status := status, stage := stage)] else rows
  }

  function After(start: seq<Row>, events: seq<Event>): seq<Row> {
    if events == [] then start else Apply(After(start, events[..|events| - 1]), events[|events| - 1])
  }

  predicate FindsLoss(e: Event) {
    e.Maintained? && Judge(e.facts).FullLoss?
  }

  /** The prices at which the run's passes found a full loss. */
  ghost function LossPrices(events: seq<Event>): set<real> {
    set e | e in events && FindsLoss(e) :: Judge(e.facts).price
  }

  /** A row that stands for the settlement price, by its own identity or by its evidence. */
  predicate Carries(row: Row, price: real) {
    row.id == Canonical(price) || row.evidence == Canonical(price)
  }

  ghost predicate Carried(rows: seq<Row>, price: real) {
    exists i :: 0 <= i < |rows| && Carries(rows[i], price)
  }

  /** The starting rows keep place and identity; behind them stands one row per loss price they do not carry. */
  ghost predicate OneNewRowPerPrice(start: seq<Row>, rows: seq<Row>, prices: set<real>) {
    && |start| <= |rows|
    && (forall i :: 0 <= i < |start| ==> rows[i].id == start[i].id && rows[i].evidence == start[i].evidence)
    && (forall i :: |start| <= i < |rows| ==>
          && rows[i].id.Canonical? && rows[i].evidence == rows[i].id
          && rows[i].id.price in prices && !Carried(start, rows[i].id.price))
    && (forall i, j :: |start| <= i < j < |rows| ==> rows[i].id != rows[j].id)
    && (forall p :: p in prices ==> Carried(rows, p))
  }

  lemma StatusOnly(start: seq<Row>, rows: seq<Row>, next: seq<Row>, prices: set<real>)
    requires OneNewRowPerPrice(start, rows, prices)
    requires |next| == |rows|
    requires forall i :: 0 <= i < |rows| ==> next[i].id == rows[i].id && next[i].evidence == rows[i].evidence
    ensures OneNewRowPerPrice(start, next, prices)
  {
    forall p | p in prices ensures Carried(next, p) {
      var i :| 0 <= i < |rows| && Carries(rows[i], p);
      assert Carries(next[i], p);
    }
  }

  /** A price nobody carries gets a row of its own. */
  lemma NewRow(start: seq<Row>, rows: seq<Row>, prices: set<real>, price: real)
    requires OneNewRowPerPrice(start, rows, prices) && FindExisting(rows, Canonical(price)).None?
    ensures OneNewRowPerPrice(start, rows + [Row(Canonical(price), Canonical(price), Queued, Blind)], prices + {price})
  {
    var grown := rows + [Row(Canonical(price), Canonical(price), Queued, Blind)];
    assert Carries(grown[|rows|], price);
    forall p | p in prices ensures Carried(grown, p) {
      var i :| 0 <= i < |rows| && Carries(rows[i], p);
      assert Carries(grown[i], p);
    }
    assert forall i :: 0 <= i < |start| ==> !Carries(start[i], price);
  }

  lemma LossStep(start: seq<Row>, rows: seq<Row>, f: Facts, prices: set<real>)
    requires OneNewRowPerPrice(start, rows, prices) && Judge(f).FullLoss?
    ensures OneNewRowPerPrice(start, PassSpec(rows, f).0, prices + {Judge(f).price})
  {
    var price := Judge(f).price;
    var existing := FindExisting(rows, Canonical(price));
    if existing.Some? {
      assert Carries(rows[existing.value], price);
      assert OneNewRowPerPrice(start, rows, prices + {price});
      StatusOnly(start, rows, PassSpec(rows, f).0, prices + {price});
    } else {
      NewRow(start, rows, prices, price);
      StatusOnly(start, rows + [Row(Canonical(price), Canonical(price), Queued, Blind)], PassSpec(rows, f).0,
          prices + {price});
    }
  }

  /**
   From any table, however often settlement events are mirrored, a run adds exactly one
   incident for each loss price the table did not carry yet, and no other.
   */
  lemma {:induction false} NewIncidentsAreLossPrices(start: seq<Row>, events: seq<Event>)
    ensures OneNewRowPerPrice(start, After(start, events), LossPrices(events))
  {
    if events != [] {
      var n := |events| - 1;
      NewIncidentsAreLossPrices(start, events[..n]);
      assert events == events[..n] + [events[n]];
      assert forall e :: e in events <==> e in events[..n] || e == events[n];
      var rows := After(start, events[..n]);
      if FindsLoss(events[n]) {
        LossStep(start, rows, events[n].facts, LossPrices(events[..n]));
        assert LossPrices(events) == LossPrices(events[..n]) + {Judge(events[n].facts).price};
      } else {
        assert LossPrices(events) == LossPrices(events[..n]);
        StatusOnly(start, rows, After(start, events), LossPrices(events));
      }
    }
  }

  /** At one settlement price any run from any table adds at most one incident, and one exactly when it was missing. */
  lemma MirroredEventsMakeOneIncident(start: seq<Row>, events: seq<Event>, price: real)
    requires forall e :: e in events && FindsLoss(e) ==> Judge(e.facts).price == price
    ensures |start| <= |After(start, events)| <= |start| + 1
    ensures |After(start, events)| == |start| + 1 <==>
        (exists e :: e in events && FindsLoss(e)) && !Carried(start, price)
  {
    NewIncidentsAreLossPrices(start, events);
    var rows := After(start, events);
    assert forall i :: |start| <= i < |rows| ==> rows[i].id == Canonical(price);
    AtMostOneNew(start, rows, price);
    if |rows| > |start| {
      assert rows[|start|].id.price in LossPrices(events) && !Carried(start, rows[|start|].id.price);
    } else if e :| e in events && FindsLoss(e) {
      assert Judge(e.facts).price in LossPrices(events);
      var i :| 0 <= i < |rows| && Carries(rows[i], price);
      assert Carries(start[i], price);
    }
  }

  lemma AtMostOneNew(start: seq<Row>, rows: seq<Row>, price: real)
    requires |start| <= |rows| && forall i :: |start| <= i < |rows| ==> rows[i].id == Canonical(price)
    requires forall i, j :: |start| <= i < j < |rows| ==> rows[i].id != rows[j].id
    ensures |rows| <= |start| + 1
  {
    if |rows| > |start| {
      assert rows[|start|].id == rows[|rows| - 1].id;
    }
  }

  /** Whatever the table held before, a pass that finds a full loss leaves at most one incident waiting. */
  lemma OneWaitingAfterLoss(rows: seq<Row>, f: Facts)
    requires forall i, j :: 0 <= i < j < |rows| ==> rows[i].id != rows[j].id
    requires Judge(f).FullLoss?
    ensures var next := PassSpec(rows, f).0;
            forall i, j :: 0 <= i < j < |next| ==> !Waiting(next[i].status) || !Waiting(next[j].status)
  {
  }

  // ----- what a full loss is, in the facts themselves -----

  /** The price in force: the projection's, or the latest settlement event's when the projection has none. */
  predicate InForce(f: Facts, price: real) {
    f.settled != [] && (if f.price.Some? then f.price.value == price
                        else Terminal(f.settled).payloadPrice == Some(price))
  }

  /** Settled worthless, with no fill of an exit order before some settlement event. */
  predicate SettledWorthless(f: Facts, price: real) {
    && f.material && InForce(f, price) && price <= 0.0
    && forall s, e :: s in f.exits && e in f.settled ==> s >= e.sequence
  }

  /** The entry is fully identified, cost something, and the outcome is known. */
  predicate Accounted(f: Facts) {
    && f.entry.Some? && f.entry.value.complete && f.realized.Some?
    && f.entry.value.basis.Some? && f.entry.value.basis.value > 0.0
  }

  /** At least 95 percent of what the entry cost is gone. */
  predicate Lost(f: Facts, price: real) {
    SettledWorthless(f, price) && Accounted(f) && -f.realized.value >= 0.95 * f.entry.value.basis.value
  }

  /** Worthless, but what it cost cannot be told yet. */
  predicate Undecided(f: Facts, price: real) {
    SettledWorthless(f, price) && !Accounted(f)
  }

  lemma ExitsBeforeTerminal(f: Facts)
    requires f.settled != []
    ensures (exists s :: s in f.exits && s < Terminal(f.settled).sequence)
            <==> exists s, e :: s in f.exits && e in f.settled && s < e.sequence
  {
    if s, e :| s in f.exits && e in f.settled && s < e.sequence {
      assert !Later(e, Terminal(f.settled));
    }
  }

  lemma JudgeMeans(f: Facts, price: real)
    ensures Judge(f) == FullLoss(price) <==> Lost(f, price)
    ensures InForce(f, price) ==> (Judge(f).BasisPending? <==> Undecided(f, price))
    ensures InForce(f, price) ==> SettlementPrice(f) == Some(price)
    ensures Judge(f).BasisPending? ==> f.settled != [] && SettlementPrice(f).Some?
  {
    if f.settled != [] {
      ExitsBeforeTerminal(f);
    }
  }

  /** A pass reports a new identity exactly for a price at which everything was lost and that no row carries yet. */
  lemma ReportedIffLost(rows: seq<Row>, f: Facts, price: real)
    ensures PassSpec(rows, f).1 == Some(Canonical(price)) <==> Lost(f, price) && !Carried(rows, price)
    ensures PassSpec(rows, f).1 == Some(Canonical(price)) ==>
              var next := PassSpec(rows, f).0;
              |next| == |rows| + 1 && next[|rows|] == Row(Canonical(price), Canonical(price), Queued, Blind)
    ensures PassSpec(rows, f).1.None? ==> |PassSpec(rows, f).0| == |rows|
  {
    JudgeMeans(f, price);
    if Carried(rows, price) {
      var i :| 0 <= i < |rows| && Carries(rows[i], price);
      assert FindExisting(rows, Canonical(price)).Some?;
    }
  }

  /** While the entry is incomplete or its cost unknown, a worthless settlement leaves every row as it was. */
  lemma UndecidedLeavesRows(rows: seq<Row>, f: Facts, price: real)
    requires Undecided(f, price)
    ensures PassSpec(rows, f) == (rows, None)
  {
    JudgeMeans(f, price);
  }

  /** The row stands for the price: it has the identity of the first row carrying it. */
  ghost predicate Stands(rows: seq<Row>, price: real, i: nat)
    requires i < |rows|
  {
    exists k :: 0 <= k < |rows| && Carries(rows[k], price) && rows[k].id == rows[i].id
                && forall j :: 0 <= j < k ==> !Carries(rows[j], price)
  }

  lemma StandsIff(rows: seq<Row>, price: real, i: nat)
    requires i < |rows|
    ensures var existing := FindExisting(rows, Canonical(price));
            Stands(rows, price, i) <==> existing.Some? && rows[i].id == rows[existing.value].id
  {
    FirstCarries(rows, price);
    var existing := FindExisting(rows, Canonical(price));
    if existing.Some? && rows[i].id == rows[existing.value].id {
      assert Carries(rows[existing.value], price);
    }
    if Stands(rows, price, i) {
      var k :| 0 <= k < |rows| && Carries(rows[k], price) && rows[k].id == rows[i].id
               && forall j :: 0 <= j < k ==> !Carries(rows[j], price);
      assert existing == Some(k);
    }
  }

  lemma {:induction false} FirstCarries(rows: seq<Row>, price: real)
    ensures var existing := FindExisting(rows, Canonical(price));
            existing.Some? ==> forall j :: 0 <= j < existing.value ==> !Carries(rows[j], price)
  {
    if rows != [] && !Carries(rows[0], price) {
      FirstCarries(rows[1..], price);
      var rest := FindExisting(rows[1..], Canonical(price));
      if rest.Some? {
        forall j | 0 <= j <= rest.value ensures !Carries(rows[j], price) {
          if j > 0 {
            assert rows[j] == rows[1..][j - 1];
          }
        }
      }
    }
  }

  /**
   What a pass does to a row that was there: it is retired, running or waiting, exactly when
   a price is in force at which nothing was lost and nothing is undecided; when everything
   was lost, every waiting row but the one that stands for the price steps back; otherwise
   it stays as it was.
   */
  lemma RowRetiredIff(rows: seq<Row>, f: Facts, price: real, i: nat)
    requires i < |rows| && InForce(f, price)
    ensures var next := PassSpec(rows, f).0;
            && i < |next| && next[i] == rows[i].(status := next[i].status)
            && next[i].status
               == if Lost(f, price) then
                    (if Waiting(rows[i].status) && !Stands(rows, price, i) then Observing else rows[i].status)
                  else if Undecided(f, price) then rows[i].status
                  else if rows[i].status in {Queued, RetryPending, Running} then Observing
                  else rows[i].status
  {
    JudgeMeans(f, price);
    StandsIff(rows, price, i);
    if Lost(f, price) && FindExisting(rows, Canonical(price)).None? {
      assert rows[i].id != Canonical(price);
    }
  }

  /** Without a settlement event or a price in force a pass changes nothing. */
  lemma NoPriceNoChange(rows: seq<Row>, f: Facts)
    requires forall price :: !InForce(f, price)
    ensures PassSpec(rows, f) == (rows, None)
  {
    if f.settled != [] && SettlementPrice(f).Some? {
      assert InForce(f, SettlementPrice(f).value);
    }
  }
}
