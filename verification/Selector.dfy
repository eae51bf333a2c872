/** The selection itself: a budgeted retainer fed first with required facts, then anchors, then the price path. */
module Selector {
  import opened Common
  import opened Selection

  datatype Refusal = RequiredMissing | TimeBudget | CriticalCapacity

  datatype Retention = Kept | NotKept | Raised(refusal: Refusal)

  /** Why the path was cut short. */
  datatype Reason = Deadline | SqlInterrupted | SourcePayloadLimit | RowLimit

  /** What the clock, the database and the reader of a row may do; the n-th reading of each is free. */
  datatype World = World(late: nat -> bool, interrupted: nat -> bool, gone: nat -> bool)

  datatype Summary = Summary(reason: Option<Reason>, trajectoryRows: nat, seen: nat, repeated: nat)

  /** A walk along the path: rows behind it, the tops last seen per direction, and its counters. */
  datatype Progress = Progress(next: nat, tops: map<string, Top>, added: nat, seen: nat, repeated: nat)

  datatype Outcome =
    | Selected(rows: seq<Row>, bytes: nat, critical: set<EvidenceId>, summary: Summary)
    | Exceeded(refusal: Refusal)

  lemma {:induction false} PayloadSnoc(rows: seq<Row>, row: Row)
    ensures Payload(rows + [row]) == Payload(rows) + row.payload
  {
    assert (rows + [row])[..|rows|] == rows;
  }

  predicate Fits(bytes: nat, row: Row, limit: int) {
    bytes + row.estimate <= limit && bytes + row.payload <= limit
  }

  ghost predicate LateOnce(world: World) {
    exists n :: world.late(n)
  }

  ghost predicate InterruptedOnce(world: World) {
    exists n :: world.interrupted(n)
  }

  ghost predicate GoneOnce(world: World) {
    exists n :: world.gone(n)
  }

  /** The required facts in the order they are looked up: the crossing, then the brackets of the floor time. */
  function Required(table: seq<Row>, window: seq<Row>, crossing: Option<EvidenceId>,
                    floorAt: Option<Time>): seq<Option<Row>>
    requires Ordered(window)
  {
    (if crossing.Some? then [WithEvidence(table, crossing.value)] else [])
    + (if floorAt.Some? then [LatestBefore(window, floorAt.value), EarliestAfter(window, floorAt.value)] else [])
  }

  /** What keeping facts one after another holds, each row once. */
  function Holding(facts: seq<Option<Row>>): seq<Row> {
    if facts == [] then []
    else
      var n := |facts| - 1;
      var before := Holding(facts[..n]);
      if facts[n].None? || Holds(before, facts[n].value.rowid) then before else before + [facts[n].value]
  }

  lemma HoldingNext(facts: seq<Option<Row>>, j: nat)
    requires j < |facts|
    ensures var before := Holding(facts[..j]);
            Holding(facts[..j + 1])
            == if facts[j].None? || Holds(before, facts[j].value.rowid) then before else before + [facts[j].value]
  {
    assert facts[..j + 1][..j] == facts[..j];
  }

  /** Some required fact does not fit beside the facts kept before it. */
  ghost predicate Crowded(facts: seq<Option<Row>>, limit: int) {
    exists j :: 0 <= j < |facts| && facts[j].Some? && !Fits(Payload(Holding(facts[..j])), facts[j].value, limit)
  }

  /** What must have happened for a selection to be refused. */
  ghost predicate RefusalCaused(refusal: Refusal, table: seq<Row>, window: seq<Row>, crossing: Option<EvidenceId>,
                                floorAt: Option<Time>, world: World, limit: int)
    requires Ordered(window)
  {
    match refusal
    case TimeBudget => LateOnce(world)
    case RequiredMissing => None in Required(table, window, crossing, floorAt) || GoneOnce(world)
    case CriticalCapacity => Crowded(Required(table, window, crossing, floorAt), limit)
  }

  /** What must have happened for the path to be cut short. */
  ghost predicate CutCaused(reason: Reason, path: seq<Row>, rows: seq<Row>, added: int, rowLimit: int, world: World,
                            limit: int) {
    match reason
    case Deadline => LateOnce(world)
    case SqlInterrupted => InterruptedOnce(world)
    case RowLimit => added >= rowLimit
    case SourcePayloadLimit =>
      exists k :: 0 <= k < |path| && !Holds(rows, path[k].rowid) &&
          (!Fits(Payload(rows), path[k], limit) || GoneOnce(world))
  }

  /** How many clocks are anchored. */
  function Anchors(clocks: seq<Time>, anchorLimit: int): (n: nat)
    ensures n <= |clocks| && n <= 128 && (clocks != [] ==> n >= 1)
    ensures 1 <= anchorLimit <= 128 ==> n == Min(anchorLimit, |clocks|)
    ensures anchorLimit > 128 ==> n == Min(128, |clocks|)
  {
    Min(Min(128, Max(1, anchorLimit)), |clocks|)
  }

  /** The row is kept, unless there is none, it was gone when read, or it does not fit beside what is kept. */
  predicate KeptIfFits(meta: Option<Row>, rows: seq<Row>, gone: bool, limit: int) {
    meta.None? || meta.value in rows || gone || !Fits(Payload(rows), meta.value, limit)
  }

  /** The nearest rows strictly before and after the clock numbered `i` are kept as far as they fit. */
  ghost predicate AnchorKept(table: seq<Row>, clocks: seq<Time>, i: nat, rows: seq<Row>, world: World, limit: int)
    requires Ordered(table) && i < |clocks|
  {
    && KeptIfFits(LatestBefore(table, clocks[i]), rows, world.gone(3 + 2 * i), limit)
    && KeptIfFits(EarliestAfter(table, clocks[i]), rows, world.gone(3 + 2 * i + 1), limit)
  }

  ghost predicate AnchorsKept(table: seq<Row>, clocks: seq<Time>, n: nat, rows: seq<Row>, world: World, limit: int)
    requires Ordered(table) && n <= |clocks|
  {
    forall i :: 0 <= i < n ==> AnchorKept(table, clocks, i, rows, world, limit)
  }

  lemma {:induction false} PayloadGrows(rows: seq<Row>, more: seq<Row>)
    requires rows <= more
    ensures Payload(rows) <= Payload(more)
    decreases |more|
  {
    if |rows| < |more| {
      assert rows <= more[..|more| - 1];
      PayloadGrows(rows, more[..|more| - 1]);
    } else {
      assert rows == more;
    }
  }

  lemma KeptStays(meta: Option<Row>, rows: seq<Row>, more: seq<Row>, gone: bool, limit: int)
    requires rows <= more && KeptIfFits(meta, rows, gone, limit)
    ensures KeptIfFits(meta, more, gone, limit)
  {
    PayloadGrows(rows, more);
    assert forall row :: row in rows ==> row in more;
  }

  lemma AnchorsStay(table: seq<Row>, clocks: seq<Time>, n: nat, rows: seq<Row>, more: seq<Row>, world: World,
                    limit: int)
    requires Ordered(table) && n <= |clocks| && rows <= more && AnchorsKept(table, clocks, n, rows, world, limit)
    ensures AnchorsKept(table, clocks, n, more, world, limit)
  {
    forall i | 0 <= i < n ensures AnchorKept(table, clocks, i, more, world, limit) {
      assert AnchorKept(table, clocks, i, rows, world, limit);
      KeptStays(LatestBefore(table, clocks[i]), rows, more, world.gone(3 + 2 * i), limit);
      KeptStays(EarliestAfter(table, clocks[i]), rows, more, world.gone(3 + 2 * i + 1), limit);
    }
  }

  lemma AnchorsNext(table: seq<Row>, clocks: seq<Time>, n: nat, rows: seq<Row>, more: seq<Row>, world: World,
                    limit: int)
    requires Ordered(table) && n < |clocks| && rows <= more && AnchorsKept(table, clocks, n, rows, world, limit)
    requires AnchorKept(table, clocks, n, more, world, limit)
    ensures AnchorsKept(table, clocks, n + 1, more, world, limit)
  {
    AnchorsStay(table, clocks, n, rows, more, world, limit);
  }

  class Retainer {
    var rows: seq<Row>
    var bytes: nat
    var critical: set<EvidenceId>
    const limit: int

    ghost predicate Valid()
      reads this
    {
      bytes == Payload(rows) && bytes <= Max(0, limit) && DistinctIds(rows)
    }

    constructor (limit: int)
      ensures Valid() && rows == [] && critical == {} && this.limit == limit
    {
      this.limit := limit;
      rows, bytes, critical := [], 0, {};
    }

    method Retain(meta: Option<Row>, required: bool, late: bool, gone: bool) returns (r: Retention)
      requires Valid()
      modifies this`rows, this`bytes, this`critical
      ensures Valid()
      ensures r.Kept? <==>
                && meta.Some? && !late
                && (Holds(old(rows), meta.value.rowid) || (!gone && Fits(old(bytes), meta.value, limit)))
      ensures r.Kept? ==> rows == if Holds(old(rows), meta.value.rowid) then old(rows) else old(rows) + [meta.value]
      ensures r.Kept? ==> critical == if required then old(critical) + {meta.value.evidence} else old(critical)
      ensures !r.Kept? ==> rows == old(rows) && critical == old(critical)
      ensures required ==> !r.NotKept?
      ensures !required && r.Raised? ==> r == Raised(TimeBudget)
      ensures r == Raised(TimeBudget) <==> meta.Some? && late
      ensures r == Raised(RequiredMissing) ==> meta.None? || gone
      ensures r == Raised(CriticalCapacity) ==> meta.Some? && !Fits(old(bytes), meta.value, limit)
    {
      if meta.None? {
        return if required then Raised(RequiredMissing) else NotKept;
      }
      var row := meta.value;
      if late {
        return Raised(TimeBudget);
      }
      if Holds(rows, row.rowid) {
        if required {
          critical := critical + {row.evidence};
        }
        return Kept;
      }
      if bytes + row.estimate > limit {
        return if required then Raised(CriticalCapacity) else NotKept;
      }
      if gone {
        return if required then Raised(RequiredMissing) else NotKept;
      }
      if bytes + row.payload > limit {
        return if required then Raised(CriticalCapacity) else NotKept;
      }
      PayloadSnoc(rows, row);
      rows := rows + [row];
      bytes := bytes + row.payload;
      if required {
        critical := critical + {row.evidence};
      }
      return Kept;
    }

    /** A required fact is kept and counted as critical, or the selection is refused. */
    method RetainFact(table: seq<Row>, meta: Option<Row>, late: bool, gone: bool) returns (refusal: Option<Refusal>)
      requires Valid() && FromTable(rows, table)
      requires meta.Some? ==> meta.value in table
      modifies this`rows, this`bytes, this`critical
      ensures Valid() && FromTable(rows, table) && old(rows) <= rows && old(critical) <= critical
      ensures refusal.None? ==> HeldCritical(meta, rows, critical)
      ensures refusal.None? ==>
                rows == if Holds(old(rows), meta.value.rowid) then old(rows) else old(rows) + [meta.value]
      ensures refusal == Some(TimeBudget) ==> late
      ensures refusal == Some(RequiredMissing) ==> meta.None? || gone
      ensures refusal == Some(CriticalCapacity) ==> meta.Some? && !Fits(Payload(old(rows)), meta.value, limit)
    {
      var r := Retain(meta, true, late, gone);
      if r.Raised? {
        return Some(r.refusal);
      }
      if Holds(old(rows), meta.value.rowid) {
        ghost var i :| 0 <= i < |rows| && rows[i].rowid == meta.value.rowid;
        SameIdSameRow(table, rows[i], meta.value);
      }
      return None;
    }

    /** Required facts one after another, until one is refused. */
    method RetainAll(table: seq<Row>, facts: seq<Option<Row>>, world: World) returns (refusal: Option<Refusal>)
      requires Valid() && FromTable(rows, table) && rows == []
      requires forall j :: 0 <= j < |facts| && facts[j].Some? ==> facts[j].value in table
      modifies this`rows, this`bytes, this`critical
      ensures Valid() && FromTable(rows, table)
      ensures refusal.None? ==> rows == Holding(facts)
      ensures refusal.None? ==> AllHeld(facts, rows, critical)
      ensures refusal == Some(TimeBudget) ==> LateOnce(world)
      ensures refusal == Some(RequiredMissing) ==> None in facts || GoneOnce(world)
      ensures refusal == Some(CriticalCapacity) ==> Crowded(facts, limit)
    {
      for j := 0 to |facts|
        invariant Valid() && FromTable(rows, table) && rows == Holding(facts[..j])
        invariant AllHeld(facts[..j], rows, critical)
      {
        ghost var before, marked := rows, critical;
        refusal := RetainFact(table, facts[j], world.late(j), world.gone(j));
        if refusal.Some? {
          FactRefused(facts, j, limit);
          return;
        }
        HoldingNext(facts, j);
        AllHeldNext(facts, j, before, rows, marked, critical);
      }
      assert facts[..|facts|] == facts;
      return None;
    }

    /** The crossing quote, when it is required, and the strict brackets around the floor time. */
    method RetainFacts(table: seq<Row>, window: seq<Row>, crossing: Option<EvidenceId>, floorAt: Option<Time>,
                       world: World)
      returns (refusal: Option<Refusal>)
      requires Valid() && FromTable(rows, table) && Ordered(window) && rows == []
      requires forall row :: row in window ==> row in table
      modifies this`rows, this`bytes, this`critical
      ensures Valid() && FromTable(rows, table)
      ensures refusal.None? ==> FactsHeld(table, window, crossing, floorAt, rows, critical)
      ensures refusal.None? ==> rows == Holding(Required(table, window, crossing, floorAt))
      ensures refusal.Some? ==> RefusalCaused(refusal.value, table, window, crossing, floorAt, world, limit)
    {
      var facts := Required(table, window, crossing, floorAt);
      refusal := RetainAll(table, facts, world);
      if refusal.None? {
        AllRequiredHeld(table, window, crossing, floorAt, rows, critical);
      }
    }

    /** A row of the table is kept if it fits and is not gone. */
    method RetainAnchor(table: seq<Row>, meta: Option<Row>, late: bool, gone: bool) returns (refusal: Option<Refusal>)
      requires Valid() && FromTable(rows, table)
      requires meta.Some? ==> meta.value in table
      modifies this`rows, this`bytes, this`critical
      ensures Valid() && FromTable(rows, table) && critical == old(critical) && old(rows) <= rows
      ensures refusal.Some? ==> refusal.value == TimeBudget && late
      ensures refusal.None? ==> KeptIfFits(meta, rows, gone, limit)
    {
      var r := Retain(meta, false, late, gone);
      if r.Raised? {
        return Some(r.refusal);
      }
      if meta.Some? && Holds(old(rows), meta.value.rowid) {
        ghost var i :| 0 <= i < |rows| && rows[i].rowid == meta.value.rowid;
        SameIdSameRow(table, rows[i], meta.value);
      }
      return None;
    }

    /** The nearest quotes on either side of one clock. */
    method RetainAround(table: seq<Row>, at: Time, world: World, reading: nat) returns (refusal: Option<Refusal>)
      requires Valid() && FromTable(rows, table)
      modifies this`rows, this`bytes, this`critical
      ensures Valid() && FromTable(rows, table) && critical == old(critical) && old(rows) <= rows
      ensures refusal.Some? ==> refusal.value == TimeBudget && LateOnce(world)
      ensures refusal.None? ==>
                && KeptIfFits(LatestBefore(table, at), rows, world.gone(reading), limit)
                && KeptIfFits(EarliestAfter(table, at), rows, world.gone(reading + 1), limit)
    {
      refusal := RetainAnchor(table, LatestBefore(table, at), world.late(reading), world.gone(reading));
      if refusal.Some? {
        return;
      }
      ghost var earlier := rows;
      refusal := RetainAnchor(table, EarliestAfter(table, at), world.late(reading + 1), world.gone(reading + 1));
      KeptStays(LatestBefore(table, at), earlier, rows, world.gone(reading), limit);
    }

    /** Quotes on either side of each clock, kept when the budget allows. */
    method RetainAnchors(table: seq<Row>, clocks: seq<Time>, anchorLimit: int, world: World)
      returns (refusal: Option<Refusal>, readings: nat)
      requires Valid() && FromTable(rows, table)
      modifies this`rows, this`bytes, this`critical
      ensures Valid() && FromTable(rows, table) && critical == old(critical) && old(rows) <= rows
      ensures refusal.Some? ==> refusal.value == TimeBudget && LateOnce(world)
      ensures refusal.None? ==> AnchorsKept(table, clocks, Anchors(clocks, anchorLimit), rows, world, limit)
    {
      var n := Anchors(clocks, anchorLimit);
      readings := 3;
      for i := 0 to n
        invariant Valid() && FromTable(rows, table) && critical == old(critical) && old(rows) <= rows
        invariant readings == 3 + 2 * i && AnchorsKept(table, clocks, i, rows, world, limit)
      {
        ghost var before := rows;
        refusal := RetainAround(table, clocks[i], world, readings);
        if refusal.Some? {
          return;
        }
        readings := readings + 2;
        AnchorsNext(table, clocks, i, before, rows, world, limit);
      }
      refusal := None;
    }

    /** Everything kept before the price path is walked. */
    method RetainBefore(table: seq<Row>, window: seq<Row>, crossing: Option<EvidenceId>, floorAt: Option<Time>,
                        clocks: seq<Time>, anchorLimit: int, world: World)
      returns (refusal: Option<Refusal>, readings: nat)
      requires Valid() && FromTable(rows, table) && Ordered(window) && rows == []
      requires forall row :: row in window ==> row in table
      modifies this`rows, this`bytes, this`critical
      ensures Valid() && FromTable(rows, table)
      ensures refusal.None? ==> FactsHeld(table, window, crossing, floorAt, rows, critical)
      ensures refusal.None? ==> AnchorsKept(table, clocks, Anchors(clocks, anchorLimit), rows, world, limit)
      ensures refusal.Some? ==> RefusalCaused(refusal.value, table, window, crossing, floorAt, world, limit)
    {
      readings := 3;
      refusal := RetainFacts(table, window, crossing, floorAt, world);
      if refusal.None? {
        ghost var facts := rows;
        refusal, readings := RetainAnchors(table, clocks, anchorLimit, world);
        FactsStay(table, window, crossing, floorAt, facts, rows, critical);
      }
    }

    /** Where a walk stands: `next` rows are behind it and `rows` is what they left. */
    ghost predicate Reached(path: seq<Row>, base: seq<Row>, p: Progress)
      reads this
    {
      && p.next <= |path|
      && rows == base + ChangePoints(path[..p.next], base)
      && p.added == |rows| - |base|
      && TopsOf(path[..p.next], p.tops)
    }

    /** One row of the path: skipped when kept already, omitted when it repeats, otherwise retained if it fits. */
    method WalkRow(path: seq<Row>, ghost base: seq<Row>, p: Progress, late: bool, gone: bool)
      returns (r: Retention, q: Progress)
      requires Valid() && Ordered(path) && p.next < |path| && Reached(path, base, p)
      modifies this`rows, this`bytes, this`critical
      ensures Valid() && critical == old(critical)
      ensures r.Kept? ==> Reached(path, base, q) && q.next == p.next + 1 && q.seen == p.seen + 1
      ensures !r.Kept? ==> rows == old(rows) && q == p.(seen := p.seen + 1)
      ensures r.Raised? ==> r.refusal == TimeBudget && late
      ensures r.NotKept? ==> !Holds(rows, path[p.next].rowid) && (!Fits(Payload(rows), path[p.next], limit) || gone)
      ensures p.added <= q.added <= p.added + 1
    {
      var row := path[p.next];
      NotYetAdded(path, base, p.next);
      ChangePointsStep(path, base, p.next);
      TopsStep(path, p.next, p.tops);
      var repeats := row.direction in p.tops && p.tops[row.direction] == row.top;
      q := p.(next := p.next + 1, seen := p.seen + 1, tops := p.tops[row.direction := row.top]);
      if Holds(rows, row.rowid) {
        r := Kept;
      } else if repeats {
        r, q := Kept, q.(repeated := q.repeated + 1);
      } else {
        r := Retain(Some(row), false, late, gone);
        q := if r.Kept? then q.(added := q.added + 1) else p.(seen := p.seen + 1);
      }
    }

    /** The rows of one fetched batch, up to index `stop`. */
    method WalkBatch(path: seq<Row>, ghost base: seq<Row>, p: Progress, stop: nat, world: World, readings: nat)
      returns (refusal: Option<Refusal>, reason: Option<Reason>, q: Progress, clock: nat)
      requires Valid() && Ordered(path) && p.next <= stop <= |path| && Reached(path, base, p) && p.seen == p.next
      modifies this`rows, this`bytes, this`critical
      ensures Valid() && critical == old(critical) && q.added <= p.added + (stop - p.next)
      ensures refusal.None? && reason.None? ==> q.next == stop && q.seen == stop
      ensures p.next <= q.next <= stop && Reached(path, base, q)
      ensures refusal.Some? ==> refusal.value == TimeBudget && LateOnce(world)
      ensures reason.Some? ==> CutCaused(reason.value, path, rows, 0, 1, world, limit)
    {
      q, reason, clock := p, None, readings;
      while q.next < stop
        invariant Valid() && critical == old(critical) && p.next <= q.next <= stop && q.seen == q.next
        invariant Reached(path, base, q) && q.added <= p.added + (q.next - p.next)
      {
        if world.late(clock) {
          return None, Some(Deadline), q, clock;
        }
        var r;
        r, q := WalkRow(path, base, q, world.late(clock + 1), world.gone(clock));
        clock := clock + 2;
        if r.Raised? {
          return Some(r.refusal), None, q, clock;
        }
        if r.NotKept? {
          return None, Some(SourcePayloadLimit), q, clock;
        }
      }
      refusal := None;
    }

    /**
     Walk the price path in fetch batches.  The row limit is looked at once per batch;
     the clock before and after each fetch and before each row.
     */
    method Walk(path: seq<Row>, rowLimit: int, batchRows: int, world: World, readings: nat)
      returns (refusal: Option<Refusal>, summary: Summary)
      requires Valid() && Ordered(path) && batchRows >= 1
      modifies this`rows, this`bytes, this`critical
      ensures Valid() && critical == old(critical) && WalkedTo(path, old(rows), rows)
      ensures refusal.None? ==> summary.trajectoryRows == |rows| - |old(rows)|
      ensures refusal.None? ==> summary.trajectoryRows <= Max(0, rowLimit + batchRows - 1)
      ensures refusal.None? && summary.reason.None? ==>
                && rows == old(rows) + ChangePoints(path, old(rows))
                && summary.seen == |path| && summary.trajectoryRows < rowLimit
      ensures refusal.Some? ==> refusal.value == TimeBudget && LateOnce(world)
      ensures refusal.None? && summary.reason.Some? ==>
                CutCaused(summary.reason.value, path, rows, summary.trajectoryRows, rowLimit, world, limit)
    {
      ghost var base := rows;
      var p, clock, fetches := Progress(0, map[], 0, 0, 0), readings, 0;
      var reason: Option<Reason> := None;
      assert base + ChangePoints([], base) == base && path[..0] == [];
      while p.added < rowLimit && reason.None?
        invariant Valid() && critical == old(critical) && Reached(path, base, p)
        invariant reason.None? ==> p.seen == p.next
        invariant p.added <= Max(0, rowLimit + batchRows - 1)
        invariant reason.Some? ==> CutCaused(reason.value, path, rows, p.added, rowLimit, world, limit)
        decreases |path| - p.next, reason.None?
      {
        if world.late(clock) {
          reason := Some(Deadline);
          break;
        }
        if world.interrupted(fetches) {
          reason := Some(SqlInterrupted);
          break;
        }
        var stop := Min(p.next + batchRows, |path|);
        if world.late(clock + 1) {
          reason := Some(Deadline);
          break;
        }
        if stop == p.next {
          break;
        }
        refusal, reason, p, clock := WalkBatch(path, base, p, stop, world, clock + 2);
        fetches := fetches + 1;
        if refusal.Some? {
          WalkedPrefix(path, base, p.next);
          return refusal, Summary(reason, p.added, p.seen, p.repeated);
        }
      }
      if reason.None? && p.added >= rowLimit {
        reason := Some(RowLimit);
      }
      assert path[..|path|] == path;
      WalkedPrefix(path, base, p.next);
      return None, Summary(reason, p.added, p.seen, p.repeated);
    }
  }

  ghost predicate TopsOf(path: seq<Row>, tops: map<string, Top>) {
    forall d :: LastTop(path, d) == if d in tops then Some(tops[d]) else None
  }

  lemma TopsStep(path: seq<Row>, n: nat, tops: map<string, Top>)
    requires n < |path| && TopsOf(path[..n], tops)
    ensures TopsOf(path[..n + 1], tops[path[n].direction := path[n].top])
  {
    assert path[..n + 1][..n] == path[..n];
  }

  lemma ChangePointsStep(path: seq<Row>, kept: seq<Row>, n: nat)
    requires n < |path|
    ensures var more := if Holds(kept, path[n].rowid) || Repeats(path, n) then [] else [path[n]];
            kept + ChangePoints(path[..n + 1], kept) == (kept + ChangePoints(path[..n], kept)) + more
  {
    assert path[..n + 1][..n] == path[..n];
  }

  /** The walk kept the change points of a beginning of the path, and nothing else. */
  ghost predicate WalkedTo(path: seq<Row>, before: seq<Row>, rows: seq<Row>) {
    exists k :: 0 <= k <= |path| && rows == before + ChangePoints(path[..k], before)
  }

  lemma WalkedPrefix(path: seq<Row>, before: seq<Row>, k: nat)
    requires k <= |path|
    ensures WalkedTo(path, before, before + ChangePoints(path[..k], before))
  {
  }

  lemma NotYetAdded(path: seq<Row>, kept: seq<Row>, i: nat)
    requires Ordered(path) && i < |path|
    ensures Holds(kept + ChangePoints(path[..i], kept), path[i].rowid) <==> Holds(kept, path[i].rowid)
  {
    var added := ChangePoints(path[..i], kept);
    AddedFromPath(path[..i], kept);
    forall k | 0 <= k < |added| ensures added[k].rowid != path[i].rowid {
      assert added[k] in path[..i];
    }
    if j :| 0 <= j < |kept| && kept[j].rowid == path[i].rowid {
      assert (kept + added)[j].rowid == path[i].rowid;
    }
  }

  /** The required facts are among the rows and counted as critical. */
  ghost predicate FactsHeld(table: seq<Row>, window: seq<Row>, crossing: Option<EvidenceId>, floorAt: Option<Time>,
                            rows: seq<Row>, critical: set<EvidenceId>)
    requires Ordered(window)
  {
    && (crossing.Some? ==> HeldCritical(WithEvidence(table, crossing.value), rows, critical))
    && (floorAt.Some? ==>
          && HeldCritical(LatestBefore(window, floorAt.value), rows, critical)
          && HeldCritical(EarliestAfter(window, floorAt.value), rows, critical))
  }

  predicate HeldCritical(row: Option<Row>, rows: seq<Row>, critical: set<EvidenceId>) {
    row.Some? && row.value in rows && row.value.evidence in critical
  }

  ghost predicate AllHeld(facts: seq<Option<Row>>, rows: seq<Row>, critical: set<EvidenceId>) {
    forall i :: 0 <= i < |facts| ==> HeldCritical(facts[i], rows, critical)
  }

  lemma AllHeldNext(facts: seq<Option<Row>>, j: nat, before: seq<Row>, rows: seq<Row>,
                    marked: set<EvidenceId>, critical: set<EvidenceId>)
    requires j < |facts| && AllHeld(facts[..j], before, marked) && before <= rows && marked <= critical
    requires HeldCritical(facts[j], rows, critical)
    ensures AllHeld(facts[..j + 1], rows, critical)
  {
    forall i | 0 <= i < j ensures HeldCritical(facts[i], rows, critical) {
      assert facts[..j][i] == facts[i];
      assert forall row :: row in before ==> row in rows;
    }
  }

  lemma FactRefused(facts: seq<Option<Row>>, j: nat, limit: int)
    requires j < |facts|
    ensures facts[j].None? ==> None in facts
    ensures facts[j].Some? && !Fits(Payload(Holding(facts[..j])), facts[j].value, limit) ==> Crowded(facts, limit)
  {
  }

  lemma AllRequiredHeld(table: seq<Row>, window: seq<Row>, crossing: Option<EvidenceId>, floorAt: Option<Time>,
                        rows: seq<Row>, critical: set<EvidenceId>)
    requires Ordered(window)
    requires var facts := Required(table, window, crossing, floorAt);
             AllHeld(facts, rows, critical)
    ensures FactsHeld(table, window, crossing, floorAt, rows, critical)
  {
    var facts := Required(table, window, crossing, floorAt);
    if crossing.Some? {
      assert facts[0] == WithEvidence(table, crossing.value);
    }
    if floorAt.Some? {
      assert facts[|facts| - 2] == LatestBefore(window, floorAt.value);
      assert facts[|facts| - 1] == EarliestAfter(window, floorAt.value);
    }
  }

  lemma WalkedFromTable(table: seq<Row>, path: seq<Row>, before: seq<Row>, rows: seq<Row>)
    requires FromTable(before, table) && WalkedTo(path, before, rows) && Ordered(path)
    requires forall row :: row in path ==> row in table
    ensures forall row :: row in rows ==> row in table
    ensures before <= rows
  {
    var k :| 0 <= k <= |path| && rows == before + ChangePoints(path[..k], before);
    AddedFromPath(path[..k], before);
  }

  /** The complete selection on top of some rows kept before the walk. */
  ghost predicate CompleteOn(table: seq<Row>, start: Time, end: Time, rows: seq<Row>)
    requires Ordered(table)
  {
    exists kept :: FromTable(kept, table) && rows == Retained(table, start, end, kept)
  }

  lemma CompleteIsLossless(table: seq<Row>, start: Time, end: Time, kept: seq<Row>)
    requires FromTable(kept, table)
    ensures var rows := kept + ChangePoints(Window(table, start, end), kept);
            Lossless(rows, Window(table, start, end)) && CompleteOn(table, start, end, rows)
  {
    ChangePointsLoseNothing(table, start, end, kept);
    assert kept + ChangePoints(Window(table, start, end), kept) == Retained(table, start, end, kept);
  }

  lemma FactsStay(table: seq<Row>, window: seq<Row>, crossing: Option<EvidenceId>, floorAt: Option<Time>,
                  rows: seq<Row>, more: seq<Row>, critical: set<EvidenceId>)
    requires Ordered(window) && FactsHeld(table, window, crossing, floorAt, rows, critical) && rows <= more
    ensures FactsHeld(table, window, crossing, floorAt, more, critical)
  {
    assert forall row :: row in rows ==> row in more;
  }

  /** What the walk leaves behind, in terms of the window rather than of the rows kept before it. */
  lemma WalkKeeps(table: seq<Row>, start: Time, end: Time, crossing: Option<EvidenceId>, floorAt: Option<Time>,
                  kept: seq<Row>, rows: seq<Row>, critical: set<EvidenceId>)
    requires FromTable(kept, table) && WalkedTo(Window(table, start, end), kept, rows)
    requires FactsHeld(table, Window(table, start, end), crossing, floorAt, kept, critical)
    ensures FactsHeld(table, Window(table, start, end), crossing, floorAt, rows, critical)
    ensures kept <= rows && forall row :: row in rows ==> row in table
    ensures rows == kept + ChangePoints(Window(table, start, end), kept) ==>
              Lossless(rows, Window(table, start, end)) && CompleteOn(table, start, end, rows)
  {
    WalkedFromTable(table, Window(table, start, end), kept, rows);
    FactsStay(table, Window(table, start, end), crossing, floorAt, kept, rows, critical);
    CompleteIsLossless(table, start, end, kept);
  }

  /**
   Select the quotes of one snapshot.  `crossing` is given when the crossing quote is
   required; `clocks` are the distinct clock times in order; the other numbers are the
   configured settings before clamping.
   */
  method SelectQuotes(table: seq<Row>, crossing: Option<EvidenceId>, floorAt: Option<Time>, clocks: seq<Time>,
                      start: Time, end: Time, rowLimit: int, batchSetting: int, sourceSetting: int, maxBytes: int,
                      anchorSetting: int, world: World)
    returns (outcome: Outcome)
    requires Ordered(table)
    ensures outcome.Selected? ==> outcome.bytes == Payload(outcome.rows)
    ensures outcome.Selected? ==> outcome.bytes <= Max(0, Min(maxBytes, Max(1, sourceSetting)))
    ensures outcome.Selected? ==> DistinctIds(outcome.rows) && forall row :: row in outcome.rows ==> row in table
    ensures outcome.Selected? ==>
              FactsHeld(table, Window(table, start, end), crossing, floorAt, outcome.rows, outcome.critical)
    ensures outcome.Selected? ==>
              AnchorsKept(table, clocks, Anchors(clocks, anchorSetting), outcome.rows, world,
                          Min(maxBytes, Max(1, sourceSetting)))
    ensures outcome.Selected? ==>
              outcome.summary.trajectoryRows <= Max(0, rowLimit + Min(256, Max(1, batchSetting)) - 1)
    ensures outcome.Selected? && outcome.summary.reason.None? ==>
              && Lossless(outcome.rows, Window(table, start, end))
              && CompleteOn(table, start, end, outcome.rows)
              && outcome.summary.seen == |Window(table, start, end)|
    ensures outcome.Selected? && outcome.summary.reason.Some? ==>
              CutCaused(outcome.summary.reason.value, Window(table, start, end), outcome.rows,
                        outcome.summary.trajectoryRows, rowLimit, world, Min(maxBytes, Max(1, sourceSetting)))
    ensures outcome.Exceeded? ==>
              RefusalCaused(outcome.refusal, table, Window(table, start, end), crossing, floorAt, world,
                            Min(maxBytes, Max(1, sourceSetting)))
  {
    var window := Window(table, start, end);
    var keeper := new Retainer(Min(maxBytes, Max(1, sourceSetting)));
    var refusal, readings := keeper.RetainBefore(table, window, crossing, floorAt, clocks, anchorSetting, world);
    if refusal.Some? {
      return Exceeded(refusal.value);
    }
    ghost var kept := keeper.rows;
    var summary;
    refusal, summary := keeper.Walk(window, rowLimit, Min(256, Max(1, batchSetting)), world, readings);
    if refusal.Some? {
      return Exceeded(refusal.value);
    }
    WalkKeeps(table, start, end, crossing, floorAt, kept, keeper.rows, keeper.critical);
    assert AnchorsKept(table, clocks, Anchors(clocks, anchorSetting), keeper.rows, world, keeper.limit) by {
      AnchorsStay(table, clocks, Anchors(clocks, anchorSetting), kept, keeper.rows, world, keeper.limit);
    }
    return Selected(keeper.rows, keeper.bytes, keeper.critical, summary);
  }
}
