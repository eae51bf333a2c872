/** One dispatch turn over the incident table and the run records, in the order the controller takes its paths. */
module DispatchTurn {
  import opened Common
  import opened Dispatch

  /** A transition writes stage, status and update stamp of every row with the id. */
  function Moved(rows: seq<Incident>, id: IncidentId, stage: Stage, status: Status, now: Time): seq<Incident> {
    seq(|rows|, i requires 0 <= i < |rows| =>
      if rows[i].id == id then rows[i].(stage := stage, status := status, updatedAt := Some(now)) else rows[i])
  }

  /** Marking a spawn failure touches only a row that is running. */
  function MarkedFailed(rows: seq<Incident>, id: IncidentId, stage: Stage, now: Time): seq<Incident> {
    seq(|rows|, i requires 0 <= i < |rows| =>
      if rows[i].id == id && rows[i].status == Running
      then rows[i].(stage := stage, status := RetryPending, updatedAt := Some(now)) else rows[i])
  }

  /** Recording evidence debt sends waiting rows to blocked and leaves a claimed row running in the evidence stage. */
  function Indebted(rows: seq<Incident>, id: IncidentId, now: Time): seq<Incident> {
    seq(|rows|, i requires 0 <= i < |rows| =>
      if rows[i].id == id
      then rows[i].(stage := Evidence, updatedAt := Some(now),
                    status := if rows[i].status in {Queued, RetryPending, ObservingStatus}
                              then Blocked else rows[i].status)
      else rows[i])
  }

  function QueuedBlind(rows: seq<Incident>, kind: Kind): nat {
    if rows == [] then 0
    else (if InStage(rows[0], Queued, Blind) && rows[0].kind == kind then 1 else 0) + QueuedBlind(rows[1..], kind)
  }

  predicate AtMost(w: World, before: nat, after: nat, kind: Kind) {
    after <= Max(before, w.slots(kind))
  }

  function CountRunning(runs: seq<RunRecord>, kind: Kind): nat {
    CountKind(RunningOnly(runs), kind)
  }

  /** No tallied kind ends above its slots unless it began there. */
  predicate WithinSlots(w: World, before: seq<RunRecord>, after: seq<RunRecord>) {
    && AtMost(w, CountRunning(before, Hard), CountRunning(after, Hard), Hard)
    && AtMost(w, CountRunning(before, Precursor), CountRunning(after, Precursor), Precursor)
  }

  lemma CountPrepend(run: RunRecord, runs: seq<RunRecord>, kind: Kind)
    ensures CountRunning([run] + runs, kind)
            == CountRunning(runs, kind) + (if run.running && run.kind == kind then 1 else 0)
  {
    assert ([run] + runs)[1..] == runs;
    var rest := RunningOnly(runs);
    assert ([run] + rest)[1..] == rest;
    assert [] + rest == rest;
  }

  /** Fewer rows wait blind when no row becomes one and some row stops being one. */
  lemma {:induction false} QueuedBlindDrops(rows: seq<Incident>, after: seq<Incident>, kind: Kind, i: nat)
    requires |rows| == |after| && i < |rows|
    requires forall k :: 0 <= k < |rows| && InStage(after[k], Queued, Blind) && after[k].kind == kind ==>
               InStage(rows[k], Queued, Blind) && rows[k].kind == kind
    requires InStage(rows[i], Queued, Blind) && rows[i].kind == kind && !InStage(after[i], Queued, Blind)
    ensures QueuedBlind(after, kind) < QueuedBlind(rows, kind)
  {
    QueuedBlindNoMore(rows[1..], after[1..], kind);
    if i > 0 {
      QueuedBlindDrops(rows[1..], after[1..], kind, i - 1);
    }
  }

  lemma {:induction false} QueuedBlindNoMore(rows: seq<Incident>, after: seq<Incident>, kind: Kind)
    requires |rows| == |after|
    requires forall k :: 0 <= k < |rows| && InStage(after[k], Queued, Blind) && after[k].kind == kind ==>
               InStage(rows[k], Queued, Blind) && rows[k].kind == kind
    ensures QueuedBlind(after, kind) <= QueuedBlind(rows, kind)
  {
    if rows != [] {
      QueuedBlindNoMore(rows[1..], after[1..], kind);
    }
  }

  /** The order in which a free slot is offered: exposed first, then priority, avoidable loss, latest detection. */
  predicate OfferedBefore(w: World, a: Incident, b: Incident) {
    var ea, eb := a.position in w.exposed, b.position in w.exposed;
    || (ea && !eb)
    || (ea == eb && a.priority > b.priority)
    || (ea == eb && a.priority == b.priority && a.avoidable > b.avoidable)
    || (ea == eb && a.priority == b.priority && a.avoidable == b.avoidable && a.detectedAt > b.detectedAt)
  }

  predicate Claimable(row: Incident, kind: Kind) {
    InStage(row, Queued, Blind) && row.kind == kind
  }

  /** The incident a claim takes: the first in the table that none is offered before. */
  function BestClaim(w: World, rows: seq<Incident>, kind: Kind): (best: Option<nat>)
    ensures best.Some? ==> best.value < |rows| && Claimable(rows[best.value], kind)
    ensures best.Some? ==> forall k :: 0 <= k < |rows| && Claimable(rows[k], kind) ==>
        !OfferedBefore(w, rows[k], rows[best.value])
    ensures best.None? ==> forall k :: 0 <= k < |rows| ==> !Claimable(rows[k], kind)
  {
    if rows == [] then None
    else
      var n := |rows| - 1;
      var best := BestClaim(w, rows[..n], kind);
      if Claimable(rows[n], kind) && (best.None? || OfferedBefore(w, rows[n], rows[best.value])) then Some(n) else best
  }

  /** The scan behind it. */
  method FindClaim(w: World, rows: seq<Incident>, kind: Kind) returns (best: Option<nat>)
    ensures best == BestClaim(w, rows, kind)
  {
    best := None;
    for i := 0 to |rows|
      invariant best == BestClaim(w, rows[..i], kind)
    {
      assert rows[..i + 1][..i] == rows[..i];
      if Claimable(rows[i], kind) && (best.None? || OfferedBefore(w, rows[i], rows[best.value])) {
        best := Some(i);
      }
    }
    assert rows[..|rows|] == rows;
  }

  predicate RepairedBefore(a: Incident, b: Incident) {
    a.priority > b.priority || (a.priority == b.priority && a.detectedAt < b.detectedAt)
  }

  /** The waiting repair that comes first: highest priority, then earliest detection. */
  function FirstRepair(rows: seq<Incident>): (first: Option<nat>)
    ensures first.Some? ==> first.value < |rows| && InStage(rows[first.value], Queued, RepairWaiting)
    ensures first.None? ==> forall k :: 0 <= k < |rows| ==> !InStage(rows[k], Queued, RepairWaiting)
    ensures first.Some? ==> forall k :: 0 <= k < |rows| && InStage(rows[k], Queued, RepairWaiting) ==>
              !RepairedBefore(rows[k], rows[first.value])
  {
    if rows == [] then None
    else
      var n := |rows| - 1;
      var first := FirstRepair(rows[..n]);
      if InStage(rows[n], Queued, RepairWaiting) && (first.None? || RepairedBefore(rows[n], rows[first.value]))
      then Some(n) else first
  }

  /** The scan behind it. */
  method FindRepair(rows: seq<Incident>) returns (first: Option<nat>)
    ensures first == FirstRepair(rows)
  {
    first := None;
    for i := 0 to |rows|
      invariant first == FirstRepair(rows[..i])
    {
      assert rows[..i + 1][..i] == rows[..i];
      if InStage(rows[i], Queued, RepairWaiting) && (first.None? || RepairedBefore(rows[i], rows[first.value])) {
        first := Some(i);
      }
    }
    assert rows[..|rows|] == rows;
  }

  predicate RetriedBefore(a: Incident, b: Incident) {
    a.priority > b.priority
    || (a.priority == b.priority && (a.updatedAt.None? || (b.updatedAt.Some? &&
        a.updatedAt.value <= b.updatedAt.value)))
  }

  function InsertRetry(rows: seq<Incident>, row: Incident): seq<Incident> {
    if rows == [] || RetriedBefore(rows[|rows| - 1], row) then rows + [row]
    else InsertRetry(rows[..|rows| - 1], row) + [rows[|rows| - 1]]
  }

  /** The retry-pending rows by falling priority, then oldest change. */
  function RetryOrder(rows: seq<Incident>): seq<Incident> {
    if rows == [] then []
    else
      var n := |rows| - 1;
      if rows[n].status == RetryPending then InsertRetry(RetryOrder(rows[..n]), rows[n]) else RetryOrder(rows[..n])
  }

  lemma {:induction false} InsertRetryHas(rows: seq<Incident>, row: Incident)
    ensures forall r :: r in InsertRetry(rows, row) <==> r in rows || r == row
  {
    if rows != [] && !RetriedBefore(rows[|rows| - 1], row) {
      InsertRetryHas(rows[..|rows| - 1], row);
      assert rows == rows[..|rows| - 1] + [rows[|rows| - 1]];
    }
  }

  lemma {:induction false} RetryOrderHas(rows: seq<Incident>)
    ensures forall r :: r in RetryOrder(rows) <==> r in rows && r.status == RetryPending
  {
    if rows != [] {
      var n := |rows| - 1;
      RetryOrderHas(rows[..n]);
      InsertRetryHas(RetryOrder(rows[..n]), rows[n]);
      assert rows == rows[..n] + [rows[n]];
    }
  }

  function Claimed(rows: seq<Incident>, id: IncidentId, now: Time): seq<Incident> {
    seq(|rows|, i requires 0 <= i < |rows| =>
      if rows[i].id == id then rows[i].(status := Running, updatedAt := Some(now)) else rows[i])
  }

  function Unblocked(rows: seq<Incident>, now: Time): seq<Incident> {
    seq(|rows|, i requires 0 <= i < |rows| =>
      if InStage(rows[i], Blocked, Evidence) then rows[i].(stage := Blind, status := Queued, updatedAt := Some(now))
      else rows[i])
  }

  // ----- the turn as a function of the board -----

  /** The tables a turn works on, and how many spawns and builds have been tried. */
  datatype Board = Board(incidents: seq<Incident>, runs: seq<RunRecord>, spawns: nat, builds: nat)

  function Started(w: World, id: IncidentId, kind: Kind, stage: Stage, cwd: Cwd, controller: bool): RunRecord {
    RunRecord(id, kind, stage, cwd, true, true, controller, true, Some(w.now))
  }

  /** A spawn attempt: only one that succeeds leaves a running record. */
  function Tried(w: World, b: Board, run: RunRecord): Board {
    if w.spawn(b.spawns).Spawned? then
        b.(runs := [run] + b.runs, spawns := b.spawns + 1) else b.(spawns := b.spawns + 1)
  }

  /** What one retry attempt leaves behind. */
  function AfterRetry(w: World, b: Board, row: Incident, prior: RunRecord): Board {
    var tried := Tried(w, b, Started(w, row.id, row.kind, prior.stage, prior.cwd, prior.controller));
    match w.spawn(b.spawns)
    case SpawnFailed => tried.(incidents := MarkedFailed(b.incidents, row.id, prior.stage, w.now))
    case Spawned => tried.(incidents := Moved(b.incidents, row.id, prior.stage, Running, w.now))
    case _ => tried
  }

  /** Retry the given rows in order, on top of what was launched before; an active provider backoff ends the pass. */
  function RetryAll(w: World, b: Board, running: seq<RunRecord>, tally: map<Kind, int>, order: seq<Incident>,
                    launched: seq<IncidentId>): (Board, seq<IncidentId>)
    decreases |order|
  {
    if order == [] then (b, launched)
    else
      var row := order[0];
      if !TurnRetry(w, b.runs, running, tally, row) then RetryAll(w, b, running, tally, order[1..], launched)
      else
        var after := AfterRetry(w, b, row, Prior(b.runs, row.id).value);
        match w.spawn(b.spawns)
        case BackoffActive => (after, launched)
        case Spawned =>
          var more := tally[row.kind := TallyOf(tally, row.kind) + 1];
          RetryAll(w, after, running, more, order[1..], launched + [row.id])
        case _ => RetryAll(w, after, running, tally, order[1..], launched)
  }

  function RecoverRow(w: World, incidents: seq<Incident>, id: IncidentId): seq<Incident> {
    if id in w.preventable then Moved(incidents, id, RepairWaiting, Queued, w.now)
    else Moved(incidents, id, Observing, ObservingStatus, w.now)
  }

  /** Classified incidents that lost their run move on to waiting for repair, or to observation. */
  function RecoverAll(w: World, incidents: seq<Incident>, running: seq<RunRecord>, rows: seq<Incident>): seq<Incident> {
    if rows == [] then incidents
    else
      var n := |rows| - 1;
      var before := RecoverAll(w, incidents, running, rows[..n]);
      if Recoverable(w, running, rows[n]) then RecoverRow(w, before, rows[n].id) else before
  }

  /** Building the evidence of a claimed incident and starting its diagnosis. */
  function Diagnosed(w: World, b: Board, kind: Kind, id: IncidentId): Board {
    var built := b.(builds := b.builds + 1);
    match w.build(b.builds)
    case Unusable(suppressed) => if suppressed then built else built.(incidents := Indebted(b.incidents, id, w.now))
    case ShaMissing => built.(incidents := Moved(b.incidents, id, Evidence, Blocked, w.now))
    case BuildFailed => built.(incidents := MarkedFailed(b.incidents, id, Blind, w.now))
    case Built =>
      var tried := Tried(w, built, Started(w, id, kind, Diagnosis, "", false));
      if w.spawn(b.spawns).Spawned? then tried
      else tried.(incidents := MarkedFailed(b.incidents, id, Blind, w.now))
  }

  predicate DiagnosisStarts(w: World, b: Board) {
    w.build(b.builds).Built? && w.spawn(b.spawns).Spawned?
  }

  predicate DiagnosisStops(w: World, b: Board) {
    w.build(b.builds).Built? && w.spawn(b.spawns).BackoffActive?
  }

  /** Claiming the row at `i` and working on it. */
  function AfterClaim(w: World, b: Board, kind: Kind, i: nat): Board
    requires i < |b.incidents|
  {
    var id := b.incidents[i].id;
    Diagnosed(w, b.(incidents := Claimed(b.incidents, id, w.now)), kind, id)
  }

  lemma AfterClaimDrops(w: World, b: Board, kind: Kind, i: nat)
    requires i < |b.incidents| && Claimable(b.incidents[i], kind)
    ensures QueuedBlind(AfterClaim(w, b, kind, i).incidents, kind) < QueuedBlind(b.incidents, kind)
  {
    QueuedBlindDrops(b.incidents, AfterClaim(w, b, kind, i).incidents, kind, i);
  }

  function NextClaim(w: World, b: Board, kind: Kind, taken: int): Option<nat> {
    if taken < w.slots(kind) && w.tradesReadable then BestClaim(w, b.incidents, kind) else None
  }

  /** Fill the free slots of one kind with claimed incidents; every claim leaves fewer waiting. */
  function ClaimAll(w: World, b: Board, kind: Kind, taken: int, launched: seq<IncidentId>)
    : (Board, seq<IncidentId>, bool)
    decreases QueuedBlind(b.incidents, kind)
  {
    var best := NextClaim(w, b, kind, taken);
    if best.None? then (b, launched, false)
    else
      AfterClaimDrops(w, b, kind, best.value);
      var after := AfterClaim(w, b, kind, best.value);
      if DiagnosisStops(w, b) then (after, launched, true)
      else if DiagnosisStarts(w, b) then ClaimAll(w, after, kind, taken + 1, launched + [b.incidents[best.value].id])
      else ClaimAll(w, after, kind, taken, launched)
  }

  /** Hard incidents first, then precursors. */
  function ClaimBoth(w: World, b: Board, tally: map<Kind, int>, launched: seq<IncidentId>): (Board, seq<IncidentId>,
                     bool) {
    var hard := ClaimAll(w, b, Hard, TallyOf(tally, Hard), launched);
    if hard.2 then hard else ClaimAll(w, hard.0, Precursor, TallyOf(tally, Precursor), hard.1)
  }

  /** Start the first waiting repair when nothing of its pipeline runs and its kind has a free slot. */
  function RepairOne(w: World, b: Board, launched: seq<IncidentId>): (Board, seq<IncidentId>) {
    var running := RunningOnly(b.runs);
    var first := if RepairBusy(running) then None else FirstRepair(b.incidents);
    if first.None? || CountKind(running,
        b.incidents[first.value].kind) >= w.slots(b.incidents[first.value].kind) then (b, launched)
    else if w.worktree.None? then (b, launched)
    else
      var row := b.incidents[first.value];
      var tried := Tried(w, b, Started(w, row.id, row.kind, Repair, w.worktree.value, false));
      if w.spawn(b.spawns).Spawned?
      then (tried.(incidents := Moved(b.incidents, row.id, Repair, Running, w.now)), launched + [row.id])
      else (tried, launched)
  }

  function TurnOn(w: World, b: Board): (Board, seq<IncidentId>) {
    if w.startupDebt || w.backoff || !w.capable then (b, [])
    else
      var running := RunningOnly(b.runs);
      var unblocked := if w.loadedSha then b.(incidents := Unblocked(b.incidents, w.now)) else b;
      var (retried, launched) := RetryAll(w, unblocked, running, Tally(running), RetryOrder(unblocked.incidents), []);
      var seen := RunningOnly(retried.runs);
      var recovered := retried.(incidents := RecoverAll(w, retried.incidents, seen, retried.incidents));
      var (claimed, more, stopped) := ClaimBoth(w, recovered, Tally(seen), launched);
      if stopped then (claimed, more) else RepairOne(w, claimed, more)
  }

  lemma {:induction false} NothingLaunched(w: World, b: Board, running: seq<RunRecord>, tally: map<Kind, int>,
                                           order: seq<Incident>, launched: seq<IncidentId>)
    ensures var (after, more) := RetryAll(w, b, running, tally, order, launched);
            |more| >= |launched| && (|more| == |launched| ==> after.runs == b.runs)
    decreases |order|
  {
    if order != [] {
      var row := order[0];
      if !TurnRetry(w, b.runs, running, tally, row) {
        NothingLaunched(w, b, running, tally, order[1..], launched);
      } else {
        var after := AfterRetry(w, b, row, Prior(b.runs, row.id).value);
        NothingLaunched(w, after, running, tally, order[1..], launched);
        NothingLaunched(w, after, running, tally[row.kind := TallyOf(tally, row.kind) + 1], order[1..],
            launched + [row.id]);
      }
    }
  }

  /** The controller's tables, updated in place. */
  class Controller {
    var incidents: seq<Incident>
    var runs: seq<RunRecord>
    var spawns: nat
    var builds: nat

    function View(): Board
      reads this
    {
      Board(incidents, runs, spawns, builds)
    }

    constructor (incidents: seq<Incident>, runs: seq<RunRecord>)
      ensures View() == Board(incidents, runs, 0, 0)
    {
      this.incidents, this.runs, spawns, builds := incidents, runs, 0, 0;
    }

    method Spawn(w: World, run: RunRecord) returns (o: SpawnOutcome)
      modifies `runs, `spawns
      ensures View() == Tried(w, old(View()), run) && o == w.spawn(old(spawns))
    {
      o := w.spawn(spawns);
      spawns := spawns + 1;
      if o.Spawned? {
        runs := [run] + runs;
      }
    }

    /** One attempt to repeat a row's last run. */
    method RetryRow(w: World, row: Incident, prior: RunRecord) returns (o: SpawnOutcome)
      modifies `incidents, `runs, `spawns
      ensures View() == AfterRetry(w, old(View()), row, prior) && o == w.spawn(old(spawns))
    {
      o := Spawn(w, Started(w, row.id, row.kind, prior.stage, prior.cwd, prior.controller));
      if o.SpawnFailed? {
        incidents := MarkedFailed(incidents, row.id, prior.stage, w.now);
      } else if o.Spawned? {
        incidents := Moved(incidents, row.id, prior.stage, Running, w.now);
      }
    }

    method RetryPendingRuns(w: World, running: seq<RunRecord>) returns (launched: seq<IncidentId>)
      modifies `incidents, `runs, `spawns
      ensures (View(), launched) == RetryAll(w, old(View()), running, Tally(running), RetryOrder(old(incidents)), [])
    {
      var tally := Tally(running);
      var order := RetryOrder(incidents);
      ghost var whole := RetryAll(w, View(), running, tally, order, []);
      launched := [];
      assert order[0..] == order;
      for i := 0 to |order|
        invariant whole == RetryAll(w, View(), running, tally, order[i..], launched)
      {
        var row := order[i];
        assert order[i..][1..] == order[i + 1..];
        if TurnRetry(w, runs, running, tally, row) {
          var o := RetryRow(w, row, Prior(runs, row.id).value);
          if o.BackoffActive? {
            return;
          }
          if o.Spawned? {
            launched := launched + [row.id];
            tally := tally[row.kind := TallyOf(tally, row.kind) + 1];
          }
        }
      }
    }

    method RecoverClassifications(w: World, running: seq<RunRecord>)
      modifies `incidents
      ensures incidents == RecoverAll(w, old(incidents), running, old(incidents))
    {
      var rows := incidents;
      for i := 0 to |rows|
        invariant incidents == RecoverAll(w, rows, running, rows[..i])
      {
        assert rows[..i + 1][..i] == rows[..i];
        if Recoverable(w, running, rows[i]) {
          incidents := RecoverRow(w, incidents, rows[i].id);
        }
      }
      assert rows[..|rows|] == rows;
    }

    method Diagnose(w: World, kind: Kind, id: IncidentId) returns (starts: bool, stops: bool)
      modifies this
      ensures View() == Diagnosed(w, old(View()), kind, id)
      ensures starts == DiagnosisStarts(w, old(View())) && stops == DiagnosisStops(w, old(View()))
    {
      starts, stops := false, false;
      var built := w.build(builds);
      builds := builds + 1;
      match built {
        case Unusable(suppressed) =>
          if !suppressed {
            incidents := Indebted(incidents, id, w.now);
          }
        case ShaMissing => incidents := Moved(incidents, id, Evidence, Blocked, w.now);
        case BuildFailed => incidents := MarkedFailed(incidents, id, Blind, w.now);
        case Built =>
          var o := Spawn(w, Started(w, id, kind, Diagnosis, "", false));
          starts, stops := o.Spawned?, o.BackoffActive?;
          if !starts {
            incidents := MarkedFailed(incidents, id, Blind, w.now);
          }
      }
    }

    /** Take the next incident offered a free slot and work on it. */
    method ClaimOne(w: World, kind: Kind, taken: int) returns (id: Option<IncidentId>, starts: bool, stops: bool)
      requires taken < w.slots(kind)
      modifies this
      ensures var best := NextClaim(w, old(View()), kind, taken);
              if best.None? then id.None? && View() == old(View())
              else && View() == AfterClaim(w, old(View()), kind, best.value)
                   && id == Some(old(incidents)[best.value].id)
                   && starts == DiagnosisStarts(w, old(View())) && stops == DiagnosisStops(w, old(View()))
                   && QueuedBlind(incidents, kind) < QueuedBlind(old(incidents), kind)
    {
      id, starts, stops := None, false, false;
      var best := None;
      if w.tradesReadable {
        best := FindClaim(w, incidents, kind);
      }
      if best.Some? {
        AfterClaimDrops(w, View(), kind, best.value);
        id := Some(incidents[best.value].id);
        incidents := Claimed(incidents, id.value, w.now);
        starts, stops := Diagnose(w, kind, id.value);
      }
    }

    method ClaimWhileFree(w: World, kind: Kind, count: int, before: seq<IncidentId>)
      returns (launched: seq<IncidentId>, stopped: bool)
      modifies this
      ensures (View(), launched, stopped) == ClaimAll(w, old(View()), kind, count, before)
    {
      launched, stopped := before, false;
      var taken := count;
      while taken < w.slots(kind)
        invariant !stopped &&
            ClaimAll(w, old(View()), kind, count, before) == ClaimAll(w, View(), kind, taken, launched)
        decreases QueuedBlind(incidents, kind)
      {
        var id, starts, stops := ClaimOne(w, kind, taken);
        if id.None? {
          return;
        }
        if stops {
          stopped := true;
          return;
        }
        if starts {
          launched, taken := launched + [id.value], taken + 1;
        }
      }
    }

    method StartRepair(w: World, before: seq<IncidentId>) returns (launched: seq<IncidentId>)
      modifies this
      ensures (View(), launched) == RepairOne(w, old(View()), before)
    {
      var running := RunningOnly(runs);
      if RepairBusy(running) {
        return before;
      }
      var first := FindRepair(incidents);
      if first.None? {
        return before;
      }
      var row := incidents[first.value];
      if CountKind(running, row.kind) >= w.slots(row.kind) || w.worktree.None? {
        return before;
      }
      var o := Spawn(w, Started(w, row.id, row.kind, Repair, w.worktree.value, false));
      if !o.Spawned? {
        return before;
      }
      incidents := Moved(incidents, row.id, Repair, Running, w.now);
      return before + [row.id];
    }

    method ClaimPhase(w: World, running: seq<RunRecord>, before: seq<IncidentId>)
      returns (launched: seq<IncidentId>, stopped: bool)
      modifies this
      ensures (View(), launched, stopped) == ClaimBoth(w, old(View()), Tally(running), before)
    {
      launched, stopped := ClaimWhileFree(w, Hard, CountKind(running, Hard), before);
      if !stopped {
        launched, stopped := ClaimWhileFree(w, Precursor, CountKind(running, Precursor), launched);
      }
    }

    /** One dispatch turn. */
    method Turn(w: World) returns (launched: seq<IncidentId>)
      modifies this
      ensures (View(), launched) == TurnOn(w, old(View()))
    {
      if w.startupDebt || w.backoff || !w.capable {
        return [];
      }
      var running := RunningOnly(runs);
      if w.loadedSha {
        incidents := Unblocked(incidents, w.now);
      }
      NothingLaunched(w, View(), running, Tally(running), RetryOrder(incidents), []);
      launched := RetryPendingRuns(w, running);
      if launched != [] {
        running := RunningOnly(runs);
      }
      RecoverClassifications(w, running);
      var stopped;
      launched, stopped := ClaimPhase(w, running, launched);
      if !stopped {
        launched := StartRepair(w, launched);
      }
    }
  }
}
