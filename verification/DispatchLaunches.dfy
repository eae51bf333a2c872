/** The runs a dispatch turn launches, and the incidents they are for. */
module DispatchLaunches {
  import opened Common
  import opened Dispatch
  import opened DispatchTurn
  import opened DispatchRows

  /** Records are only ever put in front of those that were there. */
  predicate Grows(before: seq<RunRecord>, after: seq<RunRecord>) {
    |before| <= |after| && after[|after| - |before|..] == before
  }

  function Added(before: seq<RunRecord>, after: seq<RunRecord>): seq<RunRecord>
    requires |before| <= |after|
  {
    after[..|after| - |before|]
  }

  lemma GrowsThen(r0: seq<RunRecord>, r1: seq<RunRecord>, r2: seq<RunRecord>)
    requires Grows(r0, r1) && Grows(r1, r2)
    ensures Grows(r0, r2) && Added(r0, r2) == Added(r1, r2) + Added(r0, r1)
  {
  }

  lemma GrowsOne(run: RunRecord, runs: seq<RunRecord>)
    ensures Grows(runs, [run] + runs) && Added(runs, [run] + runs) == [run]
  {
  }

  lemma GrowsNot(runs: seq<RunRecord>)
    ensures Grows(runs, runs) && Added(runs, runs) == []
  {
  }

  /** Some row of the incident is running. */
  predicate IsRunning(rows: seq<Incident>, id: IncidentId) {
    exists i :: 0 <= i < |rows| && rows[i].id == id && rows[i].status == Running
  }

  /** Every one of these runs is recorded as running, and so is its incident. */
  predicate AllRunning(rows: seq<Incident>, runs: seq<RunRecord>) {
    forall run :: run in runs ==> run.running && IsRunning(rows, run.incident)
  }

  predicate HasRow(rows: seq<Incident>, id: IncidentId) {
    exists i :: 0 <= i < |rows| && rows[i].id == id
  }

  /** Rows of incidents that are running stay as they were. */
  predicate KeepsRunning(rows: seq<Incident>, after: seq<Incident>) {
    SameIds(rows, after) && forall i :: 0 <= i < |rows| && rows[i].status == Running ==> after[i] == rows[i]
  }

  lemma AllStayRunning(rows: seq<Incident>, after: seq<Incident>, runs: seq<RunRecord>)
    requires AllRunning(rows, runs) && KeepsRunning(rows, after)
    ensures AllRunning(after, runs)
  {
    forall run | run in runs ensures IsRunning(after, run.incident) {
      var i :| 0 <= i < |rows| && rows[i].id == run.incident && rows[i].status == Running;
      assert after[i] == rows[i];
    }
  }

  // ----- retries -----

  predicate NotAmong(order: seq<Incident>, id: IncidentId) {
    forall row :: row in order ==> row.id != id
  }

  /** What retrying the rows of `order` does: only their incidents are touched or launched. */
  ghost predicate Retried(b: Board, after: Board, order: seq<Incident>) {
    && SameIds(b.incidents, after.incidents) && Grows(b.runs, after.runs)
    && (forall i :: 0 <= i < |b.incidents| && NotAmong(order, b.incidents[i].id) ==>
          after.incidents[i] == b.incidents[i])
    && AllRunning(after.incidents, Added(b.runs, after.runs))
    && (forall run :: run in Added(b.runs, after.runs) ==> !NotAmong(order, run.incident))
  }

  lemma RetriedNothing(b: Board, order: seq<Incident>)
    ensures Retried(b, b, order)
  {
    GrowsNot(b.runs);
  }

  lemma OneRetry(w: World, b: Board, row: Incident, prior: RunRecord)
    requires DistinctRows(b.incidents) && HasRow(b.incidents, row.id)
    ensures Retried(b, AfterRetry(w, b, row, prior), [row])
  {
    var run := Started(w, row.id, row.kind, prior.stage, prior.cwd, prior.controller);
    var after := AfterRetry(w, b, row, prior);
    if w.spawn(b.spawns).Spawned? {
      GrowsOne(run, b.runs);
      var i :| 0 <= i < |b.incidents| && b.incidents[i].id == row.id;
      assert after.incidents[i].status == Running && after.incidents[i].id == row.id;
      assert row in [row];
    } else {
      GrowsNot(b.runs);
    }
    forall i | 0 <= i < |b.incidents| && NotAmong([row], b.incidents[i].id)
      ensures after.incidents[i] == b.incidents[i]
    {
      assert row in [row];
    }
  }

  lemma RetriedThen(b0: Board, b1: Board, b2: Board, order: seq<Incident>)
    requires order != [] && DistinctRows(order) && Retried(b0, b1, order[..1]) && Retried(b1, b2, order[1..])
    ensures Retried(b0, b2, order)
  {
    GrowsThen(b0.runs, b1.runs, b2.runs);
    assert order == order[..1] + order[1..];
    assert forall row :: row in order[..1] ==> row == order[0];
    assert NotAmong(order[1..], order[0].id);
    forall run | run in Added(b0.runs, b1.runs) ensures IsRunning(b2.incidents, run.incident) {
      assert run.incident == order[0].id;
      var i :| 0 <= i < |b1.incidents| && b1.incidents[i].id == run.incident && b1.incidents[i].status == Running;
      assert b2.incidents[i] == b1.incidents[i];
    }
    forall i | 0 <= i < |b0.incidents| && NotAmong(order, b0.incidents[i].id)
      ensures b2.incidents[i] == b0.incidents[i]
    {
      assert NotAmong(order[..1], b0.incidents[i].id) && NotAmong(order[1..], b0.incidents[i].id);
    }
  }

  lemma SameIdsDistinct(rows: seq<Incident>, after: seq<Incident>)
    requires DistinctRows(rows) && SameIds(rows, after)
    ensures DistinctRows(after) && forall id :: HasRow(rows, id) ==> HasRow(after, id)
  {
    forall id | HasRow(rows, id) ensures HasRow(after, id) {
      var i :| 0 <= i < |rows| && rows[i].id == id;
      assert after[i].id == id;
    }
  }

  predicate AllHaveRows(rows: seq<Incident>, order: seq<Incident>) {
    forall row :: row in order ==> HasRow(rows, row.id)
  }

  lemma RetriedOne(w: World, b: Board, order: seq<Incident>)
    requires DistinctRows(b.incidents) && order != [] && DistinctRows(order) && AllHaveRows(b.incidents, order)
    requires Prior(b.runs, order[0].id).Some?
    ensures var after := AfterRetry(w, b, order[0], Prior(b.runs, order[0].id).value);
            Retried(b, after, order[..1]) && DistinctRows(after.incidents) && AllHaveRows(after.incidents, order[1..])
  {
    var after := AfterRetry(w, b, order[0], Prior(b.runs, order[0].id).value);
    assert order[0] in order && order[..1] == [order[0]];
    OneRetry(w, b, order[0], Prior(b.runs, order[0].id).value);
    SameIdsDistinct(b.incidents, after.incidents);
  }

  /** The tally and the launches after the first row of the order was tried. */
  function NextTally(w: World, b: Board, tally: map<Kind, int>, row: Incident): map<Kind, int> {
    if w.spawn(b.spawns).Spawned? then tally[row.kind := TallyOf(tally, row.kind) + 1] else tally
  }

  function NextLaunched(w: World, b: Board, launched: seq<IncidentId>, row: Incident): seq<IncidentId> {
    if w.spawn(b.spawns).Spawned? then launched + [row.id] else launched
  }

  /** The board the pass ends with after the first row of the order was tried. */
  function RetryRest(w: World, b: Board, running: seq<RunRecord>, tally: map<Kind, int>, order: seq<Incident>,
                     launched: seq<IncidentId>): Board
    requires order != [] && Prior(b.runs, order[0].id).Some?
  {
    var row := order[0];
    var after := AfterRetry(w, b, row, Prior(b.runs, row.id).value);
    if w.spawn(b.spawns).BackoffActive? then after
    else RetryAll(w, after, running, NextTally(w, b, tally, row), order[1..], NextLaunched(w, b, launched, row)).0
  }

  lemma RetryAllIsRest(w: World, b: Board, running: seq<RunRecord>, tally: map<Kind, int>, order: seq<Incident>,
                       launched: seq<IncidentId>)
    requires order != []
    ensures if TurnRetry(w, b.runs, running, tally, order[0])
            then RetryAll(w, b, running, tally, order, launched).0 == RetryRest(w, b, running, tally, order, launched)
            else RetryAll(w, b, running, tally, order, launched)
                 == RetryAll(w, b, running, tally, order[1..], launched)
  {
  }

  lemma {:induction false} RetryAllRetries(w: World, b: Board, running: seq<RunRecord>, tally: map<Kind, int>,
                                           order: seq<Incident>, launched: seq<IncidentId>)
    requires DistinctRows(b.incidents) && DistinctRows(order) && AllHaveRows(b.incidents, order)
    ensures Retried(b, RetryAll(w, b, running, tally, order, launched).0, order)
    decreases |order|, 1
  {
    if order == [] {
      RetriedNothing(b, order);
    } else {
      RetryAllIsRest(w, b, running, tally, order, launched);
      if TurnRetry(w, b.runs, running, tally, order[0]) {
        RetriedOne(w, b, order);
        RetryRestRetries(w, b, running, tally, order, launched);
        RetriedThen(b, AfterRetry(w, b, order[0], Prior(b.runs, order[0].id).value),
                    RetryRest(w, b, running, tally, order, launched), order);
      } else {
        RetriedNothing(b, order[..1]);
        RestHasRows(b.incidents, order);
        RetryAllRetries(w, b, running, tally, order[1..], launched);
        RetriedThen(b, b, RetryAll(w, b, running, tally, order[1..], launched).0, order);
      }
    }
  }

  lemma {:induction false} RetryRestRetries(w: World, b: Board, running: seq<RunRecord>, tally: map<Kind, int>,
                                            order: seq<Incident>, launched: seq<IncidentId>)
    requires order != [] && DistinctRows(order) && Prior(b.runs, order[0].id).Some?
    requires var after := AfterRetry(w, b, order[0], Prior(b.runs, order[0].id).value);
             DistinctRows(after.incidents) && AllHaveRows(after.incidents, order[1..])
    ensures var after := AfterRetry(w, b, order[0], Prior(b.runs, order[0].id).value);
            Retried(after, RetryRest(w, b, running, tally, order, launched), order[1..])
    decreases |order|, 0
  {
    var row := order[0];
    var after := AfterRetry(w, b, row, Prior(b.runs, row.id).value);
    if w.spawn(b.spawns).BackoffActive? {
      RetriedNothing(after, order[1..]);
    } else {
      RetryAllRetries(w, after, running, NextTally(w, b, tally, row), order[1..], NextLaunched(w, b, launched, row));
    }
  }

  lemma RestHasRows(rows: seq<Incident>, order: seq<Incident>)
    requires order != [] && AllHaveRows(rows, order)
    ensures AllHaveRows(rows, order[1..])
  {
  }

  lemma {:induction false} RetryOrderDistinct(rows: seq<Incident>)
    requires DistinctRows(rows)
    ensures DistinctRows(RetryOrder(rows)) && AllHaveRows(rows, RetryOrder(rows))
  {
    RetryOrderHas(rows);
    forall row | row in RetryOrder(rows) ensures HasRow(rows, row.id) {
      var i :| 0 <= i < |rows| && rows[i] == row;
    }
    if rows != [] {
      var n := |rows| - 1;
      RetryOrderDistinct(rows[..n]);
      RetryOrderHas(rows[..n]);
      assert forall row :: row in rows[..n] ==> row.id != rows[n].id;
      InsertRetryDistinct(RetryOrder(rows[..n]), rows[n]);
    }
  }

  lemma {:induction false} InsertRetryDistinct(rows: seq<Incident>, row: Incident)
    requires DistinctRows(rows)
    ensures NotAmong(rows, row.id) ==> DistinctRows(InsertRetry(rows, row))
  {
    if rows != [] && NotAmong(rows, row.id) && !RetriedBefore(rows[|rows| - 1], row) {
      var n := |rows| - 1;
      assert forall r :: r in rows[..n] ==> r in rows;
      InsertRetryDistinct(rows[..n], row);
      InsertRetryHas(rows[..n], row);
      var rest := InsertRetry(rows[..n], row);
      forall i | 0 <= i < |rest| ensures rest[i].id != rows[n].id {
        assert rest[i] in rest && rows[n] in rows;
      }
    }
  }

  // ----- claims -----

  /** What claiming does: only incidents waiting blind are touched or launched, and launched for diagnosis. */
  ghost predicate ClaimedFrom(b: Board, after: Board) {
    && SameIds(b.incidents, after.incidents) && Grows(b.runs, after.runs)
    && (forall i :: 0 <= i < |b.incidents| && !InStage(b.incidents[i], Queued, Blind) ==>
          after.incidents[i] == b.incidents[i])
    && AllRunning(after.incidents, Added(b.runs, after.runs))
    && (forall run :: run in Added(b.runs, after.runs) ==>
          run.stage == Diagnosis && exists i :: 0 <= i < |b.incidents| && b.incidents[i].id == run.incident
                                                && InStage(b.incidents[i], Queued, Blind))
  }

  lemma OneClaim(w: World, b: Board, kind: Kind, i: nat)
    requires DistinctRows(b.incidents) && i < |b.incidents| && Claimable(b.incidents[i], kind)
    ensures ClaimedFrom(b, AfterClaim(w, b, kind, i))
  {
    var id := b.incidents[i].id;
    var after := AfterClaim(w, b, kind, i);
    if DiagnosisStarts(w, b) {
      GrowsOne(Started(w, id, kind, Diagnosis, "", false), b.runs);
      assert after.incidents[i].id == id && after.incidents[i].status == Running;
    } else {
      GrowsNot(b.runs);
    }
  }

  lemma ClaimedThen(b0: Board, b1: Board, b2: Board)
    requires ClaimedFrom(b0, b1) && ClaimedFrom(b1, b2) && ClaimsOnce(b0, b1)
    ensures ClaimedFrom(b0, b2)
  {
    GrowsThen(b0.runs, b1.runs, b2.runs);
    AllStayRunning(b1.incidents, b2.incidents, Added(b0.runs, b1.runs));
    forall run | run in Added(b1.runs, b2.runs)
      ensures exists i :: 0 <= i < |b0.incidents| && b0.incidents[i].id == run.incident
                          && InStage(b0.incidents[i], Queued, Blind)
    {
      var i :| 0 <= i < |b1.incidents| && b1.incidents[i].id == run.incident && InStage(b1.incidents[i], Queued, Blind);
      assert b0.incidents[i].id == run.incident;
    }
  }

  /** Nothing starts to wait blind. */
  predicate ClaimsOnce(b: Board, after: Board) {
    SameIds(b.incidents, after.incidents)
    && forall i :: 0 <= i < |b.incidents| && InStage(after.incidents[i], Queued, Blind) ==>
         InStage(b.incidents[i], Queued, Blind)
  }

  lemma {:induction false} ClaimAllClaims(w: World, b: Board, kind: Kind, taken: int, launched: seq<IncidentId>)
    requires DistinctRows(b.incidents)
    ensures ClaimedFrom(b, ClaimAll(w, b, kind, taken, launched).0)
    ensures ClaimsOnce(b, ClaimAll(w, b, kind, taken, launched).0)
    decreases QueuedBlind(b.incidents, kind)
  {
    GrowsNot(b.runs);
    var best := NextClaim(w, b, kind, taken);
    if best.Some? {
      AfterClaimDrops(w, b, kind, best.value);
      OneClaim(w, b, kind, best.value);
      var after := AfterClaim(w, b, kind, best.value);
      SameIdsDistinct(b.incidents, after.incidents);
      if DiagnosisStarts(w, b) {
        ClaimAllClaims(w, after, kind, taken + 1, launched + [b.incidents[best.value].id]);
        ClaimedThen(b, after, ClaimAll(w, b, kind, taken, launched).0);
      } else if !DiagnosisStops(w, b) {
        ClaimAllClaims(w, after, kind, taken, launched);
        ClaimedThen(b, after, ClaimAll(w, b, kind, taken, launched).0);
      }
    }
  }

  lemma ClaimBothClaims(w: World, b: Board, tally: map<Kind, int>, launched: seq<IncidentId>)
    requires DistinctRows(b.incidents)
    ensures ClaimedFrom(b, ClaimBoth(w, b, tally, launched).0)
  {
    var hard := ClaimAll(w, b, Hard, TallyOf(tally, Hard), launched);
    ClaimAllClaims(w, b, Hard, TallyOf(tally, Hard), launched);
    if !hard.2 {
      SameIdsDistinct(b.incidents, hard.0.incidents);
      ClaimAllClaims(w, hard.0, Precursor, TallyOf(tally, Precursor), hard.1);
      ClaimedThen(b, hard.0, ClaimBoth(w, b, tally, launched).0);
    }
  }

  // ----- the repair -----

  /** What the repair path does: at most one run, of the repair stage, for an incident that waited for repair. */
  ghost predicate RepairedFrom(b: Board, after: Board) {
    && SameIds(b.incidents, after.incidents) && Grows(b.runs, after.runs)
    && (forall i :: 0 <= i < |b.incidents| && !InStage(b.incidents[i], Queued, RepairWaiting) ==>
          after.incidents[i] == b.incidents[i])
    && AllRunning(after.incidents, Added(b.runs, after.runs))
    && (forall run :: run in Added(b.runs, after.runs) ==>
          run.stage == Repair && exists i :: 0 <= i < |b.incidents| && b.incidents[i].id == run.incident
                                             && InStage(b.incidents[i], Queued, RepairWaiting))
  }

  lemma RepairOneRepairs(w: World, b: Board, launched: seq<IncidentId>)
    requires DistinctRows(b.incidents)
    ensures RepairedFrom(b, RepairOne(w, b, launched).0)
  {
    var after := RepairOne(w, b, launched).0;
    GrowsNot(b.runs);
    if after.runs != b.runs {
      var i := FirstRepair(b.incidents).value;
      var row := b.incidents[i];
      GrowsOne(Started(w, row.id, row.kind, Repair, w.worktree.value, false), b.runs);
      assert after.incidents[i].id == row.id && after.incidents[i].status == Running;
    }
  }

  // ----- the turn -----

  lemma {:induction false} RunningOnlyHas(runs: seq<RunRecord>, run: RunRecord)
    ensures run in RunningOnly(runs) <==> run in runs && run.running
  {
    if runs != [] {
      RunningOnlyHas(runs[1..], run);
      assert runs == [runs[0]] + runs[1..];
    }
  }

  lemma RecoveryKeepsLaunched(w: World, rows: seq<Incident>, runs: seq<RunRecord>, added: seq<RunRecord>)
    requires DistinctRows(rows) && AllRunning(rows, added) && forall run :: run in added ==> run in runs
    ensures AllRunning(RecoverAll(w, rows, RunningOnly(runs), rows), added)
  {
    var after := RecoverAll(w, rows, RunningOnly(runs), rows);
    forall run | run in added ensures IsRunning(after, run.incident) {
      var i :| 0 <= i < |rows| && rows[i].id == run.incident && rows[i].status == Running;
      RunningOnlyHas(runs, run);
      RecoveredRow(w, rows, RunningOnly(runs), i);
      assert after[i] == rows[i];
    }
  }

  /** The boards a turn passes through: unblocked, retried, recovered, claimed. */
  function Opened(w: World, b: Board): Board {
    if w.loadedSha then b.(incidents := Unblocked(b.incidents, w.now)) else b
  }

  function AfterRetries(w: World, b: Board): (Board, seq<IncidentId>) {
    var running := RunningOnly(b.runs);
    RetryAll(w, Opened(w, b), running, Tally(running), RetryOrder(Opened(w, b).incidents), [])
  }

  function AfterRecovery(w: World, b: Board): Board {
    var retried := AfterRetries(w, b).0;
    retried.(incidents := RecoverAll(w, retried.incidents, RunningOnly(retried.runs), retried.incidents))
  }

  function AfterClaims(w: World, b: Board): (Board, seq<IncidentId>, bool) {
    var (retried, launched) := AfterRetries(w, b);
    ClaimBoth(w, AfterRecovery(w, b), Tally(RunningOnly(retried.runs)), launched)
  }

  lemma TurnPasses(w: World, b: Board)
    requires !w.startupDebt && !w.backoff && w.capable
    ensures var claimed := AfterClaims(w, b);
            TurnOn(w, b) == if claimed.2 then (claimed.0, claimed.1) else RepairOne(w, claimed.0, claimed.1)
  {
  }

  lemma RetriesRetry(w: World, b: Board)
    requires DistinctRows(b.incidents)
    ensures var retried := AfterRetries(w, b).0;
            && Retried(Opened(w, b), retried, RetryOrder(Opened(w, b).incidents))
            && DistinctRows(retried.incidents) && Grows(b.runs, retried.runs) && SameIds(b.incidents, retried.incidents)
  {
    var open, running := Opened(w, b), RunningOnly(b.runs);
    assert SameIds(b.incidents, open.incidents);
    SameIdsDistinct(b.incidents, open.incidents);
    RetryOrderDistinct(open.incidents);
    RetryAllRetries(w, open, running, Tally(running), RetryOrder(open.incidents), []);
    SameIdsDistinct(open.incidents, AfterRetries(w, b).0.incidents);
  }

  /** What a turn launched is running, record and incident. */
  ghost predicate Launched(b: Board, after: Board) {
    && SameIds(b.incidents, after.incidents) && Grows(b.runs, after.runs)
    && AllRunning(after.incidents, Added(b.runs, after.runs))
  }

  lemma RecoveryLaunched(w: World, b: Board)
    requires DistinctRows(b.incidents)
    ensures Launched(b, AfterRecovery(w, b)) && DistinctRows(AfterRecovery(w, b).incidents)
  {
    var retried := AfterRetries(w, b).0;
    RetriesRetry(w, b);
    RecoveryKeepsLaunched(w, retried.incidents, retried.runs, Added(b.runs, retried.runs));
    RecoveryKeepsIds(w, retried.incidents, RunningOnly(retried.runs));
    SameIdsDistinct(retried.incidents, AfterRecovery(w, b).incidents);
  }

  lemma LaunchedThen(b0: Board, b1: Board, b2: Board)
    requires Launched(b0, b1) && KeepsRunning(b1.incidents, b2.incidents) && Launched(b1, b2)
    ensures Launched(b0, b2)
  {
    GrowsThen(b0.runs, b1.runs, b2.runs);
    AllStayRunning(b1.incidents, b2.incidents, Added(b0.runs, b1.runs));
  }

  lemma ClaimsLaunched(w: World, b: Board)
    requires DistinctRows(b.incidents)
    ensures Launched(b, AfterClaims(w, b).0) && DistinctRows(AfterClaims(w, b).0.incidents)
    ensures ClaimedFrom(AfterRecovery(w, b), AfterClaims(w, b).0)
  {
    var (retried, launched) := AfterRetries(w, b);
    RecoveryLaunched(w, b);
    ClaimBothClaims(w, AfterRecovery(w, b), Tally(RunningOnly(retried.runs)), launched);
    LaunchedThen(b, AfterRecovery(w, b), AfterClaims(w, b).0);
    SameIdsDistinct(AfterRecovery(w, b).incidents, AfterClaims(w, b).0.incidents);
  }

  lemma RepairLaunched(b0: Board, b1: Board, b2: Board)
    requires Launched(b0, b1) && RepairedFrom(b1, b2)
    ensures Launched(b0, b2)
  {
    LaunchedThen(b0, b1, b2);
  }

  lemma LaunchedNothing(b: Board)
    ensures Launched(b, b)
  {
    GrowsNot(b.runs);
  }

  /** Every run a turn adds is running, and so is its incident, whatever else the turn did to it. */
  lemma LaunchedAreRunning(w: World, b: Board)
    requires DistinctRows(b.incidents)
    ensures Launched(b, TurnOn(w, b).0)
  {
    if w.startupDebt || w.backoff || !w.capable {
      LaunchedNothing(b);
    } else {
      var claimed := AfterClaims(w, b);
      TurnPasses(w, b);
      ClaimsLaunched(w, b);
      if !claimed.2 {
        RepairOneRepairs(w, claimed.0, claimed.1);
        RepairLaunched(b, claimed.0, RepairOne(w, claimed.0, claimed.1).0);
      }
    }
  }

  // ----- incidents found running their classification -----

  /** Retries leave an incident that is running alone, and launch nothing for it. */
  lemma RunningNotRetried(w: World, b: Board, i: nat)
    requires DistinctRows(b.incidents) && i < |b.incidents| && b.incidents[i].status == Running
    ensures var retried := AfterRetries(w, b).0;
            && Grows(b.runs, retried.runs) && SameIds(b.incidents, retried.incidents)
            && retried.incidents[i] == b.incidents[i]
            && forall run :: run in Added(b.runs, retried.runs) ==> run.incident != b.incidents[i].id
  {
    var rows := Opened(w, b).incidents;
    RetriesRetry(w, b);
    assert rows[i] == b.incidents[i] && SameIds(b.incidents, rows);
    SameIdsDistinct(b.incidents, rows);
    RetryOrderHas(rows);
    forall row | row in RetryOrder(rows) ensures row.id != b.incidents[i].id {
      var k :| 0 <= k < |rows| && rows[k] == row;
    }
  }

  /** The row after recovery of an incident found running its classification. */
  lemma RecoveredInTurn(w: World, b: Board, i: nat)
    requires DistinctRows(b.incidents) && i < |b.incidents| && InStage(b.incidents[i], Running, Classification)
    ensures var row := AfterRecovery(w, b).incidents;
            && |row| == |b.incidents| && row[i].id == b.incidents[i].id && !InStage(row[i], Queued, Blind)
            && (InStage(row[i], Queued, RepairWaiting)
                <==> Stalled(w, RunningOnly(b.runs), b.incidents[i]) && b.incidents[i].id in w.preventable)
  {
    var retried := AfterRetries(w, b).0;
    RunningNotRetried(w, b, i);
    RetriesRetry(w, b);
    RecoveredRow(w, retried.incidents, RunningOnly(retried.runs), i);
    assert Stalled(w, RunningOnly(b.runs), b.incidents[i])
      <==> Stalled(w, RunningOnly(retried.runs), b.incidents[i]) by {
      SameRunsOfIncident(b.runs, retried.runs, b.incidents[i].id);
    }
  }

  lemma SameRunsOfIncident(before: seq<RunRecord>, after: seq<RunRecord>, id: IncidentId)
    requires Grows(before, after) && forall run :: run in Added(before, after) ==> run.incident != id
    ensures (forall run :: run in RunningOnly(before) ==> run.incident != id)
            <==> forall run :: run in RunningOnly(after) ==> run.incident != id
  {
    assert after == Added(before, after) + before;
    forall run ensures run in RunningOnly(before) <==> run in before && run.running {
      RunningOnlyHas(before, run);
    }
    forall run ensures run in RunningOnly(after) <==> run in after && run.running {
      RunningOnlyHas(after, run);
    }
  }

  /** A row that is not waiting blind is not claimed, and no run of its incident is added by claims. */
  lemma NotClaimed(b: Board, after: Board, i: nat, run: RunRecord)
    requires DistinctRows(b.incidents) && ClaimedFrom(b, after)
    requires i < |b.incidents| && !InStage(b.incidents[i], Queued, Blind)
    requires run in Added(b.runs, after.runs)
    ensures run.incident != b.incidents[i].id
  {
  }

  lemma RepairedOnlyWaiting(b: Board, after: Board, i: nat, run: RunRecord)
    requires DistinctRows(b.incidents) && RepairedFrom(b, after) && i < |b.incidents|
    requires run in Added(b.runs, after.runs) && run.incident == b.incidents[i].id
    ensures run.stage == Repair && InStage(b.incidents[i], Queued, RepairWaiting)
  {
  }

  /**
   A run launched in a turn for an incident that was running its classification is the
   repair of a loss that was preventable, after the incident had lost its own run with its
   classification on file.
   */
  lemma RecoveredRepairsArePreventable(w: World, b: Board, i: nat, run: RunRecord)
    requires DistinctRows(b.incidents) && i < |b.incidents| && InStage(b.incidents[i], Running, Classification)
    requires |b.runs| <= |TurnOn(w, b).0.runs| && run in Added(b.runs, TurnOn(w, b).0.runs)
    requires run.incident == b.incidents[i].id
    ensures run.stage == Repair && run.incident in w.preventable
    ensures Stalled(w, RunningOnly(b.runs), b.incidents[i])
  {
    TurnPasses(w, b);
    var claimed := AfterClaims(w, b);
    RunningNotRetried(w, b, i);
    RecoveredInTurn(w, b, i);
    ClaimsLaunched(w, b);
    RecoveryLaunched(w, b);
    GrowsThen(b.runs, AfterRecovery(w, b).runs, claimed.0.runs);
    assert forall r :: r in Added(b.runs, claimed.0.runs) ==> r.incident != b.incidents[i].id by {
      forall r | r in Added(AfterRecovery(w, b).runs, claimed.0.runs) ensures r.incident != b.incidents[i].id {
        NotClaimed(AfterRecovery(w, b), claimed.0, i, r);
      }
    }
    if !claimed.2 {
      RepairOneRepairs(w, claimed.0, claimed.1);
      GrowsThen(b.runs, claimed.0.runs, TurnOn(w, b).0.runs);
      RepairedOnlyWaiting(claimed.0, TurnOn(w, b).0, i, run);
    }
  }
}
