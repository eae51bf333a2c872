/** A dispatch turn does something exactly when one of its paths has work. */
module DispatchProgress {
  import opened Common
  import opened Dispatch
  import opened DispatchTurn
  import opened DispatchRows
  import opened DispatchLaunches
  import opened DispatchSafety

  /** The newest run record of an incident stands at `k`. */
  predicate NewestAt(runs: seq<RunRecord>, id: IncidentId, k: int) {
    0 <= k < |runs| && runs[k].incident == id && forall j :: 0 <= j < k ==> runs[j].incident != id
  }

  /** Stages that write to a worktree. */
  predicate Writes(stage: Stage) {
    stage == Repair || stage == RepairFeedback || stage == Delivery || stage == Production
  }

  predicate Elapsed(w: World, since: Option<Time>) {
    since.None? || since.value + w.retryDelay <= w.now
  }

  /**
   The incident's last run can be repeated: it has a command, and a prompt unless it is the
   controller's own; nothing of the incident runs, nothing writes where it would write, a
   slot is free, and the delay has passed since it ended and since the incident changed.
   */
  ghost predicate Repeatable(w: World, b: Board, row: Incident, k: int) {
    && NewestAt(b.runs, row.id, k) && b.runs[k].hasCommand && (b.runs[k].controller || b.runs[k].hasPrompt)
    && (forall run :: run in b.runs && run.running ==> run.incident != row.id)
    && (forall run :: run in b.runs && run.running && Writes(b.runs[k].stage) && Writes(run.stage) ==>
          run.cwd != b.runs[k].cwd)
    && (if row.kind in {Hard, Precursor} then CountRunning(b.runs, row.kind) else 0) < w.slots(row.kind)
    && Elapsed(w, b.runs[k].completedAt) && Elapsed(w, row.updatedAt)
  }

  lemma {:induction false} PriorIsNewest(runs: seq<RunRecord>, id: IncidentId)
    ensures Prior(runs, id).Some? ==> exists k :: NewestAt(runs, id, k) && runs[k] == Prior(runs, id).value
    ensures forall k :: NewestAt(runs, id, k) ==> Prior(runs, id) == Some(runs[k])
  {
    if runs != [] {
      PriorIsNewest(runs[1..], id);
      if runs[0].incident == id {
        assert NewestAt(runs, id, 0);
      } else {
        if Prior(runs, id).Some? {
          var k :| NewestAt(runs[1..], id, k) && runs[1..][k] == Prior(runs, id).value;
          assert NewestAt(runs, id, k + 1);
        }
        forall k | NewestAt(runs, id, k) ensures Prior(runs, id) == Some(runs[k]) {
          assert NewestAt(runs[1..], id, k - 1);
        }
      }
    }
  }

  lemma NobodyActive(runs: seq<RunRecord>, id: IncidentId)
    ensures ActiveIncident(RunningOnly(runs), id) <==> exists run :: run in runs && run.running && run.incident == id
  {
    forall run ensures run in RunningOnly(runs) <==> run in runs && run.running {
      RunningOnlyHas(runs, run);
    }
    if run :| run in runs && run.running && run.incident == id {
      assert run in RunningOnly(runs);
    }
  }

  lemma WriterRunningMeans(runs: seq<RunRecord>, stage: Stage, cwd: Cwd)
    ensures WriterRunning(RunningOnly(runs), stage, cwd)
            <==> Writes(stage) && exists run :: run in runs && run.running && Writes(run.stage) && run.cwd == cwd
  {
    forall run ensures run in RunningOnly(runs) <==> run in runs && run.running {
      RunningOnlyHas(runs, run);
    }
    if run :| run in runs && run.running && Writes(run.stage) && run.cwd == cwd {
      assert run in RunningOnly(runs);
    }
  }

  lemma RestedMeans(w: World, a: Option<Time>, b: Option<Time>)
    ensures Rested(w, Later(a, b)) <==> Elapsed(w, a) && Elapsed(w, b)
  {
  }

  /** The turn repeats a run exactly when it is repeatable in the sense above. */
  lemma TurnRetryIff(w: World, b: Board, row: Incident)
    ensures TurnRetry(w, b.runs, RunningOnly(b.runs), Tally(RunningOnly(b.runs)), row)
            <==> exists k :: Repeatable(w, b, row, k)
  {
    var running := RunningOnly(b.runs);
    PriorIsNewest(b.runs, row.id);
    NobodyActive(b.runs, row.id);
    if Prior(b.runs, row.id).Some? {
      var k :| NewestAt(b.runs, row.id, k) && b.runs[k] == Prior(b.runs, row.id).value;
      WriterRunningMeans(b.runs, b.runs[k].stage, b.runs[k].cwd);
      RestedMeans(w, b.runs[k].completedAt, row.updatedAt);
      if TurnRetry(w, b.runs, running, Tally(running), row) {
        assert Repeatable(w, b, row, k);
      }
      if j :| Repeatable(w, b, row, j) {
        assert Prior(b.runs, row.id) == Some(b.runs[j]);
      }
    }
  }

  /** Some retry-pending incident's last run can be repeated. */
  ghost predicate RetryWork(w: World, b: Board) {
    exists i, k :: 0 <= i < |b.incidents| && b.incidents[i].status == RetryPending
                   && Repeatable(w, b, b.incidents[i], k)
  }

  ghost predicate RecoveryWork(w: World, b: Board) {
    exists i :: 0 <= i < |b.incidents| && Stalled(w, RunningOnly(b.runs), b.incidents[i])
  }

  ghost predicate UnblockWork(w: World, b: Board) {
    w.loadedSha && exists i :: 0 <= i < |b.incidents| && InStage(b.incidents[i], Blocked, Evidence)
  }

  ghost predicate ClaimWork(w: World, b: Board) {
    w.tradesReadable && exists i :: 0 <= i < |b.incidents| && InStage(b.incidents[i], Queued, Blind)
                                    && b.incidents[i].kind in {Hard, Precursor}
                                    && CountRunning(b.runs, b.incidents[i].kind) < w.slots(b.incidents[i].kind)
  }

  /** The repair that comes first has a free slot and a worktree, and nothing of the repair pipeline runs. */
  ghost predicate RepairWork(w: World, b: Board) {
    && w.worktree.Some?
    && (forall run :: run in b.runs && run.running ==> !Writes(run.stage) && run.stage != Review)
    && exists i :: 0 <= i < |b.incidents| && FirstRepair(b.incidents) == Some(i)
                   && CountRunning(b.runs, b.incidents[i].kind) < w.slots(b.incidents[i].kind)
  }

  lemma RepairBusyMeans(runs: seq<RunRecord>)
    ensures RepairBusy(RunningOnly(runs))
            <==> exists run :: run in runs && run.running && (Writes(run.stage) || run.stage == Review)
  {
    forall run ensures run in RunningOnly(runs) <==> run in runs && run.running {
      RunningOnlyHas(runs, run);
    }
    if run :| run in runs && run.running && (Writes(run.stage) || run.stage == Review) {
      assert run in RunningOnly(runs);
    }
  }

  predicate GateOpen(w: World) {
    !w.startupDebt && !w.backoff && w.capable
  }

  ghost predicate HasWork(w: World, b: Board) {
    UnblockWork(w, b) || RetryWork(w, b) || RecoveryWork(w, b) || ClaimWork(w, b) || RepairWork(w, b)
  }

  // ----- every attempt is counted -----

  lemma {:induction false} RetriesCount(w: World, b: Board, running: seq<RunRecord>, tally: map<Kind, int>,
                                        order: seq<Incident>, launched: seq<IncidentId>)
    ensures RetryAll(w, b, running, tally, order, launched).0.spawns >= b.spawns
    ensures (exists row :: row in order && TurnRetry(w, b.runs, running, tally, row)) ==>
              RetryAll(w, b, running, tally, order, launched).0.spawns > b.spawns
    ensures RetryAll(w, b, running, tally, order, launched).0.builds == b.builds
    decreases |order|
  {
    if order != [] {
      var row := order[0];
      if TurnRetry(w, b.runs, running, tally, row) {
        var after := AfterRetry(w, b, row, Prior(b.runs, row.id).value);
        RetriesCount(w, after, running, tally, order[1..], launched);
        RetriesCount(w, after, running, tally[row.kind := TallyOf(tally, row.kind) + 1], order[1..],
                     launched + [row.id]);
      } else {
        RetriesCount(w, b, running, tally, order[1..], launched);
        assert order == [row] + order[1..];
      }
    }
  }

  lemma {:induction false} ClaimsCount(w: World, b: Board, kind: Kind, taken: int, launched: seq<IncidentId>)
    ensures var after := ClaimAll(w, b, kind, taken, launched).0;
            after.builds >= b.builds && after.spawns >= b.spawns
    ensures NextClaim(w, b, kind, taken).Some? ==> ClaimAll(w, b, kind, taken, launched).0.builds > b.builds
    decreases QueuedBlind(b.incidents, kind)
  {
    var best := NextClaim(w, b, kind, taken);
    if best.Some? {
      AfterClaimDrops(w, b, kind, best.value);
      var after := AfterClaim(w, b, kind, best.value);
      if DiagnosisStarts(w, b) {
        ClaimsCount(w, after, kind, taken + 1, launched + [b.incidents[best.value].id]);
      } else if !DiagnosisStops(w, b) {
        ClaimsCount(w, after, kind, taken, launched);
      }
    }
  }

  lemma ClaimBothCounts(w: World, b: Board, tally: map<Kind, int>, launched: seq<IncidentId>)
    ensures var after := ClaimBoth(w, b, tally, launched).0;
            after.builds >= b.builds && after.spawns >= b.spawns
    ensures NextClaim(w, b, Hard, TallyOf(tally, Hard)).Some?
            || NextClaim(w, b, Precursor, TallyOf(tally, Precursor)).Some? ==>
              ClaimBoth(w, b, tally, launched).0.builds > b.builds
    ensures ClaimBoth(w, b, tally, launched).0.builds == b.builds ==>
              ClaimBoth(w, b, tally, launched) == (b, launched, false)
  {
    var hard := ClaimAll(w, b, Hard, TallyOf(tally, Hard), launched);
    ClaimsCount(w, b, Hard, TallyOf(tally, Hard), launched);
    ClaimsCount(w, hard.0, Precursor, TallyOf(tally, Precursor), hard.1);
  }

  /** The repair path starts the first waiting repair exactly when there is work for it, in the managed worktree. */
  lemma RepairStartsIff(w: World, b: Board, launched: seq<IncidentId>)
    ensures var (after, more) := RepairOne(w, b, launched);
            && after.spawns == b.spawns + (if RepairWork(w, b) then 1 else 0)
            && (!RepairWork(w, b) || !w.spawn(b.spawns).Spawned? ==> after.runs == b.runs && more == launched)
            && (RepairWork(w, b) && w.spawn(b.spawns).Spawned? ==>
                  var row := b.incidents[FirstRepair(b.incidents).value];
                  && more == launched + [row.id] && |after.runs| == |b.runs| + 1
                  && after.runs[0].incident == row.id && after.runs[0].stage == Repair
                  && after.runs[0].cwd == w.worktree.value && after.runs[0].running)
  {
    var first := FirstRepair(b.incidents);
    RepairBusyMeans(b.runs);
    if first.Some? {
      assert 0 <= first.value < |b.incidents|;
    }
  }

  // ----- no work, no change -----

  lemma OpenedQuiet(w: World, b: Board)
    requires !UnblockWork(w, b)
    ensures Opened(w, b) == b
  {
    if w.loadedSha {
      UnblockQuiet(b.incidents, w.now);
    }
  }

  lemma RetriesQuiet(w: World, b: Board)
    requires Opened(w, b) == b && !RetryWork(w, b)
    ensures AfterRetries(w, b) == (b, [])
  {
    var running := RunningOnly(b.runs);
    RetryOrderHas(b.incidents);
    forall row | row in RetryOrder(b.incidents) ensures !TurnRetry(w, b.runs, running, Tally(running), row) {
      var i :| 0 <= i < |b.incidents| && b.incidents[i] == row;
      TurnRetryIff(w, b, row);
    }
    RetryQuiet(w, b, running, Tally(running), RetryOrder(b.incidents), []);
  }

  lemma RecoveryQuiet(w: World, b: Board)
    requires AfterRetries(w, b) == (b, []) && !RecoveryWork(w, b)
    ensures AfterRecovery(w, b) == b
  {
    forall row | row in b.incidents ensures !Recoverable(w, RunningOnly(b.runs), row) {
      StalledIff(w, RunningOnly(b.runs), row);
    }
    RecoverQuiet(w, b.incidents, RunningOnly(b.runs), b.incidents);
  }

  lemma NoClaimWork(w: World, b: Board, kind: Kind)
    requires kind in {Hard, Precursor} && !ClaimWork(w, b)
    ensures NextClaim(w, b, kind, CountRunning(b.runs, kind)).None?
  {
    var best := BestClaim(w, b.incidents, kind);
    if best.Some? {
      assert InStage(b.incidents[best.value], Queued, Blind);
    }
  }

  lemma ClaimWorkClaims(w: World, b: Board)
    requires ClaimWork(w, b)
    ensures NextClaim(w, b, Hard, CountRunning(b.runs, Hard)).Some?
            || NextClaim(w, b, Precursor, CountRunning(b.runs, Precursor)).Some?
  {
    var i :| 0 <= i < |b.incidents| && InStage(b.incidents[i], Queued, Blind)
             && b.incidents[i].kind in {Hard, Precursor}
             && CountRunning(b.runs, b.incidents[i].kind) < w.slots(b.incidents[i].kind);
    assert Claimable(b.incidents[i], b.incidents[i].kind);
  }

  lemma ClaimsQuiet(w: World, b: Board)
    requires AfterRetries(w, b) == (b, []) && AfterRecovery(w, b) == b && !ClaimWork(w, b)
    ensures AfterClaims(w, b) == (b, [], false)
  {
    NoClaimWork(w, b, Hard);
    NoClaimWork(w, b, Precursor);
  }

  lemma NoWorkNoChange(w: World, b: Board)
    requires !HasWork(w, b)
    ensures TurnOn(w, b) == (b, [])
  {
    if GateOpen(w) {
      TurnPasses(w, b);
      OpenedQuiet(w, b);
      RetriesQuiet(w, b);
      RecoveryQuiet(w, b);
      ClaimsQuiet(w, b);
      RepairStartsIff(w, b, []);
    }
  }

  // ----- work, change -----

  /** A turn that made no attempt only reopened and recovered rows. */
  lemma NoAttempt(w: World, b: Board)
    requires GateOpen(w) && TurnOn(w, b).0.spawns == b.spawns && TurnOn(w, b).0.builds == b.builds
    ensures AfterRetries(w, b).0.spawns == b.spawns
    ensures AfterClaims(w, b) == (AfterRecovery(w, b), AfterRetries(w, b).1, false)
    ensures !RepairWork(w, AfterRecovery(w, b))
  {
    var running, open := RunningOnly(b.runs), Opened(w, b);
    var (retried, launched) := AfterRetries(w, b);
    TurnPasses(w, b);
    RetriesCount(w, open, running, Tally(running), RetryOrder(open.incidents), []);
    ClaimBothCounts(w, AfterRecovery(w, b), Tally(RunningOnly(retried.runs)), launched);
    var claimed := AfterClaims(w, b);
    RepairStartsIff(w, claimed.0, claimed.1);
  }

  lemma NoRetryAttempt(w: World, b: Board)
    requires AfterRetries(w, b).0.spawns == b.spawns
    ensures !RetryWork(w, b) && AfterRetries(w, b) == (Opened(w, b), [])
  {
    var running, open := RunningOnly(b.runs), Opened(w, b);
    RetriesCount(w, open, running, Tally(running), RetryOrder(open.incidents), []);
    RetryQuiet(w, open, running, Tally(running), RetryOrder(open.incidents), []);
    RetryOrderHas(open.incidents);
    forall i, k | 0 <= i < |b.incidents| && b.incidents[i].status == RetryPending
      ensures !Repeatable(w, b, b.incidents[i], k)
    {
      assert open.incidents[i] == b.incidents[i] && open.incidents[i] in open.incidents;
      TurnRetryIff(w, b, b.incidents[i]);
    }
  }

  lemma NoRowChanged(w: World, b: Board)
    requires DistinctRows(b.incidents) && AfterRetries(w, b) == (Opened(w, b), []) && AfterRecovery(w, b) == b
    ensures !UnblockWork(w, b) && !RecoveryWork(w, b)
  {
    var open := Opened(w, b);
    assert SameIds(b.incidents, open.incidents);
    SameIdsDistinct(b.incidents, open.incidents);
    forall i | 0 <= i < |b.incidents|
      ensures !(w.loadedSha && InStage(b.incidents[i], Blocked, Evidence))
      ensures !Stalled(w, RunningOnly(b.runs), b.incidents[i])
    {
      RecoveredRow(w, open.incidents, RunningOnly(open.runs), i);
    }
  }

  lemma NoChangeNoWork(w: World, b: Board)
    requires DistinctRows(b.incidents) && GateOpen(w) && TurnOn(w, b) == (b, [])
    ensures !HasWork(w, b)
  {
    TurnPasses(w, b);
    NoAttempt(w, b);
    NoRetryAttempt(w, b);
    RepairStartsIff(w, AfterRecovery(w, b), []);
    assert AfterRecovery(w, b) == b;
    NoRowChanged(w, b);
    if ClaimWork(w, b) {
      ClaimWorkClaims(w, b);
      ClaimBothCounts(w, b, Tally(RunningOnly(b.runs)), []);
    }
  }

  /**
   Whatever spawns and builds answer, a turn changes its tables, tries something or
   launches something exactly when its gate is open and one of its paths has work.
   */
  lemma TurnActsIff(w: World, b: Board)
    requires DistinctRows(b.incidents)
    ensures TurnOn(w, b) != (b, []) <==> GateOpen(w) && HasWork(w, b)
  {
    if GateOpen(w) {
      if TurnOn(w, b) == (b, []) {
        NoChangeNoWork(w, b);
      } else if !HasWork(w, b) {
        NoWorkNoChange(w, b);
      }
    }
  }
}
