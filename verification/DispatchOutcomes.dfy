/** Two things every dispatch turn keeps: no claim is left without a run, no writer joins another in a worktree. */
module DispatchOutcomes {
  import opened Common
  import opened Dispatch
  import opened DispatchTurn
  import opened DispatchRows
  import opened DispatchLaunches
  import opened DispatchProgress

  predicate HasRun(runs: seq<RunRecord>, id: IncidentId) {
    exists run :: run in runs && run.incident == id && run.running
  }

  /** An incident that started to run got a run of its own. */
  ghost predicate Covered(b: Board, after: Board) {
    && SameIds(b.incidents, after.incidents) && Grows(b.runs, after.runs)
    && forall i :: 0 <= i < |b.incidents| && after.incidents[i].status == Running ==>
         b.incidents[i].status == Running || HasRun(Added(b.runs, after.runs), b.incidents[i].id)
  }

  lemma CoveredThen(b0: Board, b1: Board, b2: Board)
    requires Covered(b0, b1) && Covered(b1, b2)
    ensures Covered(b0, b2)
  {
    GrowsThen(b0.runs, b1.runs, b2.runs);
    forall i | 0 <= i < |b0.incidents| && b2.incidents[i].status == Running && b0.incidents[i].status != Running
      ensures HasRun(Added(b0.runs, b2.runs), b0.incidents[i].id)
    {
      if b1.incidents[i].status == Running {
        var run :| run in Added(b0.runs, b1.runs) && run.incident == b0.incidents[i].id && run.running;
        assert run in Added(b0.runs, b2.runs);
      } else {
        var run :| run in Added(b1.runs, b2.runs) && run.incident == b0.incidents[i].id && run.running;
        assert run in Added(b0.runs, b2.runs);
      }
    }
  }

  lemma CoveredItself(b: Board, after: Board)
    requires SameIds(b.incidents, after.incidents) && after.runs == b.runs
    requires forall i :: 0 <= i < |b.incidents| && after.incidents[i].status == Running ==>
               b.incidents[i].status == Running
    ensures Covered(b, after)
  {
    GrowsNot(b.runs);
  }

  lemma OneRetryCovers(w: World, b: Board, row: Incident, prior: RunRecord)
    ensures Covered(b, AfterRetry(w, b, row, prior))
  {
    var run := Started(w, row.id, row.kind, prior.stage, prior.cwd, prior.controller);
    if w.spawn(b.spawns).Spawned? {
      GrowsOne(run, b.runs);
      assert run in [run];
    } else {
      CoveredItself(b, AfterRetry(w, b, row, prior));
    }
  }

  lemma {:induction false} RetriesCover(w: World, b: Board, running: seq<RunRecord>, tally: map<Kind, int>,
                                        order: seq<Incident>, launched: seq<IncidentId>)
    ensures Covered(b, RetryAll(w, b, running, tally, order, launched).0)
    decreases |order|, 1
  {
    if order == [] {
      CoveredItself(b, b);
    } else {
      RetryAllIsRest(w, b, running, tally, order, launched);
      if TurnRetry(w, b.runs, running, tally, order[0]) {
        RetryRestCovers(w, b, running, tally, order, launched);
      } else {
        RetriesCover(w, b, running, tally, order[1..], launched);
      }
    }
  }

  lemma {:induction false} RetryRestCovers(w: World, b: Board, running: seq<RunRecord>, tally: map<Kind, int>,
                                           order: seq<Incident>, launched: seq<IncidentId>)
    requires order != [] && Prior(b.runs, order[0].id).Some?
    ensures Covered(b, RetryRest(w, b, running, tally, order, launched))
    decreases |order|, 0
  {
    var row := order[0];
    var after := AfterRetry(w, b, row, Prior(b.runs, row.id).value);
    OneRetryCovers(w, b, row, Prior(b.runs, row.id).value);
    if !w.spawn(b.spawns).BackoffActive? {
      RetriesCover(w, after, running, NextTally(w, b, tally, row), order[1..], NextLaunched(w, b, launched, row));
      CoveredThen(b, after, RetryRest(w, b, running, tally, order, launched));
    }
  }

  /** The evidence of every claimed incident could be judged: it was built, or its build failed. */
  ghost predicate EvidenceUsable(w: World) {
    forall n :: !w.build(n).Unusable?
  }

  lemma OneClaimCovers(w: World, b: Board, kind: Kind, i: nat)
    requires EvidenceUsable(w) && DistinctRows(b.incidents) && i < |b.incidents| && Claimable(b.incidents[i], kind)
    ensures Covered(b, AfterClaim(w, b, kind, i))
  {
    var after := AfterClaim(w, b, kind, i);
    var run := Started(w, b.incidents[i].id, kind, Diagnosis, "", false);
    OneClaim(w, b, kind, i);
    forall j | 0 <= j < |b.incidents| && after.incidents[j].status == Running && b.incidents[j].status != Running
      ensures HasRun(Added(b.runs, after.runs), b.incidents[j].id)
    {
      ClaimLeaves(w, b, kind, i, j);
      GrowsOne(run, b.runs);
      assert run in Added(b.runs, after.runs);
    }
  }

  lemma {:induction false} ClaimsCover(w: World, b: Board, kind: Kind, taken: int, launched: seq<IncidentId>)
    requires EvidenceUsable(w) && DistinctRows(b.incidents)
    ensures Covered(b, ClaimAll(w, b, kind, taken, launched).0)
    decreases QueuedBlind(b.incidents, kind)
  {
    var best := NextClaim(w, b, kind, taken);
    if best.None? {
      CoveredItself(b, b);
    } else {
      AfterClaimDrops(w, b, kind, best.value);
      OneClaimCovers(w, b, kind, best.value);
      var after := AfterClaim(w, b, kind, best.value);
      SameIdsDistinct(b.incidents, after.incidents);
      if DiagnosisStarts(w, b) {
        ClaimsCover(w, after, kind, taken + 1, launched + [b.incidents[best.value].id]);
        CoveredThen(b, after, ClaimAll(w, b, kind, taken, launched).0);
      } else if !DiagnosisStops(w, b) {
        ClaimsCover(w, after, kind, taken, launched);
        CoveredThen(b, after, ClaimAll(w, b, kind, taken, launched).0);
      }
    }
  }

  lemma ClaimBothCovers(w: World, b: Board, tally: map<Kind, int>, launched: seq<IncidentId>)
    requires EvidenceUsable(w) && DistinctRows(b.incidents)
    ensures Covered(b, ClaimBoth(w, b, tally, launched).0)
  {
    var hard := ClaimAll(w, b, Hard, TallyOf(tally, Hard), launched);
    ClaimsCover(w, b, Hard, TallyOf(tally, Hard), launched);
    if !hard.2 {
      SameIdsDistinct(b.incidents, hard.0.incidents);
      ClaimsCover(w, hard.0, Precursor, TallyOf(tally, Precursor), hard.1);
      CoveredThen(b, hard.0, ClaimBoth(w, b, tally, launched).0);
    }
  }

  lemma RepairCovers(w: World, b: Board, launched: seq<IncidentId>)
    ensures Covered(b, RepairOne(w, b, launched).0)
  {
    var after := RepairOne(w, b, launched).0;
    if after.runs == b.runs {
      CoveredItself(b, after);
    } else {
      var row := b.incidents[FirstRepair(b.incidents).value];
      var run := Started(w, row.id, row.kind, Repair, w.worktree.value, false);
      GrowsOne(run, b.runs);
      assert run in [run];
    }
  }

  lemma OpenedCovers(w: World, b: Board)
    ensures Covered(b, Opened(w, b))
  {
    CoveredItself(b, Opened(w, b));
  }

  lemma RecoveryCovers(w: World, b: Board)
    requires DistinctRows(b.incidents)
    ensures Covered(b, AfterRecovery(w, b))
  {
    var retried, running := AfterRetries(w, b).0, RunningOnly(b.runs);
    OpenedCovers(w, b);
    RetriesCover(w, Opened(w, b), running, Tally(running), RetryOrder(Opened(w, b).incidents), []);
    CoveredThen(b, Opened(w, b), retried);
    RetriesRetry(w, b);
    RecoveryKeepsIds(w, retried.incidents, RunningOnly(retried.runs));
    forall i | 0 <= i < |retried.incidents| && AfterRecovery(w, b).incidents[i].status == Running
      ensures retried.incidents[i].status == Running
    {
      RecoveredRow(w, retried.incidents, RunningOnly(retried.runs), i);
    }
    CoveredItself(retried, AfterRecovery(w, b));
    CoveredThen(b, retried, AfterRecovery(w, b));
  }

  /**
   Whatever spawns and builds answer, as long as no evidence was unusable, an incident that is
   running after a turn was running before it or has a run the turn added: failed launches
   strand no claim.
   */
  lemma TurnStrandsNoClaim(w: World, b: Board)
    requires EvidenceUsable(w) && DistinctRows(b.incidents)
    ensures Covered(b, TurnOn(w, b).0)
  {
    if !GateOpen(w) {
      CoveredItself(b, b);
    } else {
      var (retried, launched) := AfterRetries(w, b);
      var claimed := AfterClaims(w, b);
      TurnPasses(w, b);
      RecoveryLaunched(w, b);
      RecoveryCovers(w, b);
      ClaimBothCovers(w, AfterRecovery(w, b), Tally(RunningOnly(retried.runs)), launched);
      CoveredThen(b, AfterRecovery(w, b), claimed.0);
      if !claimed.2 {
        RepairCovers(w, claimed.0, claimed.1);
        CoveredThen(b, claimed.0, RepairOne(w, claimed.0, claimed.1).0);
      }
    }
  }

  /** A claim whose evidence turns out unusable is the exception: it stays running and has no run. */
  lemma UnusableEvidenceStrandsClaim(w: World, b: Board, kind: Kind, i: nat)
    requires DistinctRows(b.incidents) && i < |b.incidents| && Claimable(b.incidents[i], kind)
    requires w.build(b.builds).Unusable?
    ensures !Covered(b, AfterClaim(w, b, kind, i))
  {
    ClaimLeaves(w, b, kind, i, i);
    GrowsNot(b.runs);
  }

  // ----- writers -----

  /** The run does not write where one of the others writes. */
  predicate KeepsClear(others: seq<RunRecord>, run: RunRecord) {
    Writes(run.stage) ==> forall other :: other in others && Writes(other.stage) ==> other.cwd != run.cwd
  }

  /** What was added between the two keeps clear of the others. */
  predicate Apart(others: seq<RunRecord>, r0: seq<RunRecord>, r1: seq<RunRecord>) {
    Grows(r0, r1) && forall run :: run in Added(r0, r1) ==> KeepsClear(others, run)
  }

  lemma ApartItself(others: seq<RunRecord>, runs: seq<RunRecord>)
    ensures Apart(others, runs, runs)
  {
    GrowsNot(runs);
  }

  lemma ApartOne(others: seq<RunRecord>, run: RunRecord, runs: seq<RunRecord>)
    requires KeepsClear(others, run)
    ensures Apart(others, runs, [run] + runs)
  {
    GrowsOne(run, runs);
  }

  lemma ApartThen(others: seq<RunRecord>, r0: seq<RunRecord>, r1: seq<RunRecord>, r2: seq<RunRecord>)
    requires Apart(others, r0, r1) && Apart(others, r1, r2)
    ensures Apart(others, r0, r2)
  {
    GrowsThen(r0, r1, r2);
  }

  lemma OneRetryApart(w: World, b: Board, running: seq<RunRecord>, row: Incident, prior: RunRecord)
    requires !WriterRunning(running, prior.stage, prior.cwd)
    ensures Apart(running, b.runs, AfterRetry(w, b, row, prior).runs)
  {
    var run := Started(w, row.id, row.kind, prior.stage, prior.cwd, prior.controller);
    if w.spawn(b.spawns).Spawned? {
      ApartOne(running, run, b.runs);
    } else {
      ApartItself(running, b.runs);
    }
  }

  lemma {:induction false} RetriesKeepApart(w: World, b: Board, running: seq<RunRecord>, tally: map<Kind, int>,
                                            order: seq<Incident>, launched: seq<IncidentId>)
    ensures Apart(running, b.runs, RetryAll(w, b, running, tally, order, launched).0.runs)
    decreases |order|, 1
  {
    if order == [] {
      ApartItself(running, b.runs);
    } else {
      RetryAllIsRest(w, b, running, tally, order, launched);
      if TurnRetry(w, b.runs, running, tally, order[0]) {
        OneRetryApart(w, b, running, order[0], Prior(b.runs, order[0].id).value);
        RetryRestApart(w, b, running, tally, order, launched);
      } else {
        RetriesKeepApart(w, b, running, tally, order[1..], launched);
      }
    }
  }

  lemma {:induction false} RetryRestApart(w: World, b: Board, running: seq<RunRecord>, tally: map<Kind, int>,
                                          order: seq<Incident>, launched: seq<IncidentId>)
    requires order != [] && Prior(b.runs, order[0].id).Some?
    requires Apart(running, b.runs, AfterRetry(w, b, order[0], Prior(b.runs, order[0].id).value).runs)
    ensures Apart(running, b.runs, RetryRest(w, b, running, tally, order, launched).runs)
    decreases |order|, 0
  {
    var row := order[0];
    var after := AfterRetry(w, b, row, Prior(b.runs, row.id).value);
    if !w.spawn(b.spawns).BackoffActive? {
      RetriesKeepApart(w, after, running, NextTally(w, b, tally, row), order[1..], NextLaunched(w, b, launched, row));
      ApartThen(running, b.runs, after.runs, RetryRest(w, b, running, tally, order, launched).runs);
    }
  }

  /** Claims start diagnoses, which do not write. */
  lemma ClaimsApart(others: seq<RunRecord>, b: Board, after: Board)
    requires ClaimedFrom(b, after)
    ensures Apart(others, b.runs, after.runs)
  {
  }

  /** The repair path adds nothing while anything of the repair pipeline runs. */
  lemma RepairApart(w: World, b: Board, launched: seq<IncidentId>, others: seq<RunRecord>)
    requires forall other :: other in others ==> other in b.runs && other.running
    ensures Apart(others, b.runs, RepairOne(w, b, launched).0.runs)
  {
    ApartItself(others, b.runs);
    RepairBusyMeans(b.runs);
    var first := FirstRepair(b.incidents);
    if !RepairBusy(RunningOnly(b.runs)) && first.Some? && w.worktree.Some? {
      var row := b.incidents[first.value];
      ApartOne(others, Started(w, row.id, row.kind, Repair, w.worktree.value, false), b.runs);
    }
  }

  lemma ClaimPhaseApart(w: World, b: Board)
    requires DistinctRows(b.incidents)
    ensures Apart(RunningOnly(b.runs), b.runs, AfterClaims(w, b).0.runs)
  {
    var running, open := RunningOnly(b.runs), Opened(w, b);
    RetriesKeepApart(w, open, running, Tally(running), RetryOrder(open.incidents), []);
    ClaimsLaunched(w, b);
    ClaimsApart(running, AfterRecovery(w, b), AfterClaims(w, b).0);
    ApartThen(running, b.runs, AfterRecovery(w, b).runs, AfterClaims(w, b).0.runs);
  }

  lemma StillRunning(before: seq<RunRecord>, after: seq<RunRecord>, run: RunRecord)
    requires Grows(before, after) && run in RunningOnly(before)
    ensures run in after && run.running
  {
    RunningOnlyHas(before, run);
    assert after == Added(before, after) + before;
  }

  /** No run a turn adds writes to a worktree in which a writer was already running. */
  lemma TurnKeepsWritersApart(w: World, b: Board)
    requires DistinctRows(b.incidents)
    ensures Apart(RunningOnly(b.runs), b.runs, TurnOn(w, b).0.runs)
  {
    var running, claimed := RunningOnly(b.runs), AfterClaims(w, b);
    if !GateOpen(w) {
      ApartItself(running, b.runs);
    } else {
      TurnPasses(w, b);
      ClaimPhaseApart(w, b);
      if !claimed.2 {
        forall other | other in running ensures other in claimed.0.runs && other.running {
          StillRunning(b.runs, claimed.0.runs, other);
        }
        RepairApart(w, claimed.0, claimed.1, running);
        ApartThen(running, b.runs, claimed.0.runs, RepairOne(w, claimed.0, claimed.1).0.runs);
      }
    }
  }
}
