/**
 What holds of every dispatch turn: the cheap check hides no work, slots are respected and
 used, launches are reported.
 */
module DispatchSafety {
  import opened Common
  import opened Dispatch
  import opened DispatchTurn

  // ----- the cheap check hides nothing -----

  lemma {:induction false} RetryQuiet(w: World, b: Board, running: seq<RunRecord>, tally: map<Kind, int>,
                                      order: seq<Incident>, launched: seq<IncidentId>)
    requires forall row :: row in order ==> !TurnRetry(w, b.runs, running, tally, row)
    ensures RetryAll(w, b, running, tally, order, launched) == (b, launched)
    decreases |order|
  {
    if order != [] {
      RetryQuiet(w, b, running, tally, order[1..], launched);
    }
  }

  lemma {:induction false} RecoverQuiet(w: World, incidents: seq<Incident>, running: seq<RunRecord>,
                                        rows: seq<Incident>)
    requires forall row :: row in rows ==> !Recoverable(w, running, row)
    ensures RecoverAll(w, incidents, running, rows) == incidents
  {
    if rows != [] {
      RecoverQuiet(w, incidents, running, rows[..|rows| - 1]);
    }
  }

  lemma ClaimQuiet(w: World, b: Board, kind: Kind, taken: int, launched: seq<IncidentId>)
    requires taken >= w.slots(kind) || forall row :: row in b.incidents ==> !Claimable(row, kind)
    ensures ClaimAll(w, b, kind, taken, launched) == (b, launched, false)
  {
    var best := BestClaim(w, b.incidents, kind);
    if best.Some? {
      assert b.incidents[best.value] in b.incidents;
    }
  }

  lemma RepairQuiet(w: World, b: Board, launched: seq<IncidentId>)
    requires var running := RunningOnly(b.runs);
             RepairBusy(running)
             || forall row :: row in b.incidents && InStage(row, Queued, RepairWaiting) ==>
                 !SlotFree(w, Tally(running), row.kind)
    ensures RepairOne(w, b, launched) == (b, launched)
  {
    var first := FirstRepair(b.incidents);
    if first.Some? {
      assert b.incidents[first.value] in b.incidents;
    }
  }

  lemma UnblockQuiet(rows: seq<Incident>, now: Time)
    requires forall row :: row in rows ==> !InStage(row, Blocked, Evidence)
    ensures Unblocked(rows, now) == rows
  {
    forall i | 0 <= i < |rows| ensures Unblocked(rows, now)[i] == rows[i] {
      assert rows[i] in rows;
    }
  }

  /** What a negative answer says about one row. */
  lemma NotEligibleRow(w: World, incidents: seq<Incident>, runs: seq<RunRecord>, row: Incident)
    requires !w.startupDebt && !w.backoff && !Eligible(w, incidents, runs) && row in incidents
    ensures var running, tally := RunningOnly(runs), Tally(RunningOnly(runs));
            && !(row.status == RetryPending && TurnRetry(w, runs, running, tally, row))
            && !Recoverable(w, running, row)
            && !(InStage(row, Queued, Blind) && SlotFree(w, tally, row.kind))
            && (RepairBusy(running) || !(InStage(row, Queued, RepairWaiting) && SlotFree(w, tally, row.kind)))
            && !(w.loadedSha && InStage(row, Blocked, Evidence))
  {
    var running, tally := RunningOnly(runs), Tally(RunningOnly(runs));
    var i :| 0 <= i < |incidents| && incidents[i] == row;
    if TurnRetry(w, runs, running, tally, row) {
      TurnRetryPassesGate(w, runs, running, tally, row);
    }
  }

  /** When the cheap check says no, the turn launches nothing, tries nothing and moves no incident. */
  lemma GateIsSound(w: World, b: Board)
    requires !Eligible(w, b.incidents, b.runs)
    ensures TurnOn(w, b) == (b, [])
  {
    if !w.startupDebt && !w.backoff && w.capable {
      var running, tally := RunningOnly(b.runs), Tally(RunningOnly(b.runs));
      forall row | row in b.incidents
        ensures !(row.status == RetryPending && TurnRetry(w, b.runs, running, tally, row))
        ensures !Recoverable(w, running, row)
        ensures !(InStage(row, Queued, Blind) && SlotFree(w, tally, row.kind))
        ensures RepairBusy(running) || !(InStage(row, Queued, RepairWaiting) && SlotFree(w, tally, row.kind))
        ensures !(w.loadedSha && InStage(row, Blocked, Evidence))
      {
        NotEligibleRow(w, b.incidents, b.runs, row);
      }
      if w.loadedSha {
        UnblockQuiet(b.incidents, w.now);
      }
      RetryOrderHas(b.incidents);
      RetryQuiet(w, b, running, tally, RetryOrder(b.incidents), []);
      RecoverQuiet(w, b.incidents, running, b.incidents);
      ClaimQuiet(w, b, Hard, tally[Hard], []);
      ClaimQuiet(w, b, Precursor, tally[Precursor], []);
      RepairQuiet(w, b, []);
    }
  }

  // ----- slots -----

  lemma TriedCount(w: World, b: Board, run: RunRecord, kind: Kind)
    requires run.running
    ensures CountRunning(Tried(w, b, run).runs, kind)
            == CountRunning(b.runs, kind) + (if w.spawn(b.spawns).Spawned? && run.kind == kind then 1 else 0)
  {
    CountPrepend(run, b.runs, kind);
  }

  /** The tally matches the running records of the tallied kinds. */
  predicate Tallied(tally: map<Kind, int>, runs: seq<RunRecord>) {
    forall kind :: kind in {Hard, Precursor} ==> kind in tally && tally[kind] == CountRunning(runs, kind)
  }

  lemma {:induction false} RetryWithinSlots(w: World, b: Board, running: seq<RunRecord>, tally: map<Kind, int>,
                                            order: seq<Incident>, launched: seq<IncidentId>)
    requires Tallied(tally, b.runs)
    ensures WithinSlots(w, b.runs, RetryAll(w, b, running, tally, order, launched).0.runs)
    decreases |order|
  {
    if order != [] {
      var row := order[0];
      if !TurnRetry(w, b.runs, running, tally, row) {
        RetryWithinSlots(w, b, running, tally, order[1..], launched);
      } else {
        var prior := Prior(b.runs, row.id).value;
        var run := Started(w, row.id, row.kind, prior.stage, prior.cwd, prior.controller);
        var after := AfterRetry(w, b, row, prior);
        TriedCount(w, b, run, Hard);
        TriedCount(w, b, run, Precursor);
        match w.spawn(b.spawns) {
          case BackoffActive =>
          case Spawned =>
            RetryWithinSlots(w, after, running, tally[row.kind := TallyOf(tally, row.kind) + 1], order[1..],
                launched + [row.id]);
          case _ => RetryWithinSlots(w, after, running, tally, order[1..], launched);
        }
      }
    }
  }

  lemma DiagnosedCount(w: World, b: Board, kind: Kind, id: IncidentId, k: Kind)
    ensures CountRunning(Diagnosed(w, b, kind, id).runs, k)
            == CountRunning(b.runs, k) + (if DiagnosisStarts(w, b) && k == kind then 1 else 0)
  {
    TriedCount(w, b.(builds := b.builds + 1), Started(w, id, kind, Diagnosis, "", false), k);
  }

  lemma AfterClaimCount(w: World, b: Board, kind: Kind, i: nat, k: Kind)
    requires i < |b.incidents|
    ensures CountRunning(AfterClaim(w, b, kind, i).runs, k)
            == CountRunning(b.runs, k) + (if DiagnosisStarts(w, b) && k == kind then 1 else 0)
  {
    var id := b.incidents[i].id;
    DiagnosedCount(w, b.(incidents := Claimed(b.incidents, id, w.now)), kind, id, k);
  }

  /** One kind's claims fill at most its slots. */
  lemma {:induction false} ClaimWithinSlots(w: World, b: Board, kind: Kind, taken: int, launched: seq<IncidentId>)
    requires taken == CountRunning(b.runs, kind)
    ensures AtMost(w, CountRunning(b.runs, kind), CountRunning(ClaimAll(w, b, kind, taken, launched).0.runs, kind),
        kind)
    decreases QueuedBlind(b.incidents, kind)
  {
    var best := NextClaim(w, b, kind, taken);
    if best.Some? {
      AfterClaimDrops(w, b, kind, best.value);
      AfterClaimCount(w, b, kind, best.value, kind);
      var after := AfterClaim(w, b, kind, best.value);
      if DiagnosisStarts(w, b) {
        ClaimWithinSlots(w, after, kind, taken + 1, launched + [b.incidents[best.value].id]);
      } else if !DiagnosisStops(w, b) {
        ClaimWithinSlots(w, after, kind, taken, launched);
      }
    }
  }

  /** And leave other kinds' runs alone. */
  lemma {:induction false} ClaimLeavesOthers(w: World, b: Board, kind: Kind, taken: int, launched: seq<IncidentId>,
                                             k: Kind)
    requires k != kind
    ensures CountRunning(ClaimAll(w, b, kind, taken, launched).0.runs, k) == CountRunning(b.runs, k)
    decreases QueuedBlind(b.incidents, kind)
  {
    var best := NextClaim(w, b, kind, taken);
    if best.Some? {
      AfterClaimDrops(w, b, kind, best.value);
      AfterClaimCount(w, b, kind, best.value, k);
      var after := AfterClaim(w, b, kind, best.value);
      if DiagnosisStarts(w, b) {
        ClaimLeavesOthers(w, after, kind, taken + 1, launched + [b.incidents[best.value].id], k);
      } else if !DiagnosisStops(w, b) {
        ClaimLeavesOthers(w, after, kind, taken, launched, k);
      }
    }
  }

  lemma ClaimBothWithinSlots(w: World, b: Board, launched: seq<IncidentId>)
    ensures WithinSlots(w, b.runs, ClaimBoth(w, b, Tally(RunningOnly(b.runs)), launched).0.runs)
  {
    var hard := ClaimAll(w, b, Hard, CountRunning(b.runs, Hard), launched);
    ClaimWithinSlots(w, b, Hard, CountRunning(b.runs, Hard), launched);
    ClaimLeavesOthers(w, b, Hard, CountRunning(b.runs, Hard), launched, Precursor);
    ClaimWithinSlots(w, hard.0, Precursor, CountRunning(hard.0.runs, Precursor), hard.1);
    ClaimLeavesOthers(w, hard.0, Precursor, CountRunning(hard.0.runs, Precursor), hard.1, Hard);
  }

  lemma RepairWithinSlots(w: World, b: Board, launched: seq<IncidentId>)
    ensures WithinSlots(w, b.runs, RepairOne(w, b, launched).0.runs)
  {
    var first := FirstRepair(b.incidents);
    if first.Some? && w.worktree.Some? {
      var row := b.incidents[first.value];
      TriedCount(w, b, Started(w, row.id, row.kind, Repair, w.worktree.value, false), Hard);
      TriedCount(w, b, Started(w, row.id, row.kind, Repair, w.worktree.value, false), Precursor);
    }
  }

  /** Whatever the spawns and builds answer, no tallied kind ends above its slots unless it began there. */
  lemma TurnWithinSlots(w: World, b: Board)
    ensures WithinSlots(w, b.runs, TurnOn(w, b).0.runs)
  {
    if !w.startupDebt && !w.backoff && w.capable {
      var running := RunningOnly(b.runs);
      var unblocked := if w.loadedSha then b.(incidents := Unblocked(b.incidents, w.now)) else b;
      var (retried, launched) := RetryAll(w, unblocked, running, Tally(running), RetryOrder(unblocked.incidents), []);
      RetryWithinSlots(w, unblocked, running, Tally(running), RetryOrder(unblocked.incidents), []);
      var seen := RunningOnly(retried.runs);
      var recovered := retried.(incidents := RecoverAll(w, retried.incidents, seen, retried.incidents));
      ClaimBothWithinSlots(w, recovered, launched);
      var (claimed, more, stopped) := ClaimBoth(w, recovered, Tally(seen), launched);
      RepairWithinSlots(w, claimed, more);
    }
  }

  // ----- launches are the new records -----

  /** The incidents of the run records, oldest first. */
  function OldestFirst(runs: seq<RunRecord>): seq<IncidentId> {
    if runs == [] then [] else OldestFirst(runs[1..]) + [runs[0].incident]
  }

  /** What was launched on top of `before` is exactly what the records gained, in order. */
  predicate Reported(runs: seq<RunRecord>, before: seq<IncidentId>, after: seq<RunRecord>, launched: seq<IncidentId>) {
    before <= launched && OldestFirst(after) == OldestFirst(runs) + launched[|before|..]
  }

  lemma ReportedNothing(runs: seq<RunRecord>, launched: seq<IncidentId>)
    ensures Reported(runs, launched, runs, launched)
  {
  }

  lemma ReportedOne(run: RunRecord, runs: seq<RunRecord>, before: seq<IncidentId>)
    ensures Reported(runs, before, [run] + runs, before + [run.incident])
  {
    assert ([run] + runs)[1..] == runs;
  }

  lemma ReportedThen(r0: seq<RunRecord>, l0: seq<IncidentId>, r1: seq<RunRecord>, l1: seq<IncidentId>,
                     r2: seq<RunRecord>, l2: seq<IncidentId>)
    requires Reported(r0, l0, r1, l1) && Reported(r1, l1, r2, l2)
    ensures Reported(r0, l0, r2, l2)
  {
    assert l2[|l0|..] == l1[|l0|..] + l2[|l1|..];
  }

  lemma {:induction false} RetryReports(w: World, b: Board, running: seq<RunRecord>, tally: map<Kind, int>,
                                        order: seq<Incident>, launched: seq<IncidentId>)
    ensures var (after, more) := RetryAll(w, b, running, tally, order, launched); Reported(b.runs, launched,
        after.runs, more)
    decreases |order|
  {
    ReportedNothing(b.runs, launched);
    if order != [] {
      var row := order[0];
      if !TurnRetry(w, b.runs, running, tally, row) {
        RetryReports(w, b, running, tally, order[1..], launched);
      } else {
        var prior := Prior(b.runs, row.id).value;
        var after := AfterRetry(w, b, row, prior);
        match w.spawn(b.spawns) {
          case BackoffActive =>
          case Spawned =>
            var more := tally[row.kind := TallyOf(tally, row.kind) + 1];
            RetryReports(w, after, running, more, order[1..], launched + [row.id]);
            ReportedOne(Started(w, row.id, row.kind, prior.stage, prior.cwd, prior.controller), b.runs, launched);
            var (last, all) := RetryAll(w, after, running, more, order[1..], launched + [row.id]);
            ReportedThen(b.runs, launched, after.runs, launched + [row.id], last.runs, all);
          case _ => RetryReports(w, after, running, tally, order[1..], launched);
        }
      }
    }
  }

  lemma {:induction false} ClaimReports(w: World, b: Board, kind: Kind, taken: int, launched: seq<IncidentId>)
    ensures var (after, more, _) := ClaimAll(w, b, kind, taken, launched); Reported(b.runs, launched, after.runs, more)
    decreases QueuedBlind(b.incidents, kind)
  {
    ReportedNothing(b.runs, launched);
    var best := NextClaim(w, b, kind, taken);
    if best.Some? {
      var id := b.incidents[best.value].id;
      AfterClaimDrops(w, b, kind, best.value);
      var after := AfterClaim(w, b, kind, best.value);
      if DiagnosisStarts(w, b) {
        ClaimReports(w, after, kind, taken + 1, launched + [id]);
        ReportedOne(Started(w, id, kind, Diagnosis, "", false), b.runs, launched);
        var (last, all, _) := ClaimAll(w, after, kind, taken + 1, launched + [id]);
        ReportedThen(b.runs, launched, after.runs, launched + [id], last.runs, all);
      } else if !DiagnosisStops(w, b) {
        ClaimReports(w, after, kind, taken, launched);
      }
    }
  }

  lemma ClaimBothReports(w: World, b: Board, tally: map<Kind, int>, launched: seq<IncidentId>)
    ensures var (after, more, _) := ClaimBoth(w, b, tally, launched); Reported(b.runs, launched, after.runs, more)
  {
    var hard := ClaimAll(w, b, Hard, TallyOf(tally, Hard), launched);
    ClaimReports(w, b, Hard, TallyOf(tally, Hard), launched);
    if !hard.2 {
      ClaimReports(w, hard.0, Precursor, TallyOf(tally, Precursor), hard.1);
      var both := ClaimAll(w, hard.0, Precursor, TallyOf(tally, Precursor), hard.1);
      ReportedThen(b.runs, launched, hard.0.runs, hard.1, both.0.runs, both.1);
    }
  }

  lemma RepairReports(w: World, b: Board, launched: seq<IncidentId>)
    ensures var (after, more) := RepairOne(w, b, launched); Reported(b.runs, launched, after.runs, more)
  {
    ReportedNothing(b.runs, launched);
    var first := FirstRepair(b.incidents);
    if first.Some? && w.worktree.Some? {
      var row := b.incidents[first.value];
      ReportedOne(Started(w, row.id, row.kind, Repair, w.worktree.value, false), b.runs, launched);
    }
  }

  /** The turn's answer lists exactly the incidents of the records it added, in the order it added them. */
  lemma TurnReportsItsRuns(w: World, b: Board)
    ensures var (after, launched) := TurnOn(w, b); OldestFirst(after.runs) == OldestFirst(b.runs) + launched
  {
    if !w.startupDebt && !w.backoff && w.capable {
      var running := RunningOnly(b.runs);
      var unblocked := if w.loadedSha then b.(incidents := Unblocked(b.incidents, w.now)) else b;
      var order := RetryOrder(unblocked.incidents);
      var (retried, launched) := RetryAll(w, unblocked, running, Tally(running), order, []);
      RetryReports(w, unblocked, running, Tally(running), order, []);
      var seen := RunningOnly(retried.runs);
      var recovered := retried.(incidents := RecoverAll(w, retried.incidents, seen, retried.incidents));
      ClaimBothReports(w, recovered, Tally(seen), launched);
      var (claimed, more, stopped) := ClaimBoth(w, recovered, Tally(seen), launched);
      ReportedThen(b.runs, [], retried.runs, launched, claimed.runs, more);
      if !stopped {
        RepairReports(w, claimed, more);
        var (last, all) := RepairOne(w, claimed, more);
        ReportedThen(b.runs, [], claimed.runs, more, last.runs, all);
      }
    }
  }

  // ----- free slots are used -----

  /** No slot of the kind is free, or nothing of the kind waits for one. */
  predicate Filled(w: World, b: Board, kind: Kind) {
    CountRunning(b.runs, kind) >= w.slots(kind) || NoneClaimable(b.incidents, kind)
  }

  predicate NoneClaimable(rows: seq<Incident>, kind: Kind) {
    forall row :: row in rows ==> !Claimable(row, kind)
  }

  lemma {:induction false} ClaimFills(w: World, b: Board, kind: Kind, taken: int, launched: seq<IncidentId>)
    requires w.tradesReadable && taken == CountRunning(b.runs, kind)
    ensures var (after, _, stopped) := ClaimAll(w, b, kind, taken, launched); stopped || Filled(w, after, kind)
    decreases QueuedBlind(b.incidents, kind)
  {
    var best := NextClaim(w, b, kind, taken);
    if best.Some? {
      AfterClaimDrops(w, b, kind, best.value);
      AfterClaimCount(w, b, kind, best.value, kind);
      var after := AfterClaim(w, b, kind, best.value);
      if DiagnosisStarts(w, b) {
        ClaimFills(w, after, kind, taken + 1, launched + [b.incidents[best.value].id]);
      } else if !DiagnosisStops(w, b) {
        ClaimFills(w, after, kind, taken, launched);
      }
    }
  }

  /** After the claim phase, unless an active provider backoff ended it, no slot is free while work waits. */
  lemma ClaimPhaseFillsSlots(w: World, b: Board, launched: seq<IncidentId>)
    requires w.tradesReadable
    ensures var (after, _, stopped) := ClaimBoth(w, b, Tally(RunningOnly(b.runs)), launched);
            stopped || (Filled(w, after, Hard) && Filled(w, after, Precursor))
  {
    var hard := ClaimAll(w, b, Hard, CountRunning(b.runs, Hard), launched);
    ClaimFills(w, b, Hard, CountRunning(b.runs, Hard), launched);
    ClaimLeavesOthers(w, b, Hard, CountRunning(b.runs, Hard), launched, Precursor);
    if !hard.2 {
      var taken := CountRunning(hard.0.runs, Precursor);
      ClaimFills(w, hard.0, Precursor, taken, hard.1);
      ClaimLeavesOthers(w, hard.0, Precursor, taken, hard.1, Hard);
      if NoneClaimable(hard.0.incidents, Hard) {
        ClaimWakesNobody(w, hard.0, Precursor, taken, hard.1, Hard);
      }
    }
  }

  /** Claiming one kind makes no incident of any kind wait blind. */
  lemma {:induction false} ClaimWakesNobody(w: World, b: Board, kind: Kind, taken: int, launched: seq<IncidentId>,
                                            k: Kind)
    requires NoneClaimable(b.incidents, k)
    ensures NoneClaimable(ClaimAll(w, b, kind, taken, launched).0.incidents, k)
    decreases QueuedBlind(b.incidents, kind)
  {
    var best := NextClaim(w, b, kind, taken);
    if best.Some? {
      AfterClaimDrops(w, b, kind, best.value);
      AfterClaimWakesNobody(w, b, kind, best.value, k);
      var after := AfterClaim(w, b, kind, best.value);
      if DiagnosisStarts(w, b) {
        ClaimWakesNobody(w, after, kind, taken + 1, launched + [b.incidents[best.value].id], k);
      } else if !DiagnosisStops(w, b) {
        ClaimWakesNobody(w, after, kind, taken, launched, k);
      }
    }
  }

  lemma AfterClaimWakesNobody(w: World, b: Board, kind: Kind, i: nat, k: Kind)
    requires i < |b.incidents| && NoneClaimable(b.incidents, k)
    ensures NoneClaimable(AfterClaim(w, b, kind, i).incidents, k)
  {
    var after := AfterClaim(w, b, kind, i).incidents;
    forall row | row in after ensures !Claimable(row, k) {
      var j :| 0 <= j < |after| && after[j] == row;
      assert b.incidents[j] in b.incidents;
    }
  }
}
