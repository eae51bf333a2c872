/** What every reachable state of the spawn protocol keeps: one live writer per workspace, no live worker reclaimed. */
module SpawnSafety {
  import opened Common
  import opened SpawnProtocol

  /** While its child lives, a run holds its lock, its lease and a trace that speaks for it. */
  predicate LiveInv(r: RunId, run: Run, lease: Option<Lease>) {
    && run.child.Some? && run.pc != Aborting && run.childFd
    && (IntentActive(run) || run.writer ==> run.locked && run.linked)
    && (run.writer ==> lease.Some? && lease.value.run == r)
    && (run.file.Some? ==> run.file.value == RunFile(FileRunning, run.child.value, false))
    && (IntentActive(run) || run.file.Some?)
  }

  predicate RunInv(r: RunId, run: Run, alive: set<Pid>, lease: Option<Lease>) {
    var early := run.pc in {Intended, Locked, Ready};
    && (early ==> run.child.None? && run.file.None? && run.ledger.None?)
    && (!early && run.pc != Aborting ==> run.child.Some?)
    && (run.owner in alive && early ==> run.intent == PreSpawn)
    && (run.owner in alive && run.pc in {Locked, Ready} ==> run.ownerFd && run.locked && run.linked)
    && (run.owner in alive && run.pc == Ready && run.writer ==> lease.Some? && lease.value.run == r)
    && (ChildAlive(run, alive) ==> LiveInv(r, run, lease))
    && (Finalized(run) ==> Over(run, alive))
    && (run.pc in {Filed, Ledgered, Persisted, Returned} ==> run.file.Some?)
    && (run.pc in {Persisted, Returned} ==> !IntentActive(run))
    && (run.pc == Persisted ==> !run.writer)
    && (run.ledger.Some? ==> run.file.Some?)
    && (run.file.Some? ==> run.child.Some?)
    && (run.intent.ChildStarted? ==> run.child == Some(run.intent.pid))
  }

  predicate LeaseInv(cwd: Cwd, lease: Lease, runs: map<RunId, Run>) {
    lease.run in runs && runs[lease.run].cwd == cwd && runs[lease.run].owner == lease.owner && runs[lease.run].writer
  }

  /**
   A run whose intent, as the pass read it, covered nothing when probed: its owner is gone,
   and if its worker lives, the intent was read before the worker was recorded and has
   closed since, and the run is no writer.
   */
  predicate Uncovered(run: Run, alive: set<Pid>, intent: Intent) {
    && run.owner !in alive
    && (ChildAlive(run, alive) ==> intent == PreSpawn && !IntentActive(run) && !run.writer)
  }

  /** The records a pass read are of started workers, and true of every worker still alive. */
  ghost predicate SeenInv(s: State, pass: Pass) {
    forall r :: r in pass.seen ==>
      && r in s.runs && s.runs[r].child.Some?
      && (ChildAlive(s.runs[r], s.alive) ==> pass.seen[r] == RunFile(FileRunning, s.runs[r].child.value, false))
  }

  ghost predicate IntentsInv(s: State, pass: Pass) {
    forall r :: r in pass.intents ==>
      && r in s.runs
      && (pass.intents[r] == PreSpawn
          || (pass.intents[r].ChildStarted? && s.runs[r].child == Some(pass.intents[r].pid)))
      && (r in pass.shielded || (pass.phase == Intents && r in pass.todo)
          || Uncovered(s.runs[r], s.alive, pass.intents[r]))
  }

  ghost predicate RowsInv(s: State, pass: Pass) {
    forall r :: r in pass.rows ==>
      && r in s.runs
      && (|| r in pass.busy || (pass.phase == Rows && r in pass.todo)
          || (&& (r in pass.seen ==> !ChildAlive(s.runs[r], s.alive))
              && (r in pass.intents ==> Uncovered(s.runs[r], s.alive, pass.intents[r]))))
  }

  ghost predicate ClaimsInv(s: State, pass: Pass) {
    forall r :: r in pass.seen && r in s.runs && s.runs[r].incident in pass.claims ==>
      || s.runs[r].incident in pass.unweighed || s.runs[r].incident in pass.vouched
      || !ChildAlive(s.runs[r], s.alive)
  }

  /** What a pass remembers stays true of the workers that are still alive. */
  ghost predicate PassInv(s: State, pass: Pass) {
    && SeenInv(s, pass) && IntentsInv(s, pass) && RowsInv(s, pass) && ClaimsInv(s, pass)
    && (pass.phase.Records? || pass.phase.Intents? ==> pass.rows == {})
    && (pass.phase.Records? || pass.phase.Intents? || pass.phase.Rows? ==> pass.claims == {})
    && (forall r :: r in pass.writes ==> r in pass.seen && r in s.runs && !ChildAlive(s.runs[r], s.alive))
  }

  ghost predicate PassesInv(s: State) {
    forall k :: k in s.passes ==> PassInv(s, s.passes[k])
  }

  ghost predicate Inv(s: State) {
    && s.alive <= s.used
    && (forall r :: r in s.runs ==> s.runs[r].owner in s.used)
    && (forall r :: r in s.runs && s.runs[r].child.Some? ==> s.runs[r].child.value in s.used)
    && (forall r :: r in s.runs ==> RunInv(r, s.runs[r], s.alive, LeaseAt(s, s.runs[r].cwd)))
    && (forall cwd :: cwd in s.leases ==> LeaseInv(cwd, s.leases[cwd], s.runs))
  }

  /** Replacing one run's records, with the same identity and child. */
  lemma SetRunInv(s: State, r: RunId, run: Run)
    requires Inv(s) && r in s.runs
    requires run.owner == s.runs[r].owner && run.cwd == s.runs[r].cwd && run.writer == s.runs[r].writer
    requires run.child == s.runs[r].child
    requires RunInv(r, run, s.alive, LeaseAt(s, run.cwd))
    ensures Inv(SetRun(s, r, run))
  {
  }

  lemma KillRun(r: RunId, run: Run, alive: set<Pid>, lease: Option<Lease>, pid: Pid)
    requires RunInv(r, run, alive, lease)
    ensures RunInv(r, CloseFds(run, pid), alive - {pid}, lease)
  {
  }

  lemma KillInv(s: State, pid: Pid)
    requires Inv(s)
    ensures Inv(Kill(s, pid))
  {
    forall r | r in s.runs
      ensures RunInv(r, CloseFds(s.runs[r], pid), s.alive - {pid}, LeaseAt(s, s.runs[r].cwd))
    {
      KillRun(r, s.runs[r], s.alive, LeaseAt(s, s.runs[r].cwd), pid);
    }
  }

  /** A newly started process is nobody's child or owner yet. */
  lemma StartInv(s: State, pid: Pid)
    requires Inv(s) && pid !in s.used
    ensures Inv(s.(alive := s.alive + {pid}, used := s.used + {pid}))
  {
  }

  lemma CreateIntentInv(s: State, a: Action)
    requires Inv(s) && Enabled(s, a) && a.CreateIntent?
    ensures Inv(Step(s, a))
  {
  }

  /** A lease that is not busy belongs to no live child and to no owner about to spawn one. */
  lemma TakeoverOnlyOfTheDead(s: State, cwd: Cwd, reported: set<Pid>)
    requires Inv(s) && cwd in s.leases && s.alive <= reported
    requires !LeaseBusy(s, s.leases[cwd], reported)
    ensures var run := s.runs[s.leases[cwd].run];
            !ChildAlive(run, s.alive) && !(run.owner in s.alive && run.pc in {Locked, Ready})
  {
    var lease := s.leases[cwd];
    assert LeaseInv(cwd, lease, s.runs);
    assert RunInv(lease.run, s.runs[lease.run], s.alive, LeaseAt(s, cwd));
  }

  lemma AcquireLeaseRun(s: State, r: RunId, reported: set<Pid>, r2: RunId)
    requires Inv(s) && Enabled(s, AcquireLease(r, reported)) && r2 in s.runs
    ensures var next := TakeOver(s, r); RunInv(r2, next.runs[r2], s.alive, LeaseAt(next, s.runs[r2].cwd))
  {
    var cwd := s.runs[r].cwd;
    assert RunInv(r2, s.runs[r2], s.alive, LeaseAt(s, s.runs[r2].cwd));
    if cwd in s.leases {
      TakeoverOnlyOfTheDead(s, cwd, reported);
    }
  }

  lemma TakeOverLeases(s: State, r: RunId, cwd: Cwd)
    requires Inv(s) && r in s.runs && s.runs[r].writer && cwd in TakeOver(s, r).leases
    ensures LeaseInv(cwd, TakeOver(s, r).leases[cwd], TakeOver(s, r).runs)
  {
  }

  lemma TakeOverKeeps(s: State, r: RunId, r2: RunId)
    requires Inv(s) && r in s.runs && r2 in TakeOver(s, r).runs
    ensures r2 in s.runs
    ensures var next := TakeOver(s, r).runs[r2];
            next.owner == s.runs[r2].owner && next.child == s.runs[r2].child && next.cwd == s.runs[r2].cwd
  {
  }

  lemma AcquireLeaseInv(s: State, r: RunId, reported: set<Pid>)
    requires Inv(s) && Enabled(s, AcquireLease(r, reported))
    ensures Inv(TakeOver(s, r))
  {
    var next := TakeOver(s, r);
    forall r2 | r2 in next.runs
      ensures RunInv(r2, next.runs[r2], next.alive, LeaseAt(next, next.runs[r2].cwd))
      ensures next.runs[r2].owner in s.used && (next.runs[r2].child.Some? ==> next.runs[r2].child.value in s.used)
    {
      TakeOverKeeps(s, r, r2);
      AcquireLeaseRun(s, r, reported, r2);
    }
    forall cwd | cwd in next.leases ensures LeaseInv(cwd, next.leases[cwd], next.runs) {
      TakeOverLeases(s, r, cwd);
    }
  }

  lemma PopenInv(s: State, r: RunId, pid: Pid)
    requires Inv(s) && Enabled(s, Popen(r, pid))
    ensures Inv(Step(s, Popen(r, pid)))
  {
    var next := Step(s, Popen(r, pid));
    StartInv(s, pid);
    forall r2 | r2 in next.runs
      ensures RunInv(r2, next.runs[r2], next.alive, LeaseAt(next, next.runs[r2].cwd))
    {
      assert RunInv(r2, s.runs[r2], s.alive, LeaseAt(s, s.runs[r2].cwd));
    }
  }

  lemma BindChildInv(s: State, r: RunId)
    requires Inv(s) && Enabled(s, BindChild(r))
    ensures Inv(Step(s, BindChild(r)))
  {
    var next := Step(s, BindChild(r));
    forall r2 | r2 in next.runs
      ensures RunInv(r2, next.runs[r2], next.alive, LeaseAt(next, next.runs[r2].cwd))
    {
      assert RunInv(r2, s.runs[r2], s.alive, LeaseAt(s, s.runs[r2].cwd));
    }
  }

  lemma AbortInv(s: State, r: RunId)
    requires Inv(s) && Enabled(s, Abort(r))
    ensures Inv(Step(s, Abort(r)))
  {
    var killed := if s.runs[r].child.Some? then Kill(s, s.runs[r].child.value) else s;
    if s.runs[r].child.Some? {
      KillInv(s, s.runs[r].child.value);
    }
    assert RunInv(r, killed.runs[r], killed.alive, LeaseAt(killed, killed.runs[r].cwd));
    SetRunInv(killed, r, killed.runs[r].(pc := Aborting));
  }

  /** Dropping a lease deletes the row only if it is the run's own, and that run is over. */
  lemma DropLeaseInv(s: State, r: RunId)
    requires Inv(s) && Enabled(s, DropLease(r))
    ensures Inv(Step(s, DropLease(r)))
  {
    var next := Step(s, DropLease(r));
    forall r2 | r2 in next.runs
      ensures RunInv(r2, next.runs[r2], next.alive, LeaseAt(next, next.runs[r2].cwd))
    {
      assert RunInv(r2, s.runs[r2], s.alive, LeaseAt(s, s.runs[r2].cwd));
      assert RunInv(r, s.runs[r], s.alive, LeaseAt(s, s.runs[r].cwd));
    }
  }

  /** The pass has no sight of the worker: its record was not read, and its intent not or not in time. */
  predicate Unseen(s: State, pass: Pass, r: RunId)
    requires r in s.runs
  {
    r !in pass.seen && (r in pass.intents ==> Uncovered(s.runs[r], s.alive, pass.intents[r]))
  }

  predicate CanCommit(pass: Pass) {
    pass.phase == Claims && pass.unweighed == {}
  }

  /** What a pass about to commit can conclude about a run whose worker lives. */
  lemma LiveRunConclusions(s: State, pass: Pass, r: RunId)
    requires Inv(s) && PassInv(s, pass) && CanCommit(pass) && r in s.runs && ChildAlive(s.runs[r], s.alive)
    ensures !SettledRow(pass, r) && !GivenUp(s.runs, pass, r)
    ensures DeadRow(pass, r) ==> Unseen(s, pass, r)
    ensures Abandoned(s.runs, pass, s.runs[r].incident) ==> Unseen(s, pass, r)
    ensures r in pass.intents && r !in pass.shielded ==> !IntentActive(s.runs[r])
  {
  }

  /** No record of a live run is marked orphaned by any pass. */
  lemma LiveRunNotOrphaned(s: State, k: PassId, r: RunId)
    requires Inv(s) && PassesInv(s) && Enabled(s, Reconcile(k)) && r in s.runs && ChildAlive(s.runs[r], s.alive)
    ensures !Orphans(s.runs, s.passes[k], r)
  {
    LiveRunConclusions(s, s.passes[k], r);
  }

  /** The commit touches a live run exactly when its row was read with nothing behind it and is still running. */
  lemma LiveRunUntouchedIff(s: State, k: PassId, r: RunId)
    requires Inv(s) && PassesInv(s) && Enabled(s, Reconcile(k)) && r in s.runs && ChildAlive(s.runs[r], s.alive)
    ensures Commit(s, k).runs[r] == s.runs[r]
            <==> !(DeadRow(s.passes[k], r) && s.runs[r].ledger == Some(LedgerRunning))
    ensures DeadRow(s.passes[k], r) ==> Unseen(s, s.passes[k], r)
  {
    LiveRunConclusions(s, s.passes[k], r);
  }

  lemma CommittedRunInv(r: RunId, run: Run, alive: set<Pid>, lease: Option<Lease>, expires: bool, closes: bool)
    requires RunInv(r, run, alive, lease)
    requires expires && IntentActive(run) ==> !ChildAlive(run, alive) && run.owner !in alive
    ensures RunInv(r, CommittedRun(run, expires, closes), alive, lease)
  {
  }

  lemma CommitRunInv(s: State, k: PassId, r: RunId)
    requires Inv(s) && PassesInv(s) && Enabled(s, Reconcile(k)) && r in s.runs
    ensures RunInv(r, Commit(s, k).runs[r], s.alive, LeaseAt(s, s.runs[r].cwd))
  {
    var pass := s.passes[k];
    assert PassInv(s, pass);
    CommittedRunInv(r, s.runs[r], s.alive, LeaseAt(s, s.runs[r].cwd),
                    r in pass.intents && r !in pass.shielded, Closes(s.runs, pass, r));
  }

  /** Steps that leave runs, leases and processes alone. */
  lemma SameTablesInv(s: State, next: State)
    requires Inv(s) && next.runs == s.runs && next.leases == s.leases && next.alive == s.alive && next.used == s.used
    ensures Inv(next)
  {
  }

  /** Replacing every run's records, with the same identities and children. */
  lemma SetAllInv(s: State, next: State)
    requires Inv(s) && next.leases == s.leases && next.alive == s.alive && next.used == s.used
    requires next.runs.Keys == s.runs.Keys
    requires forall r :: r in s.runs ==>
               && next.runs[r].owner == s.runs[r].owner && next.runs[r].cwd == s.runs[r].cwd
               && next.runs[r].writer == s.runs[r].writer && next.runs[r].child == s.runs[r].child
               && RunInv(r, next.runs[r], s.alive, LeaseAt(s, s.runs[r].cwd))
    ensures Inv(next)
  {
  }

  lemma CommitKeeps(s: State, k: PassId, r: RunId)
    requires k in s.passes && r in s.runs
    ensures var next := Commit(s, k).runs[r];
            && next.owner == s.runs[r].owner && next.cwd == s.runs[r].cwd
            && next.writer == s.runs[r].writer && next.child == s.runs[r].child
  {
  }

  lemma CommitInv(s: State, k: PassId)
    requires Inv(s) && PassesInv(s) && Enabled(s, Reconcile(k))
    ensures Inv(Commit(s, k))
  {
    var next := Commit(s, k);
    forall r | r in s.runs
      ensures next.runs[r].owner == s.runs[r].owner && next.runs[r].cwd == s.runs[r].cwd
      ensures next.runs[r].writer == s.runs[r].writer && next.runs[r].child == s.runs[r].child
      ensures RunInv(r, next.runs[r], s.alive, LeaseAt(s, s.runs[r].cwd))
    {
      CommitKeeps(s, k, r);
      CommitRunInv(s, k, r);
    }
    SetAllInv(s, next);
  }

  /** A worker with an open intent, and a live writer always, holds the lock the probe tries. */
  lemma UnshieldedIsUncovered(s: State, r: RunId, intent: Intent, reported: set<Pid>, young: bool)
    requires Inv(s) && r in s.runs && s.alive <= reported && !Shields(s.runs[r], intent, reported, young)
    requires intent == PreSpawn || (intent.ChildStarted? && s.runs[r].child == Some(intent.pid))
    ensures Uncovered(s.runs[r], s.alive, intent)
  {
    assert RunInv(r, s.runs[r], s.alive, LeaseAt(s, s.runs[r].cwd));
  }

  lemma UnlinkedRunInv(r: RunId, run: Run, alive: set<Pid>, lease: Option<Lease>, intent: Intent)
    requires RunInv(r, run, alive, lease) && Uncovered(run, alive, intent)
    ensures RunInv(r, run.(linked := false), alive, lease)
  {
  }

  lemma ProbeIntentInv(s: State, k: PassId, r: RunId, reported: set<Pid>, young: bool)
    requires Inv(s) && PassesInv(s) && Enabled(s, ProbeIntent(k, r, reported, young))
    ensures Inv(Probed(s, k, r, reported, young))
  {
    var pass := s.passes[k];
    assert PassInv(s, pass);
    if Shields(s.runs[r], pass.intents[r], reported, young) {
      SameTablesInv(s, Probed(s, k, r, reported, young));
    } else {
      UnshieldedIsUncovered(s, r, pass.intents[r], reported, young);
      UnlinkedRunInv(r, s.runs[r], s.alive, LeaseAt(s, s.runs[r].cwd), pass.intents[r]);
      SetRunInv(s, r, s.runs[r].(linked := false));
      SameTablesInv(SetRun(s, r, s.runs[r].(linked := false)), Probed(s, k, r, reported, young));
    }
  }

  lemma OrphanedRunInv(r: RunId, run: Run, alive: set<Pid>, lease: Option<Lease>, file: RunFile)
    requires RunInv(r, run, alive, lease) && run.child.Some? && !ChildAlive(run, alive)
    ensures RunInv(r, run.(file := Some(file)), alive, lease)
  {
  }

  lemma WriteOrphanInv(s: State, k: PassId, r: RunId)
    requires Inv(s) && PassesInv(s) && Enabled(s, WriteOrphan(k, r))
    ensures Inv(Step(s, WriteOrphan(k, r)))
  {
    assert PassInv(s, s.passes[k]);
    var file := s.passes[k].seen[r].(status := FileTerminal);
    OrphanedRunInv(r, s.runs[r], s.alive, LeaseAt(s, s.runs[r].cwd), file);
    var written := SetRun(s, r, s.runs[r].(file := Some(file)));
    SetRunInv(s, r, s.runs[r].(file := Some(file)));
    SameTablesInv(written, Step(s, WriteOrphan(k, r)));
  }

  /** The owner's own writes keep a run's invariant. */
  lemma OwnerStepRun(s: State, a: Action)
    requires Inv(s) && Enabled(s, a)
    requires a.TakeLock? || a.MarkChild? || a.WriteRun? || a.WriteLedger? || a.PersistIntent? || a.ReleaseWitness?
    ensures RunInv(a.r, OwnRecords(s.runs[a.r], a), s.alive, LeaseAt(s, s.runs[a.r].cwd))
  {
    assert RunInv(a.r, s.runs[a.r], s.alive, LeaseAt(s, s.runs[a.r].cwd));
  }

  /** So do writes about a run that is over, or about to be. */
  lemma ClosingWrite(r: RunId, run: Run, alive: set<Pid>, lease: Option<Lease>, a: Action)
    requires RunInv(r, run, alive, lease)
    requires a.FailIntent? || a.FailRun? || a.FinishRun? || a.FinishLedger? || a.Finalize? || a.DropLock?
    requires if a.FailIntent? || a.FailRun? then run.pc == Aborting else Over(run, alive)
    requires a.FailRun? ==> run.child.Some?
    requires a.FinishRun? || a.FinishLedger? || a.Finalize? ==> run.file.Some?
    ensures RunInv(r, OwnRecords(run, a), alive, lease)
  {
  }

  lemma ClosingStepRun(s: State, a: Action)
    requires Inv(s) && Enabled(s, a)
    requires a.FailIntent? || a.FailRun? || a.FinishRun? || a.FinishLedger? || a.Finalize? || a.DropLock?
    ensures RunInv(a.r, OwnRecords(s.runs[a.r], a), s.alive, LeaseAt(s, s.runs[a.r].cwd))
  {
    ClosingWrite(a.r, s.runs[a.r], s.alive, LeaseAt(s, s.runs[a.r].cwd), a);
  }

  lemma OwnRecordsInv(s: State, a: Action)
    requires Inv(s) && Enabled(s, a) && OwnRecordsAction(a)
    ensures Inv(Step(s, a))
  {
    if a.TakeLock? || a.MarkChild? || a.WriteRun? || a.WriteLedger? || a.PersistIntent? || a.ReleaseWitness? {
      OwnerStepRun(s, a);
    } else {
      ClosingStepRun(s, a);
    }
    SetRunInv(s, a.r, OwnRecords(s.runs[a.r], a));
  }

  predicate PassAction(a: Action) {
    || a.ListRecords? || a.ReadRecord? || a.ReadIntents? || a.ProbeIntent? || a.ReadRows? || a.ProbeRow?
    || a.ReadClaims? || a.WeighClaim? || a.Reconcile? || a.WriteOrphan?
  }

  /** Reads and probes of a pass that only fill its memory. */
  predicate ObservingAction(a: Action) {
    a.ListRecords? || a.ReadRecord? || a.ReadIntents? || a.ReadRows? || a.ProbeRow? || a.ReadClaims? || a.WeighClaim?
  }

  lemma ObservingKeepsTables(s: State, a: Action)
    requires Enabled(s, a) && (ObservingAction(a) || a.Claim? || a.Unclaim?)
    ensures var next := Step(s, a);
            next.runs == s.runs && next.leases == s.leases && next.alive == s.alive && next.used == s.used
  {
  }

  lemma PassStepInv(s: State, a: Action)
    requires Inv(s) && PassesInv(s) && Enabled(s, a) && PassAction(a)
    ensures Inv(Step(s, a))
  {
    if ObservingAction(a) {
      ObservingKeepsTables(s, a);
      SameTablesInv(s, Step(s, a));
    } else if a.ProbeIntent? {
      ProbeIntentInv(s, a.k, a.r, a.reported, a.young);
    } else if a.Reconcile? {
      CommitInv(s, a.k);
    } else {
      WriteOrphanInv(s, a.k, a.r);
    }
  }

  lemma SharedStepInv(s: State, a: Action)
    requires Inv(s) && Enabled(s, a) && !OwnRecordsAction(a) && !PassAction(a)
    ensures Inv(Step(s, a))
  {
    if a.Start? {
      StartInv(s, a.pid);
    } else if a.Exit? {
      KillInv(s, a.pid);
    } else if a.CreateIntent? {
      CreateIntentInv(s, a);
    } else if a.AcquireLease? {
      AcquireLeaseInv(s, a.r, a.reported);
    } else if a.Popen? {
      PopenInv(s, a.r, a.pid);
    } else if a.BindChild? {
      BindChildInv(s, a.r);
    } else if a.Abort? {
      AbortInv(s, a.r);
    } else if a.DropLease? {
      DropLeaseInv(s, a.r);
    } else {
      ObservingKeepsTables(s, a);
      SameTablesInv(s, Step(s, a));
    }
  }

  // ----- what passes remember -----

  /** What no step changes of a run: its identity, its child once started, and its intent once closed. */
  predicate Evolves(run: Run, next: Run) {
    && next.owner == run.owner && next.incident == run.incident && next.cwd == run.cwd && next.writer == run.writer
    && (run.child.Some? ==> next.child == run.child)
    && (IntentActive(next) ==> IntentActive(run))
  }

  lemma OwnWriteEvolves(run: Run, a: Action)
    requires OwnRecordsAction(a)
    requires a.MarkChild? || a.WriteRun? || a.FailRun? ==> run.child.Some?
    requires a.FinishRun? || a.Finalize? ==> run.file.Some?
    requires a.MarkChild? ==> IntentActive(run)
    ensures Evolves(run, OwnRecords(run, a)) && OwnRecords(run, a).child == run.child
  {
  }

  lemma OwnRecordsEvolve(s: State, a: Action, r: RunId)
    requires Enabled(s, a) && OwnRecordsAction(a) && r in s.runs
    ensures r in Step(s, a).runs && Evolves(s.runs[r], Step(s, a).runs[r])
    ensures Step(s, a).runs[r].child == s.runs[r].child
  {
    OwnWriteEvolves(s.runs[a.r], a);
    assert Step(s, a) == SetRun(s, a.r, OwnRecords(s.runs[a.r], a));
  }

  lemma CommitEvolves(s: State, k: PassId, r: RunId)
    requires k in s.passes && r in s.runs
    ensures Evolves(s.runs[r], Commit(s, k).runs[r]) && Commit(s, k).runs[r].child == s.runs[r].child
  {
  }

  lemma PassStepEvolves(s: State, a: Action, r: RunId)
    requires Enabled(s, a) && PassAction(a) && r in s.runs
    ensures r in Step(s, a).runs && Evolves(s.runs[r], Step(s, a).runs[r])
    ensures Step(s, a).runs[r].child == s.runs[r].child
  {
    if ObservingAction(a) {
      ObservingKeepsTables(s, a);
    } else if a.Reconcile? {
      CommitEvolves(s, a.k, r);
    }
  }

  lemma SharedStepEvolves(s: State, a: Action, r: RunId)
    requires Inv(s) && Enabled(s, a) && !OwnRecordsAction(a) && !PassAction(a) && r in s.runs
    ensures r in Step(s, a).runs && Evolves(s.runs[r], Step(s, a).runs[r])
    ensures s.runs[r].owner !in s.alive ==> Step(s, a).runs[r].child == s.runs[r].child
  {
    if a.Popen? {
      PopenEvolves(s, a, r);
    } else if a.Exit? || a.Abort? {
      KillingEvolves(s, a, r);
    } else if a.AcquireLease? {
      TakeOverKeepsRuns(s, a, r);
    }
  }

  lemma PopenEvolves(s: State, a: Action, r: RunId)
    requires Inv(s) && Enabled(s, a) && a.Popen? && r in s.runs
    ensures r in Step(s, a).runs && Evolves(s.runs[r], Step(s, a).runs[r])
    ensures s.runs[r].owner !in s.alive ==> Step(s, a).runs[r].child == s.runs[r].child
  {
    assert RunInv(a.r, s.runs[a.r], s.alive, LeaseAt(s, s.runs[a.r].cwd));
  }

  lemma KillingEvolves(s: State, a: Action, r: RunId)
    requires Enabled(s, a) && (a.Exit? || a.Abort?) && r in s.runs
    ensures r in Step(s, a).runs && Evolves(s.runs[r], Step(s, a).runs[r])
    ensures Step(s, a).runs[r].child == s.runs[r].child
  {
  }

  lemma TakeOverKeepsRuns(s: State, a: Action, r: RunId)
    requires Enabled(s, a) && a.AcquireLease? && r in s.runs
    ensures r in Step(s, a).runs && Evolves(s.runs[r], Step(s, a).runs[r])
    ensures Step(s, a).runs[r].child == s.runs[r].child
  {
  }

  lemma PassStepAlive(s: State, a: Action)
    requires Enabled(s, a) && (PassAction(a) || OwnRecordsAction(a))
    ensures Step(s, a).alive == s.alive
  {
    if ObservingAction(a) {
      ObservingKeepsTables(s, a);
    } else if OwnRecordsAction(a) {
      assert Step(s, a) == SetRun(s, a.r, OwnRecords(s.runs[a.r], a));
    }
  }

  lemma NoPidReturns(s: State, a: Action, pid: Pid)
    requires Enabled(s, a) && pid in s.used && pid in Step(s, a).alive
    ensures pid in s.alive
  {
    if PassAction(a) || OwnRecordsAction(a) {
      PassStepAlive(s, a);
    }
  }

  /** A run evolves, its dead owner stays dead, and a worker it had before is alive only if it was. */
  lemma RunStays(s: State, a: Action, r: RunId)
    requires Inv(s) && Enabled(s, a) && r in s.runs
    ensures var next := Step(s, a);
            && r in next.runs && Evolves(s.runs[r], next.runs[r])
            && (s.runs[r].owner !in s.alive ==> s.runs[r].owner !in next.alive)
            && (s.runs[r].child.Some? || s.runs[r].owner !in s.alive ==>
                  (ChildAlive(next.runs[r], next.alive) ==> ChildAlive(s.runs[r], s.alive)))
  {
    var next := Step(s, a);
    if OwnRecordsAction(a) {
      OwnRecordsEvolve(s, a, r);
    } else if PassAction(a) {
      PassStepEvolves(s, a, r);
    } else {
      SharedStepEvolves(s, a, r);
    }
    if s.runs[r].owner in next.alive {
      NoPidReturns(s, a, s.runs[r].owner);
    }
    if s.runs[r].child.Some? && s.runs[r].child.value in next.alive {
      NoPidReturns(s, a, s.runs[r].child.value);
    }
  }

  lemma UncoveredStays(s: State, a: Action, r: RunId, intent: Intent)
    requires Inv(s) && Enabled(s, a) && r in s.runs && Uncovered(s.runs[r], s.alive, intent)
    ensures r in Step(s, a).runs && Uncovered(Step(s, a).runs[r], Step(s, a).alive, intent)
  {
    RunStays(s, a, r);
  }

  lemma OtherSeenStep(s: State, a: Action, pass: Pass)
    requires Inv(s) && SeenInv(s, pass) && Enabled(s, a)
    ensures SeenInv(Step(s, a), pass)
    ensures ClaimsInv(s, pass) ==> ClaimsInv(Step(s, a), pass)
  {
    forall r | r in pass.seen
      ensures var next := Step(s, a);
              && r in next.runs && next.runs[r].child == s.runs[r].child && next.runs[r].incident == s.runs[r].incident
              && (ChildAlive(next.runs[r], next.alive) ==> ChildAlive(s.runs[r], s.alive))
    {
      RunStays(s, a, r);
    }
  }

  lemma OtherIntentsStep(s: State, a: Action, pass: Pass)
    requires Inv(s) && IntentsInv(s, pass) && Enabled(s, a)
    ensures IntentsInv(Step(s, a), pass)
  {
    forall r | r in pass.intents
      ensures r in Step(s, a).runs && Evolves(s.runs[r], Step(s, a).runs[r])
      ensures Uncovered(s.runs[r], s.alive, pass.intents[r]) ==>
                Uncovered(Step(s, a).runs[r], Step(s, a).alive, pass.intents[r])
    {
      RunStays(s, a, r);
    }
  }

  lemma OtherRowsStep(s: State, a: Action, pass: Pass)
    requires Inv(s) && SeenInv(s, pass) && RowsInv(s, pass) && Enabled(s, a)
    ensures RowsInv(Step(s, a), pass)
  {
    forall r | r in pass.rows
      ensures r in Step(s, a).runs
      ensures r in pass.seen && !ChildAlive(s.runs[r], s.alive) ==> !ChildAlive(Step(s, a).runs[r], Step(s, a).alive)
      ensures r in pass.intents && Uncovered(s.runs[r], s.alive, pass.intents[r]) ==>
                Uncovered(Step(s, a).runs[r], Step(s, a).alive, pass.intents[r])
    {
      RunStays(s, a, r);
    }
  }

  /** Whatever happens elsewhere, what a pass has remembered stays true. */
  lemma OtherPassStep(s: State, a: Action, pass: Pass)
    requires Inv(s) && PassInv(s, pass) && Enabled(s, a)
    ensures PassInv(Step(s, a), pass)
  {
    OtherSeenStep(s, a, pass);
    OtherIntentsStep(s, a, pass);
    OtherRowsStep(s, a, pass);
    forall r | r in pass.writes ensures r in Step(s, a).runs && !ChildAlive(Step(s, a).runs[r], Step(s, a).alive) {
      RunStays(s, a, r);
    }
  }

  lemma ReadRecordPass(s: State, k: PassId, r: RunId, readable: bool)
    requires Inv(s) && PassesInv(s) && Enabled(s, ReadRecord(k, r, readable))
    ensures var next := Step(s, ReadRecord(k, r, readable)); PassInv(next, next.passes[k])
  {
    assert PassInv(s, s.passes[k]);
    if readable {
      assert RunInv(r, s.runs[r], s.alive, LeaseAt(s, s.runs[r].cwd));
    }
  }

  lemma ReadIntentsPass(s: State, k: PassId)
    requires Inv(s) && PassesInv(s) && Enabled(s, ReadIntents(k))
    ensures var next := Step(s, ReadIntents(k)); PassInv(next, next.passes[k])
  {
    assert PassInv(s, s.passes[k]);
    forall r | r in OpenIntents(s) ensures RunInv(r, s.runs[r], s.alive, LeaseAt(s, s.runs[r].cwd)) {
    }
  }

  /** What a pass remembers is about runs and processes only. */
  lemma PassInvSameTables(s: State, next: State, pass: Pass)
    requires PassInv(s, pass) && next.runs == s.runs && next.alive == s.alive
    ensures PassInv(next, pass)
  {
  }

  lemma IntentProbed(s: State, pass: Pass, r: RunId, shields: bool)
    requires PassInv(s, pass) && pass.phase == Intents && r in pass.intents
    requires shields || Uncovered(s.runs[r], s.alive, pass.intents[r])
    ensures PassInv(s, pass.(todo := pass.todo - {r}, shielded := pass.shielded + (if shields then {r} else {})))
  {
  }

  lemma ProbeIntentPass(s: State, k: PassId, r: RunId, reported: set<Pid>, young: bool)
    requires Inv(s) && PassesInv(s) && Enabled(s, ProbeIntent(k, r, reported, young))
    ensures var next := Probed(s, k, r, reported, young); PassInv(next, next.passes[k])
  {
    var pass := s.passes[k];
    var shields := Shields(s.runs[r], pass.intents[r], reported, young);
    assert PassInv(s, pass);
    if !shields {
      UnshieldedIsUncovered(s, r, pass.intents[r], reported, young);
    }
    IntentProbed(s, pass, r, shields);
    ProbedPass(s, k, r, reported, young);
    OtherPassStep(s, ProbeIntent(k, r, reported, young), Probed(s, k, r, reported, young).passes[k]);
  }

  lemma ProbedPass(s: State, k: PassId, r: RunId, reported: set<Pid>, young: bool)
    requires k in s.passes && r in s.passes[k].intents && r in s.runs
    ensures var pass := s.passes[k];
            var shields := Shields(s.runs[r], pass.intents[r], reported, young);
            Probed(s, k, r, reported, young).passes[k]
            == pass.(todo := pass.todo - {r}, shielded := pass.shielded + (if shields then {r} else {}))
  {
    assert s.passes[k].shielded + {} == s.passes[k].shielded;
  }

  /** A live worker's row is found backed exactly when its record was read or its intent, as read, covers it. */
  lemma LiveRowBackedIff(s: State, pass: Pass, r: RunId, reported: set<Pid>, young: bool)
    requires SeenInv(s, pass) && s.alive <= reported && r in s.runs && ChildAlive(s.runs[r], s.alive)
    ensures Backed(s.runs[r], pass, r, reported, young)
            <==> r in pass.seen || (r in pass.intents && Shields(s.runs[r], pass.intents[r], reported, young))
  {
  }

  lemma RowJudged(s: State, pass: Pass, r: RunId, backed: bool)
    requires PassInv(s, pass) && pass.phase == Rows
    requires r in pass.rows && !backed ==>
               && (r in pass.seen ==> !ChildAlive(s.runs[r], s.alive))
               && (r in pass.intents ==> Uncovered(s.runs[r], s.alive, pass.intents[r]))
    ensures PassInv(s, pass.(todo := pass.todo - {r}, busy := if backed then pass.busy + {r} else pass.busy))
  {
  }

  lemma ProbeRowPass(s: State, k: PassId, r: RunId, reported: set<Pid>, young: bool)
    requires Inv(s) && PassesInv(s) && Enabled(s, ProbeRow(k, r, reported, young))
    ensures var next := Step(s, ProbeRow(k, r, reported, young)); PassInv(next, next.passes[k])
  {
    var pass := s.passes[k];
    assert PassInv(s, pass);
    var backed := Backed(s.runs[r], pass, r, reported, young);
    if !backed && r in pass.intents {
      UnshieldedIsUncovered(s, r, pass.intents[r], reported, young);
    }
    RowJudged(s, pass, r, backed);
    var next := Step(s, ProbeRow(k, r, reported, young));
    PassInvSameTables(s, next, next.passes[k]);
  }

  lemma ClaimJudged(s: State, pass: Pass, i: IncidentId, vouched: bool)
    requires PassInv(s, pass) && pass.phase == Claims
    requires vouched || forall r :: r in pass.seen && s.runs[r].incident == i ==> !ChildAlive(s.runs[r], s.alive)
    ensures PassInv(s, pass.(unweighed := pass.unweighed - {i},
                             vouched := if vouched then pass.vouched + {i} else pass.vouched))
  {
  }

  lemma WeighClaimPass(s: State, k: PassId, i: IncidentId, reported: set<Pid>)
    requires Inv(s) && PassesInv(s) && Enabled(s, WeighClaim(k, i, reported))
    ensures var next := Step(s, WeighClaim(k, i, reported)); PassInv(next, next.passes[k])
  {
    var pass := s.passes[k];
    assert PassInv(s, pass);
    forall r | r in pass.seen && s.runs[r].incident == i && ChildAlive(s.runs[r], s.alive)
      ensures HasLiveRecord(s.runs, pass, i, reported)
    {
      assert pass.seen[r] == RunFile(FileRunning, s.runs[r].child.value, false);
    }
    ClaimJudged(s, pass, i, HasLiveRecord(s.runs, pass, i, reported));
    var next := Step(s, WeighClaim(k, i, reported));
    PassInvSameTables(s, next, next.passes[k]);
  }

  lemma OrphansAreDead(s: State, k: PassId, r: RunId)
    requires Inv(s) && PassesInv(s) && Enabled(s, Reconcile(k)) && r in s.runs && Orphans(s.runs, s.passes[k], r)
    ensures r in s.passes[k].seen && !ChildAlive(s.runs[r], s.alive)
  {
    if ChildAlive(s.runs[r], s.alive) {
      LiveRunNotOrphaned(s, k, r);
    }
  }

  /** A pass that turns its conclusions into writes keeps what it remembers. */
  lemma WritesAdded(s: State, pass: Pass, writes: set<RunId>)
    requires PassInv(s, pass) && pass.phase == Claims
    requires forall r :: r in writes ==> r in pass.seen && r in s.runs && !ChildAlive(s.runs[r], s.alive)
    ensures PassInv(s, pass.(phase := Committed, writes := writes))
  {
  }

  lemma CommitPass(s: State, k: PassId)
    requires Inv(s) && PassesInv(s) && Enabled(s, Reconcile(k))
    ensures var next := Step(s, Reconcile(k)); PassInv(next, next.passes[k])
  {
    var next := Commit(s, k);
    forall r | r in next.passes[k].writes
      ensures r in s.passes[k].seen && r in s.runs && !ChildAlive(s.runs[r], s.alive)
    {
      OrphansAreDead(s, k, r);
    }
    WritesAdded(s, s.passes[k], next.passes[k].writes);
    OtherPassStep(s, Reconcile(k), next.passes[k]);
  }

  lemma PlainReadPass(s: State, a: Action)
    requires Inv(s) && PassesInv(s) && Enabled(s, a) && (a.ReadRows? || a.ReadClaims?)
    ensures PassInv(Step(s, a), Step(s, a).passes[a.k])
  {
    assert PassInv(s, s.passes[a.k]);
  }

  lemma ReadingPassStep(s: State, a: Action)
    requires Inv(s) && PassesInv(s) && Enabled(s, a)
    requires a.ListRecords? || a.ReadRecord? || a.ReadIntents? || a.ReadRows? || a.ReadClaims?
    ensures a.k in Step(s, a).passes && PassInv(Step(s, a), Step(s, a).passes[a.k])
  {
    if a.ReadRecord? {
      ReadRecordPass(s, a.k, a.r, a.readable);
    } else if a.ReadIntents? {
      ReadIntentsPass(s, a.k);
    } else if !a.ListRecords? {
      PlainReadPass(s, a);
    }
  }

  lemma ProbeIntentStep(s: State, a: Action)
    requires Inv(s) && PassesInv(s) && Enabled(s, a) && a.ProbeIntent?
    ensures a.k in Step(s, a).passes && PassInv(Step(s, a), Step(s, a).passes[a.k])
  {
    ProbeIntentPass(s, a.k, a.r, a.reported, a.young);
  }

  lemma ProbeRowStep(s: State, a: Action)
    requires Inv(s) && PassesInv(s) && Enabled(s, a) && a.ProbeRow?
    ensures a.k in Step(s, a).passes && PassInv(Step(s, a), Step(s, a).passes[a.k])
  {
    ProbeRowPass(s, a.k, a.r, a.reported, a.young);
  }

  lemma WeighClaimStep(s: State, a: Action)
    requires Inv(s) && PassesInv(s) && Enabled(s, a) && a.WeighClaim?
    ensures a.k in Step(s, a).passes && PassInv(Step(s, a), Step(s, a).passes[a.k])
  {
    WeighClaimPass(s, a.k, a.incident, a.reported);
  }

  lemma WritingPassStep(s: State, a: Action)
    requires Inv(s) && PassesInv(s) && Enabled(s, a) && (a.Reconcile? || a.WriteOrphan?)
    ensures a.k in Step(s, a).passes && PassInv(Step(s, a), Step(s, a).passes[a.k])
  {
    if a.Reconcile? {
      CommitPass(s, a.k);
    } else {
      WriteOrphanPass(s, a.k, a.r);
    }
  }

  lemma WriteOrphanPass(s: State, k: PassId, r: RunId)
    requires Inv(s) && PassesInv(s) && Enabled(s, WriteOrphan(k, r))
    ensures var next := Step(s, WriteOrphan(k, r)); PassInv(next, next.passes[k])
  {
    OtherPassStep(s, WriteOrphan(k, r), s.passes[k]);
  }

  lemma OtherStepKeepsPasses(s: State, a: Action)
    requires Enabled(s, a) && !PassAction(a)
    ensures Step(s, a).passes == s.passes
  {
    if OwnRecordsAction(a) {
      assert Step(s, a) == SetRun(s, a.r, OwnRecords(s.runs[a.r], a));
    }
  }

  /** An observation writes the memory of its own pass. */
  lemma ObservingSetsOne(s: State, a: Action, k: PassId)
    requires Enabled(s, a) && ObservingAction(a) && k in Step(s, a).passes && k != a.k
    ensures k in s.passes && Step(s, a).passes[k] == s.passes[k]
  {
  }

  lemma PassStepKeepsOthers(s: State, a: Action, k: PassId)
    requires Enabled(s, a) && PassAction(a) && k in Step(s, a).passes && k != a.k
    ensures k in s.passes && Step(s, a).passes[k] == s.passes[k]
  {
    if ObservingAction(a) {
      ObservingSetsOne(s, a, k);
    }
  }

  lemma PassesStep(s: State, a: Action)
    requires Inv(s) && PassesInv(s) && Enabled(s, a)
    ensures PassesInv(Step(s, a))
  {
    var next := Step(s, a);
    forall k | k in next.passes ensures PassInv(next, next.passes[k]) {
      if PassAction(a) && k == a.k {
        if a.ListRecords? || a.ReadRecord? || a.ReadIntents? || a.ReadRows? || a.ReadClaims? {
          ReadingPassStep(s, a);
        } else if a.Reconcile? || a.WriteOrphan? {
          WritingPassStep(s, a);
        } else if a.ProbeIntent? {
          ProbeIntentStep(s, a);
        } else if a.ProbeRow? {
          ProbeRowStep(s, a);
        } else {
          WeighClaimStep(s, a);
        }
      } else {
        if PassAction(a) {
          PassStepKeepsOthers(s, a, k);
        } else {
          OtherStepKeepsPasses(s, a);
        }
        OtherPassStep(s, a, s.passes[k]);
      }
    }
  }

  lemma StepInv(s: State, a: Action)
    requires Inv(s) && PassesInv(s) && Enabled(s, a)
    ensures Inv(Step(s, a)) && PassesInv(Step(s, a))
  {
    PassesStep(s, a);
    if OwnRecordsAction(a) {
      OwnRecordsInv(s, a);
    } else if PassAction(a) {
      PassStepInv(s, a);
    } else {
      SharedStepInv(s, a);
    }
  }

  lemma {:induction false} ReachableInv(actions: seq<Action>, s: State)
    requires Reaches(actions, s)
    ensures Inv(s) && PassesInv(s)
  {
    if actions != [] {
      var n := |actions| - 1;
      var before :| Reaches(actions[..n], before) && Enabled(before, actions[n]) && s == Step(before, actions[n]);
      ReachableInv(actions[..n], before);
      StepInv(before, actions[n]);
    }
  }

  // ----- the two guarantees -----

  /** In no reachable state do two live writer children share a workspace; each holds its own lease row. */
  lemma WriterExclusion(actions: seq<Action>, s: State, r1: RunId, r2: RunId)
    requires Reaches(actions, s) && r1 in s.runs && r2 in s.runs
    requires s.runs[r1].writer && s.runs[r2].writer && s.runs[r1].cwd == s.runs[r2].cwd
    requires ChildAlive(s.runs[r1], s.alive) && ChildAlive(s.runs[r2], s.alive)
    ensures r1 == r2
    ensures s.runs[r1].cwd in s.leases && s.leases[s.runs[r1].cwd].run == r1
  {
    ReachableInv(actions, s);
    assert LiveInv(r1, s.runs[r1], LeaseAt(s, s.runs[r1].cwd));
    assert LiveInv(r2, s.runs[r2], LeaseAt(s, s.runs[r2].cwd));
  }

  /** A writer that is entitled to its workspace: its worker lives, or its live owner is about to start it. */
  predicate Entitled(s: State, r: RunId)
    requires r in s.runs
  {
    s.runs[r].writer && (ChildAlive(s.runs[r], s.alive) || (s.runs[r].owner in s.alive && s.runs[r].pc == Ready))
  }

  lemma EntitledHoldsLease(s: State, r: RunId)
    requires Inv(s) && r in s.runs && Entitled(s, r)
    ensures s.runs[r].cwd in s.leases && s.leases[s.runs[r].cwd].run == r
  {
    assert RunInv(r, s.runs[r], s.alive, LeaseAt(s, s.runs[r].cwd));
  }

  /**
   No step whatever, a stale release included, removes or replaces the lease of a run that
   is entitled to it before and after.
   */
  lemma LiveLeaseSurvives(actions: seq<Action>, s: State, a: Action, r: RunId)
    requires Reaches(actions, s) && Enabled(s, a) && r in s.runs && Entitled(s, r)
    requires r in Step(s, a).runs && Entitled(Step(s, a), r)
    ensures var cwd, next := s.runs[r].cwd, Step(s, a);
            cwd in s.leases && s.leases[cwd].run == r && cwd in next.leases && next.leases[cwd].run == r
  {
    ReachableInv(actions, s);
    StepInv(s, a);
    RunStays(s, a, r);
    EntitledHoldsLease(s, r);
    EntitledHoldsLease(Step(s, a), r);
  }

  // ----- what a pass may reclaim -----

  /** Another run of the incident with a ledger row the pass found nothing behind. */
  ghost predicate HasDeadSibling(runs: map<RunId, Run>, pass: Pass, r: RunId)
    requires r in runs
  {
    exists other :: other in runs && other != r && runs[other].incident == runs[r].incident && DeadRow(pass, other)
  }

  ghost predicate HasSpeakingSibling(runs: map<RunId, Run>, pass: Pass, r: RunId)
    requires r in runs
  {
    exists other :: other in runs && other != r && runs[other].incident == runs[r].incident && Speaks(pass, other)
  }

  /** Nothing the pass read or probed speaks for the run's claim, not even its own intent. */
  ghost predicate Unspoken(runs: map<RunId, Run>, pass: Pass, r: RunId)
    requires r in runs
  {
    && runs[r].incident in pass.claims && runs[r].incident !in pass.vouched
    && r !in pass.shielded && !HasSpeakingSibling(runs, pass, r)
  }

  lemma ReclaimsIff(s: State, pass: Pass, r: RunId)
    requires Inv(s) && PassInv(s, pass) && CanCommit(pass) && r in s.runs && ChildAlive(s.runs[r], s.alive)
    ensures Reclaims(s.runs, pass, s.runs[r].incident)
            <==> || HasDeadSibling(s.runs, pass, r)
                 || (Unseen(s, pass, r) && (DeadRow(pass, r) || Unspoken(s.runs, pass, r)))
  {
    LiveRunConclusions(s, pass, r);
    var i := s.runs[r].incident;
    if HasDeadRow(s.runs, pass, i) {
      var d :| d in s.runs && s.runs[d].incident == i && DeadRow(pass, d);
    } else if Unspoken(s.runs, pass, r) {
      assert Abandoned(s.runs, pass, i);
    }
  }

  /**
   A pass reads records, intents, ledger rows and claims one after another, probes
   processes and locks in between, and commits last.  In every reachable state the commit
   reclaims the incident of a live worker exactly when another run of it had a dead row, or
   the pass has no sight of the worker (record not read; intent not read, or read before
   the worker was recorded, closed since, and its owner gone) and either the worker's own
   row was read with nothing behind it or nothing at all spoke for the claim.
   */
  lemma OrphanSafety(actions: seq<Action>, s: State, k: PassId, r: RunId)
    requires Reaches(actions, s) && Enabled(s, Reconcile(k))
    requires r in s.runs && ChildAlive(s.runs[r], s.alive) && s.runs[r].incident in s.running
    ensures var pass := s.passes[k];
            s.runs[r].incident !in Step(s, Reconcile(k)).running
            <==> || HasDeadSibling(s.runs, pass, r)
                 || (Unseen(s, pass, r) && (DeadRow(pass, r) || Unspoken(s.runs, pass, r)))
  {
    ReachableInv(actions, s);
    ReclaimsIff(s, s.passes[k], r);
  }

  /**
   When no other run of the incident had a running ledger row, a live worker the pass has
   sight of keeps its claim, its intent and ledger row, and its record file.
   */
  lemma SoleLiveRunKeepsItsClaim(actions: seq<Action>, s: State, k: PassId, r: RunId)
    requires Reaches(actions, s) && Enabled(s, Reconcile(k))
    requires r in s.runs && ChildAlive(s.runs[r], s.alive) && s.runs[r].incident in s.running
    requires !Unseen(s, s.passes[k], r)
    requires forall other :: other in s.passes[k].rows && other in s.runs ==>
                               other == r || s.runs[other].incident != s.runs[r].incident
    ensures var next := Step(s, Reconcile(k));
            s.runs[r].incident in next.running && next.runs[r] == s.runs[r] && r !in next.passes[k].writes
  {
    OrphanSafety(actions, s, k, r);
    ReachableInv(actions, s);
    LiveRunUntouchedIff(s, k, r);
    LiveRunNotOrphaned(s, k, r);
  }

  /** What the pass observed is what the state holds: one consistent snapshot. */
  predicate OneSnapshot(s: State, pass: Pass) {
    && (forall r :: r in s.runs ==> (s.runs[r].file.Some? <==> r in pass.seen))
    && pass.intents == OpenIntents(s)
  }

  /** On one snapshot the pass has sight of every live worker, and only a dead sibling's row can cost the claim. */
  lemma SnapshotOrphanSafety(actions: seq<Action>, s: State, k: PassId, r: RunId)
    requires Reaches(actions, s) && Enabled(s, Reconcile(k)) && OneSnapshot(s, s.passes[k])
    requires r in s.runs && ChildAlive(s.runs[r], s.alive) && s.runs[r].incident in s.running
    ensures !Unseen(s, s.passes[k], r)
    ensures s.runs[r].incident !in Step(s, Reconcile(k)).running <==> HasDeadSibling(s.runs, s.passes[k], r)
  {
    ReachableInv(actions, s);
    assert LiveInv(r, s.runs[r], LeaseAt(s, s.runs[r].cwd));
    OrphanSafety(actions, s, k, r);
  }
}
