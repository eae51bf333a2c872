/** Descriptors are open in live processes only, and records name their own workers, in every reachable state. */
module SpawnTraces {
  import opened Common
  import opened SpawnProtocol
  import opened SpawnSafety

  // ----- descriptors and recorded pids -----

  /** Descriptors are open in live processes only, and a record names the run's own worker. */
  predicate TraceInv(run: Run, alive: set<Pid>) {
    && (run.ownerFd ==> run.owner in alive) && (run.childFd ==> ChildAlive(run, alive))
    && (run.file.Some? ==> run.child == Some(run.file.value.pid))
  }

  ghost predicate SeenPids(s: State, pass: Pass) {
    forall r :: r in pass.seen ==> r in s.runs && s.runs[r].child == Some(pass.seen[r].pid)
  }

  ghost predicate Traced(s: State) {
    && (forall r :: r in s.runs ==> TraceInv(s.runs[r], s.alive))
    && (forall k :: k in s.passes ==> SeenPids(s, s.passes[k]))
    && (forall cwd :: cwd in s.leases ==> LeaseNames(s.runs, s.leases[cwd]))
  }

  /** A worker bound to a lease is the worker of the lease's run. */
  predicate LeaseNames(runs: map<RunId, Run>, lease: Lease) {
    lease.child.Some? ==> lease.run in runs && runs[lease.run].child == lease.child
  }

  lemma OwnWriteTraced(run: Run, alive: set<Pid>, a: Action)
    requires TraceInv(run, alive) && OwnRecordsAction(a) && (a.TakeLock? ==> run.owner in alive)
    requires a.MarkChild? || a.WriteRun? || a.FailRun? ==> run.child.Some?
    requires a.FinishRun? || a.Finalize? ==> run.file.Some?
    ensures TraceInv(OwnRecords(run, a), alive)
  {
  }

  lemma OwnStepTraced(s: State, a: Action)
    requires Enabled(s, a) && OwnRecordsAction(a) && a.r in s.runs && TraceInv(s.runs[a.r], s.alive)
    ensures a.r in Step(s, a).runs && TraceInv(Step(s, a).runs[a.r], s.alive)
  {
    OwnWriteTraced(s.runs[a.r], s.alive, a);
  }

  lemma OwnRecordsTraced(s: State, a: Action, r: RunId)
    requires Traced(s) && Enabled(s, a) && OwnRecordsAction(a) && r in s.runs
    ensures r in Step(s, a).runs && TraceInv(Step(s, a).runs[r], Step(s, a).alive)
  {
    PassStepAlive(s, a);
    assert TraceInv(s.runs[r], s.alive);
    if r == a.r {
      OwnStepTraced(s, a);
    }
  }

  lemma CommitTraced(s: State, k: PassId, r: RunId)
    requires k in s.passes && r in s.runs && TraceInv(s.runs[r], s.alive)
    ensures TraceInv(Commit(s, k).runs[r], s.alive)
  {
  }

  lemma ProbeTraced(s: State, k: PassId, r: RunId, reported: set<Pid>, young: bool, other: RunId)
    requires k in s.passes && r in s.passes[k].intents && r in s.runs && other in s.runs
    requires TraceInv(s.runs[other], s.alive)
    ensures other in Probed(s, k, r, reported, young).runs
    ensures TraceInv(Probed(s, k, r, reported, young).runs[other], Probed(s, k, r, reported, young).alive)
  {
  }

  lemma WriteOrphanTraced(s: State, a: Action, r: RunId)
    requires Traced(s) && Enabled(s, a) && a.WriteOrphan? && r in s.runs
    ensures r in Step(s, a).runs && TraceInv(Step(s, a).runs[r], Step(s, a).alive)
  {
    assert TraceInv(s.runs[r], s.alive) && SeenPids(s, s.passes[a.k]);
  }

  lemma PassStepTraced(s: State, a: Action, r: RunId)
    requires Traced(s) && Enabled(s, a) && PassAction(a) && r in s.runs
    ensures r in Step(s, a).runs && TraceInv(Step(s, a).runs[r], Step(s, a).alive)
  {
    assert TraceInv(s.runs[r], s.alive);
    if ObservingAction(a) {
      ObservingKeepsTables(s, a);
    } else if a.ProbeIntent? {
      ProbeTraced(s, a.k, a.r, a.reported, a.young, r);
    } else if a.Reconcile? {
      CommitTraced(s, a.k, r);
    } else {
      WriteOrphanTraced(s, a, r);
    }
  }

  lemma KillTraced(run: Run, alive: set<Pid>, pid: Pid)
    requires TraceInv(run, alive)
    ensures TraceInv(CloseFds(run, pid), alive - {pid})
  {
  }

  lemma KillingTraced(s: State, a: Action, r: RunId)
    requires Traced(s) && Enabled(s, a) && (a.Exit? || a.Abort?) && r in s.runs
    ensures r in Step(s, a).runs && TraceInv(Step(s, a).runs[r], Step(s, a).alive)
  {
    assert TraceInv(s.runs[r], s.alive);
    if a.Exit? {
      KillTraced(s.runs[r], s.alive, a.pid);
    } else if s.runs[a.r].child.Some? {
      KillTraced(s.runs[r], s.alive, s.runs[a.r].child.value);
    }
  }

  lemma PopenTraced(s: State, a: Action, r: RunId)
    requires Inv(s) && Traced(s) && Enabled(s, a) && a.Popen? && r in s.runs
    ensures r in Step(s, a).runs && TraceInv(Step(s, a).runs[r], Step(s, a).alive)
  {
    assert TraceInv(s.runs[r], s.alive);
    assert RunInv(r, s.runs[r], s.alive, LeaseAt(s, s.runs[r].cwd));
  }

  lemma TakeOverTraced(s: State, a: Action, r: RunId)
    requires Traced(s) && Enabled(s, a) && a.AcquireLease? && r in s.runs
    ensures r in Step(s, a).runs && TraceInv(Step(s, a).runs[r], Step(s, a).alive)
  {
    assert TraceInv(s.runs[r], s.alive);
  }

  lemma PlainStepTraced(s: State, a: Action, r: RunId)
    requires Traced(s) && Enabled(s, a) && r in Step(s, a).runs
    requires a.Start? || a.CreateIntent? || a.BindChild? || a.DropLease? || a.Claim? || a.Unclaim?
    ensures TraceInv(Step(s, a).runs[r], Step(s, a).alive)
  {
    if r in s.runs {
      assert TraceInv(s.runs[r], s.alive);
    }
  }

  lemma SharedStepTraced(s: State, a: Action, r: RunId)
    requires Inv(s) && Traced(s) && Enabled(s, a) && !OwnRecordsAction(a) && !PassAction(a)
    requires r in Step(s, a).runs && (r in s.runs || a.CreateIntent?)
    ensures TraceInv(Step(s, a).runs[r], Step(s, a).alive)
  {
    if a.Exit? || a.Abort? {
      KillingTraced(s, a, r);
    } else if a.Popen? {
      PopenTraced(s, a, r);
    } else if a.AcquireLease? {
      TakeOverTraced(s, a, r);
    } else {
      PlainStepTraced(s, a, r);
    }
  }

  /** Only a spawn intent adds a run. */
  lemma NoOtherRun(s: State, a: Action, r: RunId)
    requires Enabled(s, a) && r in Step(s, a).runs
    ensures r in s.runs || (a.CreateIntent? && a.r == r && Step(s, a).runs[r].incident == a.incident)
  {
    if OwnRecordsAction(a) {
      assert Step(s, a) == SetRun(s, a.r, OwnRecords(s.runs[a.r], a));
    } else if PassAction(a) && ObservingAction(a) {
      ObservingKeepsTables(s, a);
    }
  }

  /** What a pass has seen only grows by reading the record of a run that has one. */
  lemma SeenStep(s: State, a: Action, k: PassId, r: RunId)
    requires Enabled(s, a) && k in Step(s, a).passes && r in Step(s, a).passes[k].seen
    ensures || (k in s.passes && r in s.passes[k].seen && Step(s, a).passes[k].seen[r] == s.passes[k].seen[r])
            || (a.ReadRecord? && r in s.runs && s.runs[r].file == Some(Step(s, a).passes[k].seen[r]))
  {
    if !PassAction(a) {
      OtherStepKeepsPasses(s, a);
    } else if k != a.k {
      PassStepKeepsOthers(s, a, k);
    }
  }

  lemma SeenPidsStep(s: State, a: Action, k: PassId)
    requires Inv(s) && Traced(s) && Enabled(s, a) && k in Step(s, a).passes
    ensures SeenPids(Step(s, a), Step(s, a).passes[k])
  {
    var next := Step(s, a);
    forall r | r in next.passes[k].seen
      ensures r in next.runs && next.runs[r].child == Some(next.passes[k].seen[r].pid)
    {
      SeenStep(s, a, k, r);
      if k in s.passes {
        assert SeenPids(s, s.passes[k]);
      }
      assert r in s.runs && TraceInv(s.runs[r], s.alive);
      RunStays(s, a, r);
    }
  }

  lemma LeasesKept(s: State, a: Action)
    requires Enabled(s, a) && !a.AcquireLease? && !a.BindChild? && !a.DropLease?
    ensures Step(s, a).leases == s.leases
  {
    if OwnRecordsAction(a) {
      assert Step(s, a) == SetRun(s, a.r, OwnRecords(s.runs[a.r], a));
    } else if ObservingAction(a) {
      ObservingKeepsTables(s, a);
    }
  }

  /** A lease after a step is one from before it, a new one, or one just bound to its run's worker. */
  lemma LeaseStep(s: State, a: Action, cwd: Cwd)
    requires Inv(s) && Enabled(s, a) && cwd in Step(s, a).leases
    ensures var lease := Step(s, a).leases[cwd];
            || (cwd in s.leases && lease == s.leases[cwd])
            || lease.child.None?
            || (lease.run in s.runs && s.runs[lease.run].child == lease.child)
  {
    if !a.AcquireLease? && !a.BindChild? && !a.DropLease? {
      LeasesKept(s, a);
    } else if a.BindChild? {
      assert LeaseInv(s.runs[a.r].cwd, s.leases[s.runs[a.r].cwd], s.runs);
    }
  }

  lemma LeaseNamesStep(s: State, a: Action, cwd: Cwd)
    requires Inv(s) && Traced(s) && Enabled(s, a) && cwd in Step(s, a).leases
    ensures LeaseNames(Step(s, a).runs, Step(s, a).leases[cwd])
  {
    var lease := Step(s, a).leases[cwd];
    LeaseStep(s, a, cwd);
    if lease.child.Some? {
      assert lease.run in s.runs && s.runs[lease.run].child == lease.child by {
        if cwd in s.leases && lease == s.leases[cwd] {
          assert LeaseNames(s.runs, lease);
        }
      }
      RunStays(s, a, lease.run);
    }
  }

  lemma TracedStep(s: State, a: Action)
    requires Inv(s) && Traced(s) && Enabled(s, a)
    ensures Traced(Step(s, a))
  {
    var next := Step(s, a);
    forall r | r in next.runs ensures TraceInv(next.runs[r], next.alive) {
      NoOtherRun(s, a, r);
      if OwnRecordsAction(a) {
        OwnRecordsTraced(s, a, r);
      } else if PassAction(a) {
        PassStepTraced(s, a, r);
      } else {
        SharedStepTraced(s, a, r);
      }
    }
    forall k | k in next.passes ensures SeenPids(next, next.passes[k]) {
      SeenPidsStep(s, a, k);
    }
    forall cwd | cwd in next.leases ensures LeaseNames(next.runs, next.leases[cwd]) {
      LeaseNamesStep(s, a, cwd);
    }
  }

  /** Everything every reachable state keeps. */
  ghost predicate Sound(s: State) {
    Inv(s) && PassesInv(s) && Traced(s)
  }

  lemma SoundStep(s: State, a: Action)
    requires Sound(s) && Enabled(s, a)
    ensures Sound(Step(s, a))
  {
    StepInv(s, a);
    TracedStep(s, a);
  }

  lemma {:induction false} ReachableSound(actions: seq<Action>, s: State)
    requires Reaches(actions, s)
    ensures Sound(s)
  {
    if actions != [] {
      var n := |actions| - 1;
      var before :| Reaches(actions[..n], before) && Enabled(before, actions[n]) && s == Step(before, actions[n]);
      ReachableSound(actions[..n], before);
      SoundStep(before, actions[n]);
    }
  }

  // ----- workspaces become free -----

  /**
   In every reachable state, to a prober who is told exactly which processes live, a lease
   is free exactly when its run's worker is dead and its owner is dead or the run finalized:
   so a crash anywhere in the sequence leaves no workspace taken for ever.
   */
  lemma LeaseFreeIff(actions: seq<Action>, s: State, cwd: Cwd)
    requires Reaches(actions, s) && cwd in s.leases
    ensures s.leases[cwd].run in s.runs
    ensures var run := s.runs[s.leases[cwd].run];
            !LeaseBusy(s, s.leases[cwd], s.alive)
            <==> !ChildAlive(run, s.alive) && (run.owner in s.alive ==> Finalized(run))
  {
    ReachableSound(actions, s);
    var lease := s.leases[cwd];
    assert LeaseInv(cwd, lease, s.runs) && LeaseNames(s.runs, lease);
    assert TraceInv(s.runs[lease.run], s.alive);
    if !LeaseBusy(s, lease, s.alive) {
      TakeoverOnlyOfTheDead(s, cwd, s.alive);
    }
  }

  /** A successor waiting with its lock can take a workspace whose lease is free, and then holds it. */
  lemma FreeLeaseIsTaken(actions: seq<Action>, s: State, r: RunId)
    requires Reaches(actions, s) && OwnerAt(s, r, Locked) && s.runs[r].writer
    requires var cwd := s.runs[r].cwd;
             cwd in s.leases && s.leases[cwd].run in s.runs ==>
               var run := s.runs[s.leases[cwd].run];
               !ChildAlive(run, s.alive) && (run.owner in s.alive ==> Finalized(run))
    ensures Enabled(s, AcquireLease(r, s.alive))
    ensures var next := Step(s, AcquireLease(r, s.alive));
            next.leases == s.leases[s.runs[r].cwd := Lease(r, s.runs[r].owner, None)] && OwnerAt(next, r, Ready)
  {
    if s.runs[r].cwd in s.leases {
      LeaseFreeIff(actions, s, s.runs[r].cwd);
    }
  }

  /** Releasing deletes a run's own lease row, and no other row whatever. */
  lemma ReleaseDeletesOwnRow(s: State, r: RunId, cwd: Cwd)
    requires Inv(s) && Enabled(s, DropLease(r))
    ensures cwd in Step(s, DropLease(r)).leases <==> cwd in s.leases && s.leases[cwd].run != r
    ensures cwd in Step(s, DropLease(r)).leases ==> Step(s, DropLease(r)).leases[cwd] == s.leases[cwd]
  {
    if cwd in s.leases {
      assert LeaseInv(cwd, s.leases[cwd], s.runs);
    }
  }
}
