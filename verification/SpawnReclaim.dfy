/** What a reconcile pass does reclaim: the exact condition, and that an incident whose processes are gone is. */
module SpawnReclaim {
  import opened Common
  import opened SpawnProtocol
  import opened SpawnSafety
  import opened SpawnTraces
  import opened SpawnMemory

  // ----- an incident whose processes are gone -----

  /** Every owner and every worker of the incident's runs is dead. */
  ghost predicate Gone(s: State, i: IncidentId) {
    forall r :: r in s.runs && s.runs[r].incident == i ==>
      s.runs[r].owner !in s.alive && !ChildAlive(s.runs[r], s.alive)
  }

  /** The probe of a pass that asks for processes. */
  predicate Probes(a: Action, k: PassId) {
    (a.ProbeIntent? || a.ProbeRow? || a.WeighClaim?) && a.k == k
  }

  /** The probe takes no dead process of the run for alive, and none of its intents for young. */
  predicate Candid(s: State, a: Action, r: RunId)
    requires r in s.runs && (a.ProbeIntent? || a.ProbeRow? || a.WeighClaim?)
  {
    && (s.runs[r].owner in a.reported ==> s.runs[r].owner in s.alive)
    && (Recorded(s.runs[r].child, a.reported) ==> ChildAlive(s.runs[r], s.alive))
    && ((a.ProbeIntent? || a.ProbeRow?) && a.r == r ==> !a.young)
  }

  /** Nobody claims the incident anew or starts a run of it, and the pass probes its runs candidly. */
  ghost predicate Undisturbed(s: State, a: Action, k: PassId, i: IncidentId) {
    && a != Claim(i) && !(a.CreateIntent? && a.incident == i)
    && (Probes(a, k) ==> forall r :: r in s.runs && s.runs[r].incident == i ==> Candid(s, a, r))
  }

  /** A stretch of a run through which the incident stays undisturbed. */
  ghost predicate Leads(start: State, actions: seq<Action>, s: State, k: PassId, i: IncidentId) {
    if actions == [] then s == start
    else
      var n := |actions| - 1;
      exists before :: Leads(start, actions[..n], before, k, i) && Enabled(before, actions[n])
                       && Undisturbed(before, actions[n], k, i) && s == Step(before, actions[n])
  }

  lemma GoneStays(s: State, a: Action, i: IncidentId)
    requires Inv(s) && Gone(s, i) && Enabled(s, a) && !(a.CreateIntent? && a.incident == i)
    ensures Gone(Step(s, a), i)
  {
    var next := Step(s, a);
    forall r | r in next.runs && next.runs[r].incident == i
      ensures next.runs[r].owner !in next.alive && !ChildAlive(next.runs[r], next.alive)
    {
      NoOtherRun(s, a, r);
      RunStays(s, a, r);
    }
  }

  lemma GoneUnlocked(s: State, i: IncidentId, r: RunId)
    requires Traced(s) && Gone(s, i) && r in s.runs && s.runs[r].incident == i
    ensures !LockHeld(s.runs[r])
  {
    assert TraceInv(s.runs[r], s.alive);
  }

  lemma OwnRecordsKeepClosed(s: State, a: Action, r: RunId)
    requires Enabled(s, a) && OwnRecordsAction(a) && r in s.runs && s.runs[r].owner !in s.alive
    ensures r in Step(s, a).runs
    ensures Step(s, a).runs[r].ledger == Some(LedgerRunning) ==> s.runs[r].ledger == Some(LedgerRunning)
  {
    assert Step(s, a) == SetRun(s, a.r, OwnRecords(s.runs[a.r], a));
  }

  /** No ledger row of a run whose owner is dead starts to run. */
  lemma RowStaysClosed(s: State, a: Action, r: RunId)
    requires Enabled(s, a) && r in s.runs && s.runs[r].owner !in s.alive && r in Step(s, a).runs
    requires Step(s, a).runs[r].ledger == Some(LedgerRunning)
    ensures s.runs[r].ledger == Some(LedgerRunning)
  {
    if OwnRecordsAction(a) {
      OwnRecordsKeepClosed(s, a, r);
    } else if ObservingAction(a) {
      ObservingKeepsTables(s, a);
    }
  }

  /** A probe that is candid about a run whose processes are gone finds nothing behind it. */
  lemma NothingFound(s: State, a: Action, k: PassId, i: IncidentId, r: RunId)
    requires Sound(s) && Gone(s, i) && Undisturbed(s, a, k, i) && r in s.runs && s.runs[r].incident == i
    ensures !FindsCover(s, a, k, r) && !FindsBacking(s, a, k, r)
  {
    if Probes(a, k) && k in s.passes {
      assert PassInv(s, s.passes[k]) && SeenPids(s, s.passes[k]);
      assert Candid(s, a, r);
      GoneUnlocked(s, i, r);
    }
  }

  lemma NobodyFound(s: State, a: Action, k: PassId, i: IncidentId)
    requires Traced(s) && Gone(s, i) && Undisturbed(s, a, k, i)
    ensures !FindsWorker(s, a, k, i)
  {
    if k in s.passes {
      assert SeenPids(s, s.passes[k]);
    }
  }

  /** The pass found nothing alive behind the incident, and has read whatever of it is still open. */
  ghost predicate SeesItGone(s: State, pass: Pass, i: IncidentId) {
    && i !in pass.vouched
    && (forall r :: r in s.runs && s.runs[r].incident == i ==> r !in pass.shielded && r !in pass.busy)
    && (pass.phase in {Intents, Rows, Claims} ==>
          forall r :: r in s.runs && s.runs[r].incident == i && IntentActive(s.runs[r]) ==> r in pass.intents)
    && (pass.phase in {Rows, Claims} ==>
          forall r :: r in s.runs && s.runs[r].incident == i && s.runs[r].ledger == Some(LedgerRunning) ==>
                        r in pass.rows)
    && (pass.phase == Claims && i in s.running ==> i in pass.claims)
  }

  /** A run of the incident after a step was one before it, and nothing of it opens again. */
  lemma GoneRunStep(s: State, a: Action, i: IncidentId, r: RunId)
    requires Inv(s) && Gone(s, i) && Enabled(s, a) && !(a.CreateIntent? && a.incident == i)
    requires r in Step(s, a).runs && Step(s, a).runs[r].incident == i
    ensures r in s.runs && s.runs[r].incident == i
    ensures IntentActive(Step(s, a).runs[r]) ==> IntentActive(s.runs[r])
    ensures Step(s, a).runs[r].ledger == Some(LedgerRunning) ==> s.runs[r].ledger == Some(LedgerRunning)
  {
    NoOtherRun(s, a, r);
    RunStays(s, a, r);
    if Step(s, a).runs[r].ledger == Some(LedgerRunning) {
      RowStaysClosed(s, a, r);
    }
  }

  lemma RunningOnlyShrinks(s: State, a: Action, i: IncidentId)
    requires Enabled(s, a) && a != Claim(i) && i in Step(s, a).running
    ensures i in s.running
  {
    if OwnRecordsAction(a) {
      assert Step(s, a) == SetRun(s, a.r, OwnRecords(s.runs[a.r], a));
    }
  }

  lemma StillNothingFound(s: State, a: Action, k: PassId, i: IncidentId)
    requires Sound(s) && Gone(s, i) && Enabled(s, a) && Undisturbed(s, a, k, i) && SeesItGone(s, PassOf(s, k), i)
    ensures var next, pass := Step(s, a), PassOf(Step(s, a), k);
            && i !in pass.vouched
            && forall r :: r in next.runs && next.runs[r].incident == i ==> r !in pass.shielded && r !in pass.busy
  {
    var next, pass := Step(s, a), PassOf(Step(s, a), k);
    NobodyFound(s, a, k, i);
    VouchedGrows(s, a, k, i);
    forall r | r in next.runs && next.runs[r].incident == i ensures r !in pass.shielded && r !in pass.busy {
      GoneRunStep(s, a, i, r);
      NothingFound(s, a, k, i, r);
      ShieldedGrows(s, a, k, r);
      BusyGrows(s, a, k, r);
    }
  }

  lemma StillReadIntents(s: State, a: Action, k: PassId, i: IncidentId)
    requires Sound(s) && Gone(s, i) && Enabled(s, a) && Undisturbed(s, a, k, i)
    requires Phased(PassOf(s, k)) && SeesItGone(s, PassOf(s, k), i)
    ensures var next, pass := Step(s, a), PassOf(Step(s, a), k);
            pass.phase in {Intents, Rows, Claims} ==>
              forall r :: r in next.runs && next.runs[r].incident == i && IntentActive(next.runs[r]) ==>
                            r in pass.intents
  {
    var next, pass := Step(s, a), PassOf(Step(s, a), k);
    if pass.phase in {Intents, Rows, Claims} {
      PhaseStep(s, a, k);
      forall r | r in next.runs && next.runs[r].incident == i && IntentActive(next.runs[r]) ensures r in pass.intents {
        GoneRunStep(s, a, i, r);
        if r in PassOf(s, k).intents {
          IntentsGrow(s, a, k, r, PassOf(s, k).intents[r]);
        } else {
          IntentsGrow(s, a, k, r, s.runs[r].intent);
        }
      }
    }
  }

  lemma StillReadRows(s: State, a: Action, k: PassId, i: IncidentId)
    requires Sound(s) && Gone(s, i) && Enabled(s, a) && Undisturbed(s, a, k, i)
    requires Phased(PassOf(s, k)) && SeesItGone(s, PassOf(s, k), i)
    ensures var next, pass := Step(s, a), PassOf(Step(s, a), k);
            pass.phase in {Rows, Claims} ==>
              forall r :: r in next.runs && next.runs[r].incident == i && next.runs[r].ledger == Some(LedgerRunning) ==>
                            r in pass.rows
  {
    var next, pass := Step(s, a), PassOf(Step(s, a), k);
    if pass.phase in {Rows, Claims} {
      PhaseStep(s, a, k);
      forall r | r in next.runs && next.runs[r].incident == i && next.runs[r].ledger == Some(LedgerRunning)
        ensures r in pass.rows
      {
        GoneRunStep(s, a, i, r);
        RowsGrow(s, a, k, r);
      }
    }
  }

  lemma StillReadClaims(s: State, a: Action, k: PassId, i: IncidentId)
    requires Enabled(s, a) && Undisturbed(s, a, k, i) && Phased(PassOf(s, k)) && SeesItGone(s, PassOf(s, k), i)
    ensures PassOf(Step(s, a), k).phase == Claims && i in Step(s, a).running ==> i in PassOf(Step(s, a), k).claims
  {
    if PassOf(Step(s, a), k).phase == Claims && i in Step(s, a).running {
      PhaseStep(s, a, k);
      RunningOnlyShrinks(s, a, i);
      ClaimsGrow(s, a, k, i);
    }
  }

  lemma GonePassStep(s: State, a: Action, k: PassId, i: IncidentId)
    requires Sound(s) && Gone(s, i) && Enabled(s, a) && Undisturbed(s, a, k, i)
    requires Phased(PassOf(s, k)) && SeesItGone(s, PassOf(s, k), i)
    ensures SeesItGone(Step(s, a), PassOf(Step(s, a), k), i)
  {
    StillNothingFound(s, a, k, i);
    StillReadIntents(s, a, k, i);
    StillReadRows(s, a, k, i);
    StillReadClaims(s, a, k, i);
  }

  lemma {:induction false} PassSeesItGone(start: State, actions: seq<Action>, s: State, k: PassId, i: IncidentId)
    requires Sound(start) && Gone(start, i) && k !in start.passes && Leads(start, actions, s, k, i)
    ensures Sound(s) && Gone(s, i) && Phased(PassOf(s, k)) && SeesItGone(s, PassOf(s, k), i)
  {
    if actions != [] {
      var n := |actions| - 1;
      var before :| Leads(start, actions[..n], before, k, i) && Enabled(before, actions[n])
                    && Undisturbed(before, actions[n], k, i) && s == Step(before, actions[n]);
      PassSeesItGone(start, actions[..n], before, k, i);
      SoundStep(before, actions[n]);
      GoneStays(before, actions[n], i);
      PhasedStep(before, actions[n], k);
      GonePassStep(before, actions[n], k, i);
    }
  }

  /** No run of the incident has an intent open or a ledger row running. */
  ghost predicate Closed(s: State, i: IncidentId) {
    forall r :: r in s.runs && s.runs[r].incident == i ==>
      !IntentActive(s.runs[r]) && s.runs[r].ledger != Some(LedgerRunning)
  }

  /** Some running ledger row of the incident was read beside a terminal record. */
  ghost predicate ReadFinished(s: State, pass: Pass, i: IncidentId) {
    exists r :: r in s.runs && s.runs[r].incident == i
                && r in pass.rows && r in pass.seen && pass.seen[r].status == FileTerminal
  }

  lemma GoneIsClosed(s: State, k: PassId, i: IncidentId)
    requires Enabled(s, Reconcile(k)) && SeesItGone(s, s.passes[k], i)
    ensures Closed(Commit(s, k), i)
  {
    var next := Commit(s, k);
    forall r | r in next.runs && next.runs[r].incident == i
      ensures !IntentActive(next.runs[r]) && next.runs[r].ledger != Some(LedgerRunning)
    {
      assert r in s.runs && s.runs[r].incident == i;
      if s.runs[r].ledger == Some(LedgerRunning) {
        assert Closes(s.runs, s.passes[k], r);
      }
    }
  }

  lemma GoneIsReclaimed(s: State, k: PassId, i: IncidentId)
    requires Enabled(s, Reconcile(k)) && SeesItGone(s, s.passes[k], i) && !ReadFinished(s, s.passes[k], i)
    ensures i !in Commit(s, k).running
  {
    var pass := s.passes[k];
    if i in s.running && !HasDeadRow(s.runs, pass, i) {
      forall r | r in s.runs && s.runs[r].incident == i ensures !Speaks(pass, r) {
      }
      assert Abandoned(s.runs, pass, i);
    }
  }

  /**
   Once every process of an incident is dead, a pass begun after that whose probes take none
   of them for alive closes every open intent and ledger row of it, and takes it out of
   running unless it read one of its running rows beside a terminal record.
   */
  lemma OrphanIsReclaimed(actions: seq<Action>, start: State, more: seq<Action>, s: State, k: PassId, i: IncidentId)
    requires Reaches(actions, start) && Gone(start, i) && k !in start.passes
    requires Leads(start, more, s, k, i) && Enabled(s, Reconcile(k))
    ensures Closed(Step(s, Reconcile(k)), i)
    ensures !ReadFinished(s, s.passes[k], i) ==> i !in Step(s, Reconcile(k)).running
  {
    ReachableSound(actions, start);
    PassSeesItGone(start, more, s, k, i);
    GoneIsClosed(s, k, i);
    if !ReadFinished(s, s.passes[k], i) {
      GoneIsReclaimed(s, k, i);
    }
  }

  // ----- a second pass leaves no exception -----

  lemma ClosedStays(s: State, a: Action, i: IncidentId)
    requires Inv(s) && Gone(s, i) && Closed(s, i) && Enabled(s, a) && !(a.CreateIntent? && a.incident == i)
    ensures Closed(Step(s, a), i)
  {
    var next := Step(s, a);
    forall r | r in next.runs && next.runs[r].incident == i
      ensures !IntentActive(next.runs[r]) && next.runs[r].ledger != Some(LedgerRunning)
    {
      GoneRunStep(s, a, i, r);
    }
  }

  ghost predicate NoRowsRead(s: State, k: PassId, i: IncidentId) {
    forall r :: r in PassOf(s, k).rows && r in s.runs ==> s.runs[r].incident != i
  }

  lemma NoRowsReadStep(s: State, a: Action, k: PassId, i: IncidentId)
    requires Sound(s) && Gone(s, i) && Closed(s, i) && NoRowsRead(s, k, i) && Phased(PassOf(s, k))
    requires Enabled(s, a) && !(a.CreateIntent? && a.incident == i)
    ensures NoRowsRead(Step(s, a), k, i)
  {
    forall r | r in PassOf(Step(s, a), k).rows && r in Step(s, a).runs ensures Step(s, a).runs[r].incident != i {
      RowsGrow(s, a, k, r);
      if Step(s, a).runs[r].incident == i {
        GoneRunStep(s, a, i, r);
      }
    }
  }

  lemma {:induction false} ClosedReadsNoRows(start: State, actions: seq<Action>, s: State, k: PassId, i: IncidentId)
    requires Sound(start) && Gone(start, i) && Closed(start, i) && k !in start.passes
    requires Leads(start, actions, s, k, i)
    ensures Closed(s, i) && NoRowsRead(s, k, i)
  {
    if actions != [] {
      var n := |actions| - 1;
      var before :| Leads(start, actions[..n], before, k, i) && Enabled(before, actions[n])
                    && Undisturbed(before, actions[n], k, i) && s == Step(before, actions[n]);
      ClosedReadsNoRows(start, actions[..n], before, k, i);
      PassSeesItGone(start, actions[..n], before, k, i);
      ClosedStays(before, actions[n], i);
      NoRowsReadStep(before, actions[n], k, i);
    }
  }

  /** The commit of a pass begun after every process of the incident died. */
  lemma FirstPassCloses(start: State, more: seq<Action>, s: State, k: PassId, i: IncidentId)
    requires Sound(start) && Gone(start, i) && k !in start.passes
    requires Leads(start, more, s, k, i) && Enabled(s, Reconcile(k))
    ensures var next := Step(s, Reconcile(k)); Sound(next) && Gone(next, i) && Closed(next, i)
  {
    PassSeesItGone(start, more, s, k, i);
    SoundStep(s, Reconcile(k));
    GoneStays(s, Reconcile(k), i);
    GoneIsClosed(s, k, i);
  }

  /** After two such passes, one after the other, the incident is not running, whatever records they read. */
  lemma TwoPassesReclaimOrphan(actions: seq<Action>, start: State, first: seq<Action>, middle: State, k1: PassId,
                               second: seq<Action>, s: State, k2: PassId, i: IncidentId)
    requires Reaches(actions, start) && Gone(start, i) && k1 !in start.passes
    requires Leads(start, first, middle, k1, i) && Enabled(middle, Reconcile(k1))
    requires k2 !in Step(middle, Reconcile(k1)).passes
    requires Leads(Step(middle, Reconcile(k1)), second, s, k2, i) && Enabled(s, Reconcile(k2))
    ensures i !in Step(s, Reconcile(k2)).running
  {
    var next := Step(middle, Reconcile(k1));
    ReachableSound(actions, start);
    FirstPassCloses(start, first, middle, k1, i);
    PassSeesItGone(next, second, s, k2, i);
    ClosedReadsNoRows(next, second, s, k2, i);
    GoneIsReclaimed(s, k2, i);
  }

  // ----- the exact condition -----

  /** A ledger row was read with no terminal record and with nothing behind it. */
  predicate ReadUnbacked(pass: Pass, r: RunId) {
    r in pass.rows && r !in pass.busy && (r in pass.seen ==> pass.seen[r].status != FileTerminal)
  }

  predicate ReadSettled(pass: Pass, r: RunId) {
    r in pass.rows && r in pass.seen && pass.seen[r].status == FileTerminal
  }

  lemma SpokenForIff(runs: map<RunId, Run>, pass: Pass, i: IncidentId)
    ensures SpokenFor(runs, pass, i)
            <==> exists r :: r in runs && runs[r].incident == i
                             && (r in pass.shielded || ReadUnbacked(pass, r) || ReadSettled(pass, r))
  {
    if SpokenFor(runs, pass, i) {
      var r :| r in runs && runs[r].incident == i && Speaks(pass, r);
      assert r in pass.shielded || ReadUnbacked(pass, r) || ReadSettled(pass, r);
    }
    if r :| r in runs && runs[r].incident == i
            && (r in pass.shielded || ReadUnbacked(pass, r) || ReadSettled(pass, r)) {
      assert Speaks(pass, r);
    }
  }

  /**
   The incident was read as a claim, no record read for it named a process reported alive, no
   intent of it was found covering, and none of its rows was settled or unbacked.
   */
  ghost predicate ReadAbandoned(actions: seq<Action>, s: State, k: PassId, i: IncidentId)
    requires k in s.passes
  {
    var pass := s.passes[k];
    && i in pass.claims && !Happened(actions, (b, a) => FindsWorker(b, a, k, i))
    && forall r :: r in s.runs && s.runs[r].incident == i ==>
         r !in pass.shielded && !ReadUnbacked(pass, r) && !ReadSettled(pass, r)
  }

  lemma AbandonedIff(actions: seq<Action>, s: State, k: PassId, i: IncidentId)
    requires Reaches(actions, s) && k in s.passes
    ensures Abandoned(s.runs, s.passes[k], i) <==> ReadAbandoned(actions, s, k, i)
  {
    PassRemembers(actions, s, k, 0, RunFile(FileRunning, 0, false), PreSpawn, i);
    SpokenForIff(s.runs, s.passes[k], i);
  }

  /**
   For every incident, with or without a live worker, the commit takes it out of running
   exactly when one of its ledger rows was read with nothing behind it, or the claim was read
   as abandoned.  It puts none in.
   */
  lemma ReclaimedIff(actions: seq<Action>, s: State, k: PassId, i: IncidentId)
    requires Reaches(actions, s) && Enabled(s, Reconcile(k)) && i in s.running
    ensures i !in Step(s, Reconcile(k)).running
            <==> || (exists r :: r in s.runs && s.runs[r].incident == i && ReadUnbacked(s.passes[k], r))
                 || ReadAbandoned(actions, s, k, i)
    ensures Step(s, Reconcile(k)).running <= s.running
  {
    var pass := s.passes[k];
    AbandonedIff(actions, s, k, i);
    forall r ensures ReadUnbacked(pass, r) <==> DeadRow(pass, r) {
    }
  }

  /** The pass goes on to mark exactly the records it read whose row had nothing behind it or whose claim it gave up. */
  lemma OrphanedRecordsIff(actions: seq<Action>, s: State, k: PassId, r: RunId)
    requires Reaches(actions, s) && Enabled(s, Reconcile(k)) && r in s.runs
    ensures r in Step(s, Reconcile(k)).passes[k].writes
            <==> && r in s.passes[k].seen
                 && (|| ReadUnbacked(s.passes[k], r)
                     || (s.passes[k].seen[r].status == FileRunning
                         && ReadAbandoned(actions, s, k, s.runs[r].incident)))
  {
    AbandonedIff(actions, s, k, s.runs[r].incident);
  }
}
