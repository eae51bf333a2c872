/** What a reconcile pass remembers is what it read, and what its probes answered when it made them. */
module SpawnMemory {
  import opened Common
  import opened SpawnProtocol
  import opened SpawnSafety

  // ----- what happened in a run -----

  lemma {:induction false} ReachesUnique(actions: seq<Action>, s: State, t: State)
    requires Reaches(actions, s) && Reaches(actions, t)
    ensures s == t
  {
    if actions != [] {
      var n := |actions| - 1;
      var b :| Reaches(actions[..n], b) && Enabled(b, actions[n]) && s == Step(b, actions[n]);
      var c :| Reaches(actions[..n], c) && Enabled(c, actions[n]) && t == Step(c, actions[n]);
      ReachesUnique(actions[..n], b, c);
    }
  }

  /** Some step of the run was taken in a state of the given kind. */
  ghost predicate Happened(actions: seq<Action>, kind: (State, Action) -> bool) {
    exists n, before :: 0 <= n < |actions| && Reaches(actions[..n], before) && kind(before, actions[n])
  }

  lemma HappenedSnoc(actions: seq<Action>, s: State, a: Action, kind: (State, Action) -> bool)
    requires Reaches(actions, s)
    ensures Happened(actions + [a], kind) <==> Happened(actions, kind) || kind(s, a)
  {
    var longer := actions + [a];
    if Happened(actions, kind) {
      var n, before :| 0 <= n < |actions| && Reaches(actions[..n], before) && kind(before, actions[n]);
      assert longer[..n] == actions[..n] && longer[n] == actions[n];
    }
    if kind(s, a) {
      assert longer[..|actions|] == actions && longer[|actions|] == a;
    }
    if Happened(longer, kind) {
      var n, before :| 0 <= n < |longer| && Reaches(longer[..n], before) && kind(before, longer[n]);
      assert longer[..n] == actions[..n];
      if n == |actions| {
        assert actions[..n] == actions;
        ReachesUnique(actions, s, before);
      }
    }
  }

  // ----- reads and probes -----

  /** What the pass remembers, nothing before it begins. */
  function PassOf(s: State, k: PassId): Pass {
    if k in s.passes then s.passes[k] else BLANK
  }

  /** The record of the run was read and stood so. */
  predicate ReadsRecord(b: State, a: Action, k: PassId, r: RunId, file: RunFile) {
    a == ReadRecord(k, r, true) && r in b.runs && b.runs[r].file == Some(file)
  }

  /** The open intents were read, this one among them. */
  predicate ReadsIntent(b: State, a: Action, k: PassId, r: RunId, intent: Intent) {
    a == ReadIntents(k) && r in b.runs && b.runs[r].intent == intent && (intent.PreSpawn? || intent.ChildStarted?)
  }

  /** An intent as read covers a spawn under way: its lock is held, it is young, or its owner or worker is reported. */
  predicate Covers(run: Run, intent: Intent, reported: set<Pid>, young: bool) {
    || young || run.owner in reported || (intent.ChildStarted? && intent.pid in reported)
    || (run.linked && run.locked && (run.ownerFd || run.childFd))
  }

  predicate FindsCover(b: State, a: Action, k: PassId, r: RunId) {
    && a.ProbeIntent? && a.k == k && a.r == r && r in b.runs && r in PassOf(b, k).intents
    && Covers(b.runs[r], PassOf(b, k).intents[r], a.reported, a.young)
  }

  predicate ReadsRow(b: State, a: Action, k: PassId, r: RunId) {
    a == ReadRows(k) && r in b.runs && b.runs[r].ledger == Some(LedgerRunning)
  }

  /** Behind the row stands a record naming a reported process, or an intent that covers. */
  predicate FindsBacking(b: State, a: Action, k: PassId, r: RunId) {
    && a.ProbeRow? && a.k == k && a.r == r && r in b.runs
    && (|| (r in PassOf(b, k).seen && PassOf(b, k).seen[r].pid in a.reported)
        || (r in PassOf(b, k).intents && Covers(b.runs[r], PassOf(b, k).intents[r], a.reported, a.young)))
  }

  predicate ReadsClaim(b: State, a: Action, k: PassId, i: IncidentId) {
    a == ReadClaims(k) && i in b.running
  }

  /** A running record read for the claim names a process reported alive. */
  ghost predicate FindsWorker(b: State, a: Action, k: PassId, i: IncidentId) {
    && a.WeighClaim? && a.k == k && a.incident == i
    && exists r :: r in b.runs && b.runs[r].incident == i && r in PassOf(b, k).seen
                   && PassOf(b, k).seen[r].status == FileRunning && PassOf(b, k).seen[r].pid in a.reported
  }

  /** What the pass remembers of a run and of an incident is what the reads and probes of the run so far put there. */
  ghost predicate Remembers(actions: seq<Action>, pass: Pass, k: PassId, r: RunId, file: RunFile, intent: Intent,
                            i: IncidentId) {
    && (r in pass.seen && pass.seen[r] == file <==> Happened(actions, (b, a) => ReadsRecord(b, a, k, r, file)))
    && (r in pass.intents && pass.intents[r] == intent
        <==> Happened(actions, (b, a) => ReadsIntent(b, a, k, r, intent)))
    && (r in pass.shielded <==> Happened(actions, (b, a) => FindsCover(b, a, k, r)))
    && (r in pass.rows <==> Happened(actions, (b, a) => ReadsRow(b, a, k, r)))
    && (r in pass.busy <==> Happened(actions, (b, a) => FindsBacking(b, a, k, r)))
    && (i in pass.claims <==> Happened(actions, (b, a) => ReadsClaim(b, a, k, i)))
    && (i in pass.vouched <==> Happened(actions, (b, a) => FindsWorker(b, a, k, i)))
  }

  /** Each phase begins with nothing read of its own. */
  predicate Phased(pass: Pass) {
    && (pass.phase == Records ==> pass.intents == map[] && pass.todo !! pass.seen.Keys)
    && (pass.phase in {Records, Intents} ==> pass.rows == {})
    && (pass.phase in {Records, Intents, Rows} ==> pass.claims == {})
  }

  lemma OtherStepKeepsPass(s: State, a: Action, k: PassId)
    requires Enabled(s, a) && !(PassAction(a) && a.k == k)
    ensures PassOf(Step(s, a), k) == PassOf(s, k)
  {
    if !PassAction(a) {
      OtherStepKeepsPasses(s, a);
    } else if k in Step(s, a).passes {
      PassStepKeepsOthers(s, a, k);
    }
  }

  lemma PhasedStep(s: State, a: Action, k: PassId)
    requires Enabled(s, a) && Phased(PassOf(s, k))
    ensures Phased(PassOf(Step(s, a), k))
  {
    if !(PassAction(a) && a.k == k) {
      OtherStepKeepsPass(s, a, k);
    }
  }

  /** A phase is entered by its read. */
  lemma PhaseStep(s: State, a: Action, k: PassId)
    requires Enabled(s, a)
    ensures var before, after := PassOf(s, k).phase, PassOf(Step(s, a), k).phase;
            && (after in {Intents, Rows, Claims} ==> before in {Intents, Rows, Claims} || a == ReadIntents(k))
            && (after in {Rows, Claims} ==> before in {Rows, Claims} || a == ReadRows(k))
            && (after == Claims ==> before == Claims || a == ReadClaims(k))
  {
    if !(PassAction(a) && a.k == k) {
      OtherStepKeepsPass(s, a, k);
    }
  }

  lemma SeenKept(s: State, a: Action, k: PassId)
    requires Enabled(s, a) && !((a.ListRecords? || a.ReadRecord?) && a.k == k)
    ensures PassOf(Step(s, a), k).seen == PassOf(s, k).seen
  {
    if !(PassAction(a) && a.k == k) {
      OtherStepKeepsPass(s, a, k);
    }
  }

  lemma SeenGrows(s: State, a: Action, k: PassId, r: RunId, file: RunFile)
    requires Enabled(s, a) && Phased(PassOf(s, k))
    ensures var next := PassOf(Step(s, a), k);
            r in next.seen && next.seen[r] == file
            <==> (r in PassOf(s, k).seen && PassOf(s, k).seen[r] == file) || ReadsRecord(s, a, k, r, file)
  {
    if !((a.ListRecords? || a.ReadRecord?) && a.k == k) {
      SeenKept(s, a, k);
    }
  }

  lemma IntentsKept(s: State, a: Action, k: PassId)
    requires Enabled(s, a) && !((a.ListRecords? || a.ReadIntents?) && a.k == k)
    ensures PassOf(Step(s, a), k).intents == PassOf(s, k).intents
  {
    if !(PassAction(a) && a.k == k) {
      OtherStepKeepsPass(s, a, k);
    }
  }

  lemma IntentsGrow(s: State, a: Action, k: PassId, r: RunId, intent: Intent)
    requires Enabled(s, a) && Phased(PassOf(s, k))
    ensures var next := PassOf(Step(s, a), k);
            r in next.intents && next.intents[r] == intent
            <==> (r in PassOf(s, k).intents && PassOf(s, k).intents[r] == intent) || ReadsIntent(s, a, k, r, intent)
  {
    if !((a.ListRecords? || a.ReadIntents?) && a.k == k) {
      IntentsKept(s, a, k);
    }
  }

  lemma CoversIsShields(run: Run, intent: Intent, reported: set<Pid>, young: bool)
    ensures Covers(run, intent, reported, young) <==> Shields(run, intent, reported, young)
  {
  }

  lemma ShieldedGrows(s: State, a: Action, k: PassId, r: RunId)
    requires Enabled(s, a)
    ensures r in PassOf(Step(s, a), k).shielded <==> r in PassOf(s, k).shielded || FindsCover(s, a, k, r)
  {
    if !(PassAction(a) && a.k == k) {
      OtherStepKeepsPass(s, a, k);
    } else if a.ProbeIntent? {
      CoversIsShields(s.runs[a.r], s.passes[k].intents[a.r], a.reported, a.young);
    }
  }

  lemma RowsKept(s: State, a: Action, k: PassId)
    requires Enabled(s, a) && !((a.ListRecords? || a.ReadRows?) && a.k == k)
    ensures PassOf(Step(s, a), k).rows == PassOf(s, k).rows
  {
    if !(PassAction(a) && a.k == k) {
      OtherStepKeepsPass(s, a, k);
    }
  }

  lemma RowsGrow(s: State, a: Action, k: PassId, r: RunId)
    requires Enabled(s, a) && Phased(PassOf(s, k))
    ensures r in PassOf(Step(s, a), k).rows <==> r in PassOf(s, k).rows || ReadsRow(s, a, k, r)
  {
    if !((a.ListRecords? || a.ReadRows?) && a.k == k) {
      RowsKept(s, a, k);
    }
  }

  lemma BusyGrows(s: State, a: Action, k: PassId, r: RunId)
    requires Enabled(s, a)
    ensures r in PassOf(Step(s, a), k).busy <==> r in PassOf(s, k).busy || FindsBacking(s, a, k, r)
  {
    if !(PassAction(a) && a.k == k) {
      OtherStepKeepsPass(s, a, k);
    } else if a.ProbeRow? && a.r in s.passes[k].intents {
      CoversIsShields(s.runs[a.r], s.passes[k].intents[a.r], a.reported, a.young);
    }
  }

  lemma ClaimsGrow(s: State, a: Action, k: PassId, i: IncidentId)
    requires Enabled(s, a) && Phased(PassOf(s, k))
    ensures i in PassOf(Step(s, a), k).claims <==> i in PassOf(s, k).claims || ReadsClaim(s, a, k, i)
  {
    if !(PassAction(a) && a.k == k) {
      OtherStepKeepsPass(s, a, k);
    }
  }

  lemma VouchedGrows(s: State, a: Action, k: PassId, i: IncidentId)
    requires Enabled(s, a)
    ensures i in PassOf(Step(s, a), k).vouched <==> i in PassOf(s, k).vouched || FindsWorker(s, a, k, i)
  {
    if !(PassAction(a) && a.k == k) {
      OtherStepKeepsPass(s, a, k);
    }
  }

  lemma ReadsRemembered(actions: seq<Action>, s: State, a: Action, k: PassId, r: RunId, file: RunFile, intent: Intent,
                        i: IncidentId)
    requires Reaches(actions, s) && Enabled(s, a) && Phased(PassOf(s, k))
    requires Remembers(actions, PassOf(s, k), k, r, file, intent, i)
    ensures var pass, longer := PassOf(Step(s, a), k), actions + [a];
            && (r in pass.seen && pass.seen[r] == file <==> Happened(longer, (b, a) => ReadsRecord(b, a, k, r, file)))
            && (r in pass.intents && pass.intents[r] == intent
                <==> Happened(longer, (b, a) => ReadsIntent(b, a, k, r, intent)))
            && (r in pass.rows <==> Happened(longer, (b, a) => ReadsRow(b, a, k, r)))
            && (i in pass.claims <==> Happened(longer, (b, a) => ReadsClaim(b, a, k, i)))
  {
    HappenedSnoc(actions, s, a, (b, a) => ReadsRecord(b, a, k, r, file));
    HappenedSnoc(actions, s, a, (b, a) => ReadsIntent(b, a, k, r, intent));
    HappenedSnoc(actions, s, a, (b, a) => ReadsRow(b, a, k, r));
    HappenedSnoc(actions, s, a, (b, a) => ReadsClaim(b, a, k, i));
    SeenGrows(s, a, k, r, file);
    IntentsGrow(s, a, k, r, intent);
    RowsGrow(s, a, k, r);
    ClaimsGrow(s, a, k, i);
  }

  lemma ProbesRemembered(actions: seq<Action>, s: State, a: Action, k: PassId, r: RunId, file: RunFile, intent: Intent,
                         i: IncidentId)
    requires Reaches(actions, s) && Enabled(s, a) && Phased(PassOf(s, k))
    requires Remembers(actions, PassOf(s, k), k, r, file, intent, i)
    ensures var pass, longer := PassOf(Step(s, a), k), actions + [a];
            && (r in pass.shielded <==> Happened(longer, (b, a) => FindsCover(b, a, k, r)))
            && (r in pass.busy <==> Happened(longer, (b, a) => FindsBacking(b, a, k, r)))
            && (i in pass.vouched <==> Happened(longer, (b, a) => FindsWorker(b, a, k, i)))
  {
    HappenedSnoc(actions, s, a, (b, a) => FindsCover(b, a, k, r));
    HappenedSnoc(actions, s, a, (b, a) => FindsBacking(b, a, k, r));
    HappenedSnoc(actions, s, a, (b, a) => FindsWorker(b, a, k, i));
    ShieldedGrows(s, a, k, r);
    BusyGrows(s, a, k, r);
    VouchedGrows(s, a, k, i);
  }

  lemma RemembersNothing(k: PassId, r: RunId, file: RunFile, intent: Intent, i: IncidentId)
    ensures Remembers([], PassOf(INIT, k), k, r, file, intent, i) && Phased(PassOf(INIT, k))
  {
  }

  lemma RemembersStep(actions: seq<Action>, s: State, a: Action, k: PassId, r: RunId, file: RunFile, intent: Intent,
                      i: IncidentId)
    requires Reaches(actions, s) && Enabled(s, a) && Phased(PassOf(s, k))
    requires Remembers(actions, PassOf(s, k), k, r, file, intent, i)
    ensures Remembers(actions + [a], PassOf(Step(s, a), k), k, r, file, intent, i) && Phased(PassOf(Step(s, a), k))
  {
    PhasedStep(s, a, k);
    ReadsRemembered(actions, s, a, k, r, file, intent, i);
    ProbesRemembered(actions, s, a, k, r, file, intent, i);
  }

  /**
   In every reachable state a pass remembers exactly the records, open intents, running
   ledger rows and claims as they stood at the step that read them, and has found covered,
   backed or vouched for exactly what was so when it was probed.
   */
  lemma {:induction false} PassRemembers(actions: seq<Action>, s: State, k: PassId, r: RunId, file: RunFile,
                                         intent: Intent, i: IncidentId)
    requires Reaches(actions, s)
    ensures Remembers(actions, PassOf(s, k), k, r, file, intent, i) && Phased(PassOf(s, k))
  {
    if actions == [] {
      RemembersNothing(k, r, file, intent, i);
    } else {
      var n := |actions| - 1;
      var before :| Reaches(actions[..n], before) && Enabled(before, actions[n]) && s == Step(before, actions[n]);
      PassRemembers(actions[..n], before, k, r, file, intent, i);
      RemembersStep(actions[..n], before, actions[n], k, r, file, intent, i);
      assert actions[..n] + [actions[n]] == actions;
    }
  }
}
