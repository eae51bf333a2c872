/**
 Spawning one worker run, as a state machine over its durable and kernel steps:
 spawn intent, lock or witness file, workspace writer lease, child process, run
 record, model ledger.  Any process may die between any two steps.
 */
module SpawnProtocol {
  import opened Common

  /** Process identities are never reused; reuse shows up as over-reported liveness. */
  type Pid = nat
  type RunId = nat
  type Cwd = string
  type IncidentId = string

  /** Where the owner stands in the spawn sequence. */
  datatype Pc =
    | Intended | Locked | Ready | Spawned | Marked | Bound | Filed | Ledgered | Persisted | Returned | Aborting

  datatype Intent = PreSpawn | ChildStarted(pid: Pid) | IntentPersisted | IntentFailed

  datatype FileStatus = FileRunning | FileTerminal | SpawnFailed

  /** The run record on disk. */
  datatype RunFile = RunFile(status: FileStatus, pid: Pid, finalized: bool)

  datatype LedgerStatus = LedgerRunning | LedgerClosed

  /**
   One run: who owns it and what it left in the database, on disk and in the kernel.
   `locked` is the lock on the open file description, `ownerFd` and `childFd` say who
   still has that description open, `linked` whether the path still names its inode.
   */
  datatype Run = Run(
    owner: Pid,
    incident: IncidentId,
    cwd: Cwd,
    writer: bool,
    controller: bool,
    pc: Pc,
    child: Option<Pid>,
    intent: Intent,
    ownerFd: bool,
    childFd: bool,
    locked: bool,
    linked: bool,
    file: Option<RunFile>,
    ledger: Option<LedgerStatus>)

  datatype Lease = Lease(run: RunId, owner: Pid, child: Option<Pid>)

  type PassId = nat

  /** Where a reconcile pass stands; each phase begins with one read of a table or directory. */
  datatype Phase = Records | Intents | Rows | Claims | Committed

  /**
   What one reconcile pass has observed so far.  `todo` and `unweighed` are what the
   present phase has still to look at: `seen` the run records read, `intents` the open
   intents as read and `shielded` those found to cover a spawn under way, `rows` the
   running ledger rows as read and `busy` those with something behind them, `claims` the
   running incidents as read and `vouched` those with a live process among their records.
   `writes` are the records it still has to mark orphaned after its commit.
   */
  datatype Pass = Pass(
    phase: Phase,
    todo: set<RunId>,
    seen: map<RunId, RunFile>,
    intents: map<RunId, Intent>,
    shielded: set<RunId>,
    rows: set<RunId>,
    busy: set<RunId>,
    claims: set<IncidentId>,
    unweighed: set<IncidentId>,
    vouched: set<IncidentId>,
    writes: set<RunId>)

  /** What a pass remembers before it has read anything. */
  const BLANK := Pass(Records, {}, map[], map[], {}, {}, {}, {}, {}, {}, {})

  datatype State = State(
    runs: map<RunId, Run>,
    leases: map<Cwd, Lease>,
    alive: set<Pid>,
    used: set<Pid>,
    running: set<IncidentId>,
    passes: map<PassId, Pass>)

  const INIT := State(map[], map[], {}, {}, {}, map[])

  function LeaseAt(s: State, cwd: Cwd): Option<Lease> {
    if cwd in s.leases then Some(s.leases[cwd]) else None
  }

  predicate IntentActive(run: Run) {
    run.intent.PreSpawn? || run.intent.ChildStarted?
  }

  predicate ChildAlive(run: Run, alive: set<Pid>) {
    run.child.Some? && run.child.value in alive
  }

  /** Nothing of this run will write again. */
  predicate Over(run: Run, alive: set<Pid>) {
    !ChildAlive(run, alive) && (run.pc == Aborting || run.child.Some?)
  }

  predicate Finalized(run: Run) {
    run.file.Some? && run.file.value.finalized
  }

  /** The probe opens the path, creating it if missing, and tries the lock. */
  predicate LockHeld(run: Run) {
    run.linked && run.locked && (run.ownerFd || run.childFd)
  }

  predicate Recorded(pid: Option<Pid>, reported: set<Pid>) {
    pid.Some? && pid.value in reported
  }

  /** Whether the lease found in the row must be respected, as far as the prober can tell. */
  predicate LeaseBusy(s: State, lease: Lease, reported: set<Pid>)
    requires lease.run in s.runs
  {
    var ownerAlive := lease.owner in reported;
    || (!ownerAlive && LockHeld(s.runs[lease.run]))
    || Recorded(lease.child, reported)
    || (ownerAlive && !Finalized(s.runs[lease.run]))
  }

  // ----- reclaiming orphaned incidents -----

  /** An intent, as read, still covers a spawn: lock, owner or recorded child alive, or within the ambiguity window. */
  predicate Shields(run: Run, intent: Intent, reported: set<Pid>, young: bool) {
    || LockHeld(run) || run.owner in reported || young
    || (intent.ChildStarted? && intent.pid in reported)
  }

  /** A ledger row whose run record is already terminal. */
  predicate SettledLedger(run: Run) {
    run.ledger == Some(LedgerRunning) && run.file.Some? && run.file.value.status == FileTerminal
  }

  predicate RunningFile(run: Run) {
    run.file.Some? && run.file.value.status == FileRunning
  }

  /** A ledger row the pass read beside a terminal record. */
  predicate SettledRow(pass: Pass, r: RunId) {
    r in pass.rows && r in pass.seen && pass.seen[r].status == FileTerminal
  }

  /** A ledger row the pass read with nothing behind it: no terminal record, no process, no spawn under way. */
  predicate DeadRow(pass: Pass, r: RunId) {
    r in pass.rows && r !in pass.busy && !SettledRow(pass, r)
  }

  /** Another source speaks for the claim, or has already decided it. */
  predicate Speaks(pass: Pass, r: RunId) {
    r in pass.shielded || SettledRow(pass, r) || DeadRow(pass, r)
  }

  ghost predicate SpokenFor(runs: map<RunId, Run>, pass: Pass, i: IncidentId) {
    exists r :: r in runs && runs[r].incident == i && Speaks(pass, r)
  }

  /** A claim given up because no intent, no ledger row and no record of a live process speaks for it. */
  ghost predicate Abandoned(runs: map<RunId, Run>, pass: Pass, i: IncidentId) {
    i in pass.claims && i !in pass.vouched && !SpokenFor(runs, pass, i)
  }

  ghost predicate HasDeadRow(runs: map<RunId, Run>, pass: Pass, i: IncidentId) {
    exists r :: r in runs && runs[r].incident == i && DeadRow(pass, r)
  }

  /** Whether the pass's commit moves the incident from running to retry-pending. */
  ghost predicate Reclaims(runs: map<RunId, Run>, pass: Pass, i: IncidentId) {
    HasDeadRow(runs, pass, i) || Abandoned(runs, pass, i)
  }

  /** A running record of a claim the pass gives up. */
  ghost predicate GivenUp(runs: map<RunId, Run>, pass: Pass, r: RunId)
    requires r in runs
  {
    r in pass.seen && pass.seen[r].status == FileRunning && Abandoned(runs, pass, runs[r].incident)
  }

  /** Ledger rows the commit closes, if they are still running. */
  ghost predicate Closes(runs: map<RunId, Run>, pass: Pass, r: RunId)
    requires r in runs
  {
    DeadRow(pass, r) || SettledRow(pass, r) || GivenUp(runs, pass, r)
  }

  /** Records the pass marks orphaned once its commit is through. */
  ghost predicate Orphans(runs: map<RunId, Run>, pass: Pass, r: RunId)
    requires r in runs
  {
    r in pass.seen && (DeadRow(pass, r) || GivenUp(runs, pass, r))
  }

  /** What a pass's commit does to one run's intent and ledger row; both updates ask for the state they expect. */
  function CommittedRun(run: Run, expires: bool, closes: bool): Run {
    run.(intent := if expires && IntentActive(run) then IntentFailed else run.intent,
         ledger := if closes && run.ledger == Some(LedgerRunning) then Some(LedgerClosed) else run.ledger)
  }

  /** The runs with a record on disk. */
  function Listed(s: State): set<RunId> {
    set r | r in s.runs && s.runs[r].file.Some?
  }

  function OpenIntents(s: State): map<RunId, Intent> {
    map r | r in s.runs && IntentActive(s.runs[r]) :: s.runs[r].intent
  }

  function RunningRows(s: State): set<RunId> {
    set r | r in s.runs && s.runs[r].ledger == Some(LedgerRunning)
  }

  /** Whether anything read or probed stands behind a ledger row. */
  predicate Backed(run: Run, pass: Pass, r: RunId, reported: set<Pid>, young: bool) {
    || (r in pass.seen && pass.seen[r].pid in reported)
    || (r in pass.intents && Shields(run, pass.intents[r], reported, young))
  }

  ghost predicate HasLiveRecord(runs: map<RunId, Run>, pass: Pass, i: IncidentId, reported: set<Pid>) {
    exists r :: r in runs && runs[r].incident == i
                && r in pass.seen && pass.seen[r].status == FileRunning && pass.seen[r].pid in reported
  }

  // ----- steps -----

  datatype Action =
    | Start(pid: Pid)
    | Exit(pid: Pid)
    | CreateIntent(r: RunId, owner: Pid, incident: IncidentId, cwd: Cwd, writer: bool, controller: bool)
    | TakeLock(r: RunId)
    | AcquireLease(r: RunId, reported: set<Pid>)
    | Popen(r: RunId, pid: Pid)
    | MarkChild(r: RunId)
    | BindChild(r: RunId)
    | WriteRun(r: RunId)
    | WriteLedger(r: RunId)
    | PersistIntent(r: RunId)
    | ReleaseWitness(r: RunId)
    | Abort(r: RunId)
    | FailIntent(r: RunId)
    | FailRun(r: RunId)
    | FinishRun(r: RunId)
    | FinishLedger(r: RunId)
    | Finalize(r: RunId)
    | DropLease(r: RunId)
    | DropLock(r: RunId, unlock: bool)
    | Claim(incident: IncidentId)
    | Unclaim(incident: IncidentId)
    | ListRecords(k: PassId)
    | ReadRecord(k: PassId, r: RunId, readable: bool)
    | ReadIntents(k: PassId)
    | ProbeIntent(k: PassId, r: RunId, reported: set<Pid>, young: bool)
    | ReadRows(k: PassId)
    | ProbeRow(k: PassId, r: RunId, reported: set<Pid>, young: bool)
    | ReadClaims(k: PassId)
    | WeighClaim(k: PassId, incident: IncidentId, reported: set<Pid>)
    | Reconcile(k: PassId)
    | WriteOrphan(k: PassId, r: RunId)

  /** The owner is alive and its run stands at `pc`. */
  predicate OwnerAt(s: State, r: RunId, pc: Pc) {
    r in s.runs && s.runs[r].owner in s.alive && s.runs[r].pc == pc
  }

  predicate IsOver(s: State, r: RunId) {
    r in s.runs && Over(s.runs[r], s.alive)
  }

  predicate PassAt(s: State, k: PassId, phase: Phase) {
    k in s.passes && s.passes[k].phase == phase
  }

  /** When a step can happen; `reported` always contains every process that is really alive. */
  ghost predicate Enabled(s: State, a: Action) {
    match a
    case Start(pid) => pid !in s.used
    case Exit(_) => true
    case CreateIntent(r, owner, _, _, _, _) => r !in s.runs && owner in s.alive
    case TakeLock(r) => OwnerAt(s, r, Intended)
    case AcquireLease(r, reported) =>
      && OwnerAt(s, r, Locked) && s.runs[r].writer && s.alive <= reported
      && (s.runs[r].cwd in s.leases ==>
            s.leases[s.runs[r].cwd].run in s.runs && !LeaseBusy(s, s.leases[s.runs[r].cwd], reported))
    case Popen(r, pid) => OwnerAt(s, r, Ready) && pid !in s.used
    case MarkChild(r) => OwnerAt(s, r, Spawned) && s.runs[r].child.Some? && s.runs[r].intent == PreSpawn
    case BindChild(r) =>
      && OwnerAt(s, r, Marked) && s.runs[r].writer
      && s.runs[r].cwd in s.leases && s.leases[s.runs[r].cwd].run == r
      && s.leases[s.runs[r].cwd].owner == s.runs[r].owner
    case WriteRun(r) => OwnerAt(s, r, Bound) && s.runs[r].child.Some?
    case WriteLedger(r) => OwnerAt(s, r, Filed)
    case PersistIntent(r) => OwnerAt(s, r, Ledgered)
    case ReleaseWitness(r) => OwnerAt(s, r, Persisted)
    case Abort(r) => r in s.runs && s.runs[r].owner in s.alive && s.runs[r].pc !in {Returned, Aborting}
    case FailIntent(r) => OwnerAt(s, r, Aborting)
    case FailRun(r) => OwnerAt(s, r, Aborting) && s.runs[r].child.Some?
    case FinishRun(r) => IsOver(s, r) && RunningFile(s.runs[r])
    case FinishLedger(r) => IsOver(s, r) && SettledLedger(s.runs[r])
    case Finalize(r) => IsOver(s, r) && s.runs[r].file.Some?
    case DropLease(r) => IsOver(s, r)
    case DropLock(r, _) => IsOver(s, r)
    case Claim(_) => true
    case Unclaim(_) => true
    case ListRecords(k) => k !in s.passes
    case ReadRecord(k, r, readable) =>
      && PassAt(s, k, Records) && r in s.passes[k].todo
      && (readable ==> r in s.runs && s.runs[r].file.Some?)
    case ReadIntents(k) => PassAt(s, k, Records) && s.passes[k].todo == {}
    case ProbeIntent(k, r, reported, _) =>
      PassAt(s, k, Intents) && r in s.passes[k].todo && r in s.passes[k].intents && r in s.runs && s.alive <= reported
    case ReadRows(k) => PassAt(s, k, Intents) && s.passes[k].todo == {}
    case ProbeRow(k, r, reported, _) =>
      PassAt(s, k, Rows) && r in s.passes[k].todo && r in s.runs && s.alive <= reported
    case ReadClaims(k) => PassAt(s, k, Rows) && s.passes[k].todo == {}
    case WeighClaim(k, i, reported) => PassAt(s, k, Claims) && i in s.passes[k].unweighed && s.alive <= reported
    case Reconcile(k) => PassAt(s, k, Claims) && s.passes[k].unweighed == {}
    case WriteOrphan(k, r) => k in s.passes && r in s.passes[k].writes && r in s.passes[k].seen && r in s.runs
  }

  /** A process that dies closes every descriptor it had. */
  function CloseFds(run: Run, pid: Pid): Run {
    run.(ownerFd := run.ownerFd && run.owner != pid, childFd := run.childFd && run.child != Some(pid))
  }

  function Kill(s: State, pid: Pid): State {
    s.(alive := s.alive - {pid}, runs := map r | r in s.runs :: CloseFds(s.runs[r], pid))
  }

  function SetRun(s: State, r: RunId, run: Run): State {
    s.(runs := s.runs[r := run])
  }

  /** The previous holder's lock file is unlinked when its lease is taken over. */
  function TakeOver(s: State, r: RunId): State
    requires r in s.runs
    requires s.runs[r].cwd in s.leases ==> s.leases[s.runs[r].cwd].run in s.runs
  {
    var cwd := s.runs[r].cwd;
    var cleared :=
      if cwd in s.leases then
        SetRun(s, s.leases[cwd].run, s.runs[s.leases[cwd].run].(linked := false))
      else s;
    SetRun(cleared, r, s.runs[r].(pc := Ready)).(leases := s.leases[cwd := Lease(r, s.runs[r].owner, None)])
  }

  /** Steps that write only their own run's records. */
  predicate OwnRecordsAction(a: Action) {
    || a.TakeLock? || a.MarkChild? || a.WriteRun? || a.WriteLedger? || a.PersistIntent? || a.ReleaseWitness?
    || a.FailIntent? || a.FailRun? || a.FinishRun? || a.FinishLedger? || a.Finalize? || a.DropLock?
  }

  function OwnRecords(run: Run, a: Action): Run
    requires OwnRecordsAction(a)
    requires a.MarkChild? || a.WriteRun? || a.FailRun? ==> run.child.Some?
    requires a.FinishRun? || a.Finalize? ==> run.file.Some?
  {
    match a
    case TakeLock(_) =>
      run.(pc := if run.writer then Locked else Ready, ownerFd := true, locked := true, linked := true)
    case MarkChild(_) => run.(pc := if run.writer then Marked else Bound, intent := ChildStarted(run.child.value))
    case WriteRun(_) =>
      run.(pc := if run.controller then Ledgered else Filed,
           file := Some(RunFile(FileRunning, run.child.value, false)))
    case WriteLedger(_) => run.(pc := Ledgered, ledger := Some(LedgerRunning))
    case PersistIntent(_) =>
      run.(pc := if run.writer then Returned else Persisted,
           intent := if IntentActive(run) then IntentPersisted else run.intent)
    case ReleaseWitness(_) => run.(pc := Returned, ownerFd := false, locked := false, linked := false)
    case FailIntent(_) => run.(intent := if IntentActive(run) then IntentFailed else run.intent)
    case FailRun(_) => run.(file := Some(RunFile(SpawnFailed, run.child.value, true)))
    case FinishRun(_) => run.(file := Some(run.file.value.(status := FileTerminal)))
    case FinishLedger(_) => run.(ledger := Some(LedgerClosed))
    case Finalize(_) => run.(file := Some(run.file.value.(finalized := true)))
    case DropLock(_, unlock) =>
      if unlock then run.(ownerFd := false, locked := false, linked := false) else run.(linked := false)
  }

  function SetPass(s: State, k: PassId, pass: Pass): State {
    s.(passes := s.passes[k := pass])
  }

  /** An intent that covers nothing any more has its witness file unlinked at once. */
  function Probed(s: State, k: PassId, r: RunId, reported: set<Pid>, young: bool): State
    requires k in s.passes && r in s.passes[k].intents && r in s.runs
  {
    var pass := s.passes[k];
    if Shields(s.runs[r], pass.intents[r], reported, young)
    then SetPass(s, k, pass.(todo := pass.todo - {r}, shielded := pass.shielded + {r}))
    else SetPass(SetRun(s, r, s.runs[r].(linked := false)), k, pass.(todo := pass.todo - {r}))
  }

  /** The one database commit of a pass, on what it observed before. */
  ghost function Commit(s: State, k: PassId): State
    requires k in s.passes
  {
    var pass := s.passes[k];
    State(map r | r in s.runs ::
            CommittedRun(s.runs[r], r in pass.intents && r !in pass.shielded, Closes(s.runs, pass, r)),
          s.leases, s.alive, s.used,
          (set i | i in s.running && !Reclaims(s.runs, pass, i)),
          s.passes[k := pass.(phase := Committed, writes := (set r | r in s.runs && Orphans(s.runs, pass, r)))])
  }

  ghost function Step(s: State, a: Action): State
    requires Enabled(s, a)
  {
    match a
    case Start(pid) => s.(alive := s.alive + {pid}, used := s.used + {pid})
    case Exit(pid) => Kill(s, pid)
    case CreateIntent(r, owner, incident, cwd, writer, controller) =>
      SetRun(s, r, Run(owner, incident, cwd, writer, controller, Intended, None, PreSpawn,
                       false, false, false, false, None, None))
    case AcquireLease(r, _) => TakeOver(s, r)
    case Popen(r, pid) =>
      SetRun(s, r, s.runs[r].(pc := Spawned, child := Some(pid), childFd := true))
      .(alive := s.alive + {pid}, used := s.used + {pid})
    case BindChild(r) =>
      SetRun(s, r, s.runs[r].(pc := Bound))
      .(leases := s.leases[s.runs[r].cwd := s.leases[s.runs[r].cwd].(child := s.runs[r].child)])
    case Abort(r) =>
      var killed := if s.runs[r].child.Some? then Kill(s, s.runs[r].child.value) else s;
      SetRun(killed, r, killed.runs[r].(pc := Aborting))
    case DropLease(r) =>
      var cwd := s.runs[r].cwd;
      if cwd in s.leases && s.leases[cwd].run == r then s.(leases := s.leases - {cwd}) else s
    case Claim(i) => s.(running := s.running + {i})
    case Unclaim(i) => s.(running := s.running - {i})
    case ListRecords(k) => SetPass(s, k, BLANK.(todo := Listed(s)))
    case ReadRecord(k, r, readable) =>
      var pass := s.passes[k];
      var seen := if readable then pass.seen[r := s.runs[r].file.value] else pass.seen;
      SetPass(s, k, pass.(todo := pass.todo - {r}, seen := seen))
    case ReadIntents(k) =>
      var open := OpenIntents(s);
      SetPass(s, k, s.passes[k].(phase := Intents, todo := open.Keys, intents := open))
    case ProbeIntent(k, r, reported, young) => Probed(s, k, r, reported, young)
    case ReadRows(k) =>
      SetPass(s, k, s.passes[k].(phase := Rows, todo := RunningRows(s), rows := RunningRows(s)))
    case ProbeRow(k, r, reported, young) =>
      var pass := s.passes[k];
      var busy := if Backed(s.runs[r], pass, r, reported, young) then pass.busy + {r} else pass.busy;
      SetPass(s, k, pass.(todo := pass.todo - {r}, busy := busy))
    case ReadClaims(k) =>
      SetPass(s, k, s.passes[k].(phase := Claims, claims := s.running, unweighed := s.running))
    case WeighClaim(k, i, reported) =>
      var pass := s.passes[k];
      var vouched := if HasLiveRecord(s.runs, pass, i, reported) then pass.vouched + {i} else pass.vouched;
      SetPass(s, k, pass.(unweighed := pass.unweighed - {i}, vouched := vouched))
    case Reconcile(k) => Commit(s, k)
    case WriteOrphan(k, r) =>
      var pass := s.passes[k];
      SetRun(s, r, s.runs[r].(file := Some(pass.seen[r].(status := FileTerminal))))
      .(passes := s.passes[k := pass.(writes := pass.writes - {r})])
    case _ => SetRun(s, a.r, OwnRecords(s.runs[a.r], a))
  }

  /** States reached from an empty database by enabled steps. */
  ghost predicate Reaches(actions: seq<Action>, s: State) {
    if actions == [] then s == INIT
    else
      var n := |actions| - 1;
      exists before :: Reaches(actions[..n], before) && Enabled(before, actions[n]) && s == Step(before, actions[n])
  }
}
