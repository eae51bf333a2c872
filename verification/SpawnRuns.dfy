/** Runs in which a reconcile pass has no sight of a live worker and reclaims its incident. */
module SpawnRuns {
  import opened Common
  import opened SpawnProtocol
  import opened SpawnSafety

  lemma ReachesSnoc(actions: seq<Action>, s: State, a: Action)
    requires Reaches(actions, s) && Enabled(s, a)
    ensures Reaches(actions + [a], Step(s, a))
  {
    assert (actions + [a])[..|actions|] == actions;
  }

  /** A database holding one run of one claimed incident, with owner 1. */
  function OneRun(i: IncidentId, run: Run, pids: set<Pid>, passes: map<PassId, Pass>): State {
    State(map[0 := run], map[], pids, pids, {i}, passes)
  }

  lemma ReachesOwnStep(actions: seq<Action>, i: IncidentId, run: Run, pids: set<Pid>, passes: map<PassId, Pass>,
                       a: Action)
    requires Reaches(actions, OneRun(i, run, pids, passes)) && Enabled(OneRun(i, run, pids, passes), a)
    requires OwnRecordsAction(a) && a.r == 0
    ensures Reaches(actions + [a], OneRun(i, OwnRecords(run, a), pids, passes))
  {
    var s := OneRun(i, run, pids, passes);
    ReachesSnoc(actions, s, a);
    assert Step(s, a).runs == map[0 := OwnRecords(run, a)];
  }

  /** A step of pass 0 that changes nothing but the pass. */
  lemma ReachesPassStep(actions: seq<Action>, i: IncidentId, run: Run, pids: set<Pid>, was: Pass, a: Action, pass: Pass)
    requires Reaches(actions, OneRun(i, run, pids, map[0 := was])) && Enabled(OneRun(i, run, pids, map[0 := was]), a)
    requires Step(OneRun(i, run, pids, map[0 := was]), a) == SetPass(OneRun(i, run, pids, map[0 := was]), 0, pass)
    ensures Reaches(actions + [a], OneRun(i, run, pids, map[0 := pass]))
  {
    ReachesSnoc(actions, OneRun(i, run, pids, map[0 := was]), a);
    SetOnlyPass(i, run, pids, was, pass);
  }

  lemma SetOnlyPass(i: IncidentId, run: Run, pids: set<Pid>, was: Pass, pass: Pass)
    ensures SetPass(OneRun(i, run, pids, map[0 := was]), 0, pass) == OneRun(i, run, pids, map[0 := pass])
  {
    assert map[0 := was][0 := pass] == map[0 := pass];
  }

  /** A pass begins while the run has no record yet. */
  lemma PassBegun(actions: seq<Action>, i: IncidentId, run: Run, pids: set<Pid>)
    requires Reaches(actions, OneRun(i, run, pids, map[])) && run.file.None?
    ensures Reaches(actions + [ListRecords(0)], OneRun(i, run, pids, map[0 := BLANK]))
  {
    var s := OneRun(i, run, pids, map[]);
    assert Listed(s) == {};
    ReachesSnoc(actions, s, ListRecords(0));
    assert Step(s, ListRecords(0)).passes == map[0 := BLANK];
  }

  function FreshRun(i: IncidentId, controller: bool): Run {
    Run(1, i, "", false, controller, Intended, None, PreSpawn, false, false, false, false, None, None)
  }

  function StartedRun(i: IncidentId, controller: bool): Run {
    FreshRun(i, controller).(pc := Bound, ownerFd := true, locked := true, linked := true,
                             child := Some(2), childFd := true, intent := ChildStarted(2))
  }

  function SpawnedRun(i: IncidentId, controller: bool): Run {
    StartedRun(i, controller).(pc := Spawned, intent := PreSpawn)
  }

  function LockedRun(i: IncidentId, controller: bool): Run {
    FreshRun(i, controller).(pc := Ready, ownerFd := true, locked := true, linked := true)
  }

  lemma SpawnFromLock(actions: seq<Action>, i: IncidentId, controller: bool, passes: map<PassId, Pass>)
    requires Reaches(actions, OneRun(i, LockedRun(i, controller), {1}, passes))
    ensures Reaches(actions + [Popen(0, 2)], OneRun(i, SpawnedRun(i, controller), {1, 2}, passes))
  {
    var s := OneRun(i, LockedRun(i, controller), {1}, passes);
    ReachesSnoc(actions, s, Popen(0, 2));
    assert Step(s, Popen(0, 2)).runs == map[0 := SpawnedRun(i, controller)];
  }

  /** The owner takes the witness and starts the worker. */
  lemma WorkerSpawned(actions: seq<Action>, i: IncidentId, controller: bool, passes: map<PassId, Pass>)
    returns (longer: seq<Action>)
    requires Reaches(actions, OneRun(i, FreshRun(i, controller), {1}, passes))
    ensures Reaches(longer, OneRun(i, SpawnedRun(i, controller), {1, 2}, passes))
  {
    ReachesOwnStep(actions, i, FreshRun(i, controller), {1}, passes, TakeLock(0));
    SpawnFromLock(actions + [TakeLock(0)], i, controller, passes);
    longer := actions + [TakeLock(0)] + [Popen(0, 2)];
  }

  /** Then it records the worker's process. */
  lemma WorkerStarted(actions: seq<Action>, i: IncidentId, controller: bool, passes: map<PassId, Pass>)
    returns (longer: seq<Action>)
    requires Reaches(actions, OneRun(i, FreshRun(i, controller), {1}, passes))
    ensures Reaches(longer, OneRun(i, StartedRun(i, controller), {1, 2}, passes))
  {
    longer := WorkerSpawned(actions, i, controller, passes);
    ReachesOwnStep(longer, i, SpawnedRun(i, controller), {1, 2}, passes, MarkChild(0));
    longer := longer + [MarkChild(0)];
  }

  /** One claimed incident and its owner, and no run yet. */
  function NoRun(i: IncidentId, passes: map<PassId, Pass>): State {
    State(map[], map[], {1}, {1}, {i}, passes)
  }

  lemma Claimed(i: IncidentId) returns (actions: seq<Action>)
    ensures Reaches(actions, NoRun(i, map[]))
  {
    var s := INIT;
    ReachesSnoc([], s, Start(1));
    s := Step(s, Start(1));
    actions := [] + [Start(1)];
    ReachesSnoc(actions, s, Claim(i));
    actions := actions + [Claim(i)];
    assert Step(s, Claim(i)) == NoRun(i, map[]);
  }

  lemma IntentDeclared(actions: seq<Action>, i: IncidentId, controller: bool, passes: map<PassId, Pass>)
    returns (longer: seq<Action>)
    requires Reaches(actions, NoRun(i, passes))
    ensures Reaches(longer, OneRun(i, FreshRun(i, controller), {1}, passes))
  {
    var intent := CreateIntent(0, 1, i, "", false, controller);
    ReachesSnoc(actions, NoRun(i, passes), intent);
    assert Step(NoRun(i, passes), intent).runs == map[0 := FreshRun(i, controller)];
    longer := actions + [intent];
  }

  /** A pass that has read no record and no intent and found these rows reads the one claim. */
  lemma ClaimRead(actions: seq<Action>, i: IncidentId, run: Run, pids: set<Pid>, rows: set<RunId>)
    requires Reaches(actions, OneRun(i, run, pids, map[0 := BLANK.(phase := Rows, rows := rows)]))
    ensures var open := BLANK.(phase := Claims, rows := rows, claims := {i}, unweighed := {i});
            Reaches(actions + [ReadClaims(0)], OneRun(i, run, pids, map[0 := open]))
  {
    var was := BLANK.(phase := Rows, rows := rows);
    ReachesPassStep(actions, i, run, pids, was, ReadClaims(0), was.(phase := Claims, claims := {i}, unweighed := {i}));
  }

  /** And weighs it, finding no live record. */
  lemma ClaimWeighed(actions: seq<Action>, i: IncidentId, run: Run, pids: set<Pid>, rows: set<RunId>)
    returns (longer: seq<Action>)
    requires Reaches(actions, OneRun(i, run, pids, map[0 := BLANK.(phase := Rows, rows := rows)]))
    ensures Reaches(longer, OneRun(i, run, pids, map[0 := BLANK.(phase := Claims, rows := rows, claims := {i})]))
  {
    ClaimRead(actions, i, run, pids, rows);
    var open := BLANK.(phase := Claims, rows := rows, claims := {i}, unweighed := {i});
    assert {i} - {i} == {};
    ReachesPassStep(actions + [ReadClaims(0)], i, run, pids, open, WeighClaim(0, i, pids), open.(unweighed := {}));
    longer := actions + [ReadClaims(0)] + [WeighClaim(0, i, pids)];
  }

  function FiledRun(i: IncidentId): Run {
    StartedRun(i, true).(pc := Persisted, intent := IntentPersisted, file := Some(RunFile(FileRunning, 2, false)))
  }

  /** Records are listed before the worker's is filed, and its intent closes before intents are read. */
  lemma ClosedBeforeRead(i: IncidentId) returns (actions: seq<Action>)
    ensures Reaches(actions, OneRun(i, FiledRun(i), {1, 2}, map[0 := BLANK]))
  {
    actions := Claimed(i);
    actions := IntentDeclared(actions, i, true, map[]);
    actions := WorkerStarted(actions, i, true, map[]);
    PassBegun(actions, i, StartedRun(i, true), {1, 2});
    actions := FiledAndClosed(actions + [ListRecords(0)], i);
  }

  /** The owner files the record of a controller run and closes its intent. */
  lemma FiledAndClosed(actions: seq<Action>, i: IncidentId) returns (longer: seq<Action>)
    requires Reaches(actions, OneRun(i, StartedRun(i, true), {1, 2}, map[0 := BLANK]))
    ensures Reaches(longer, OneRun(i, FiledRun(i), {1, 2}, map[0 := BLANK]))
  {
    var run := StartedRun(i, true);
    ReachesOwnStep(actions, i, run, {1, 2}, map[0 := BLANK], WriteRun(0));
    longer := actions + [WriteRun(0)];
    run := OwnRecords(run, WriteRun(0));
    ReachesOwnStep(longer, i, run, {1, 2}, map[0 := BLANK], PersistIntent(0));
    longer := longer + [PersistIntent(0)];
  }

  lemma NothingOpenRead(actions: seq<Action>, i: IncidentId, run: Run) returns (longer: seq<Action>)
    requires Reaches(actions, OneRun(i, run, {1, 2}, map[0 := BLANK])) && !IntentActive(run) && run.ledger.None?
    ensures Reaches(longer, OneRun(i, run, {1, 2}, map[0 := BLANK.(phase := Rows)]))
  {
    var s := OneRun(i, run, {1, 2}, map[0 := BLANK]);
    assert OpenIntents(s) == map[] && OpenIntents(s).Keys == {};
    ReachesPassStep(actions, i, run, {1, 2}, BLANK, ReadIntents(0), BLANK.(phase := Intents));
    longer := actions + [ReadIntents(0)];
    assert RunningRows(OneRun(i, run, {1, 2}, map[0 := BLANK.(phase := Intents)])) == {};
    ReachesPassStep(longer, i, run, {1, 2}, BLANK.(phase := Intents), ReadRows(0), BLANK.(phase := Rows));
    longer := longer + [ReadRows(0)];
  }

  /**
   A record filed after the listing and an intent closed before the intents are read: the
   commit reclaims the incident while worker and owner are alive.
   */
  lemma SplitPassReclaimsLiveWorker(i: IncidentId) returns (actions: seq<Action>, s: State)
    ensures Reaches(actions, s) && Enabled(s, Reconcile(0))
    ensures 0 in s.runs && s.runs[0].incident == i && ChildAlive(s.runs[0], s.alive) && s.runs[0].owner in s.alive
    ensures i in s.running && i !in Step(s, Reconcile(0)).running
  {
    actions := ClosedBeforeRead(i);
    actions := NothingOpenRead(actions, i, FiledRun(i));
    actions := ClaimWeighed(actions, i, FiledRun(i), {1, 2}, {});
    s := OneRun(i, FiledRun(i), {1, 2}, map[0 := BLANK.(phase := Claims, rows := {}, claims := {i})]);
    assert !HasSpeakingSibling(s.runs, s.passes[0], 0);
    OrphanSafety(actions, s, 0, 0);
  }

  /** The pass reads records and intents of an incident that has no run yet. */
  lemma IntentsReadFirst(i: IncidentId) returns (actions: seq<Action>)
    ensures Reaches(actions, NoRun(i, map[0 := BLANK.(phase := Intents)]))
  {
    actions := Claimed(i);
    var s := NoRun(i, map[]);
    ReachesSnoc(actions, s, ListRecords(0));
    assert Listed(s) == {};
    assert Step(s, ListRecords(0)).passes == map[0 := BLANK];
    actions := actions + [ListRecords(0)];
    s := NoRun(i, map[0 := BLANK]);
    assert OpenIntents(s) == map[] && OpenIntents(s).Keys == {};
    ReachesSnoc(actions, s, ReadIntents(0));
    assert Step(s, ReadIntents(0)).passes == map[0 := BLANK.(phase := Intents)];
    actions := actions + [ReadIntents(0)];
  }

  function LedgeredRun(i: IncidentId): Run {
    StartedRun(i, false).(pc := Ledgered, file := Some(RunFile(FileRunning, 2, false)), ledger := Some(LedgerRunning))
  }

  /** Then the owner starts the worker, files its record and opens its ledger row, all before rows are read. */
  lemma RowOpened(i: IncidentId) returns (actions: seq<Action>)
    ensures Reaches(actions, OneRun(i, LedgeredRun(i), {1, 2}, map[0 := BLANK.(phase := Intents)]))
  {
    actions := IntentsReadFirst(i);
    var passes := map[0 := BLANK.(phase := Intents)];
    actions := IntentDeclared(actions, i, false, passes);
    actions := WorkerStarted(actions, i, false, passes);
    var run := StartedRun(i, false);
    ReachesOwnStep(actions, i, run, {1, 2}, passes, WriteRun(0));
    actions := actions + [WriteRun(0)];
    run := OwnRecords(run, WriteRun(0));
    ReachesOwnStep(actions, i, run, {1, 2}, passes, WriteLedger(0));
    actions := actions + [WriteLedger(0)];
  }

  lemma RowProbed(actions: seq<Action>, i: IncidentId) returns (longer: seq<Action>)
    requires Reaches(actions, OneRun(i, LedgeredRun(i), {1, 2}, map[0 := BLANK.(phase := Intents)]))
    ensures Reaches(longer, OneRun(i, LedgeredRun(i), {1, 2}, map[0 := BLANK.(phase := Rows, rows := {0})]))
  {
    var run, was := LedgeredRun(i), BLANK.(phase := Intents);
    assert RunningRows(OneRun(i, run, {1, 2}, map[0 := was])) == {0};
    var read := BLANK.(phase := Rows, todo := {0}, rows := {0});
    ReachesPassStep(actions, i, run, {1, 2}, was, ReadRows(0), read);
    longer := actions + [ReadRows(0)];
    assert {0} - {0} == {};
    ReachesPassStep(longer, i, run, {1, 2}, read, ProbeRow(0, 0, {1, 2}, true), read.(todo := {}));
    longer := longer + [ProbeRow(0, 0, {1, 2}, true)];
  }

  function LateState(i: IncidentId): State {
    OneRun(i, LedgeredRun(i), {1, 2}, map[0 := BLANK.(phase := Claims, rows := {0}, claims := {i})])
  }

  lemma LateReached(i: IncidentId) returns (actions: seq<Action>)
    ensures Reaches(actions, LateState(i)) && Enabled(LateState(i), Reconcile(0))
  {
    actions := RowOpened(i);
    actions := RowProbed(actions, i);
    actions := ClaimWeighed(actions, i, LedgeredRun(i), {1, 2}, {0});
  }

  /**
   A spawn that begins after the intents are read and opens its ledger row before the rows
   are: the commit closes the row and reclaims the incident although worker and owner are
   alive, the intent is open and young, and the incident has no other run.
   */
  lemma LateIntentReclaimsLiveWorker(i: IncidentId) returns (actions: seq<Action>, s: State)
    ensures Reaches(actions, s) && Enabled(s, Reconcile(0)) && s.runs.Keys == {0}
    ensures s.runs[0].incident == i && ChildAlive(s.runs[0], s.alive)
    ensures s.runs[0].owner in s.alive && IntentActive(s.runs[0])
    ensures i in s.running && i !in Step(s, Reconcile(0)).running
    ensures Commit(s, 0).runs[0] != s.runs[0]
  {
    actions := LateReached(i);
    s := LateState(i);
    LateUnseen(i);
    OrphanSafety(actions, s, 0, 0);
    LateTouched(actions, i);
  }

  lemma LateUnseen(i: IncidentId)
    ensures DeadRow(LateState(i).passes[0], 0) && Unseen(LateState(i), LateState(i).passes[0], 0)
  {
  }

  lemma LateTouched(actions: seq<Action>, i: IncidentId)
    requires Reaches(actions, LateState(i)) && Enabled(LateState(i), Reconcile(0))
    ensures Commit(LateState(i), 0).runs[0] != LateState(i).runs[0]
  {
    LateUnseen(i);
    ReachableInv(actions, LateState(i));
    LiveRunUntouchedIff(LateState(i), 0, 0);
  }
}
