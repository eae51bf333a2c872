/** What a dispatch turn looks at, and the cheap check that decides whether a turn is worth starting. */
module Dispatch {
  import opened Common

  type IncidentId = string
  type Cwd = string

  datatype Kind = Hard | Precursor | OtherKind(name: string)

  datatype Status = Queued | Running | RetryPending | Blocked | ObservingStatus | OtherStatus

  datatype Stage =
    | Blind | Evidence | Diagnosis | Classification | Observing | RepairWaiting
    | Repair | RepairFeedback | Review | Delivery | Production | OtherStage(name: string)

  datatype Incident = Incident(
    id: IncidentId,
    kind: Kind,
    stage: Stage,
    status: Status,
    position: string,
    priority: real,
    avoidable: real,
    detectedAt: Time,
    updatedAt: Option<Time>)

  /** A run record; `completedAt` falls back to the start time, `hasPrompt` is the saved prompt file. */
  datatype RunRecord = RunRecord(
    incident: IncidentId,
    kind: Kind,
    stage: Stage,
    cwd: Cwd,
    running: bool,
    hasCommand: bool,
    controller: bool,
    hasPrompt: bool,
    completedAt: Option<Time>)

  datatype SpawnOutcome = Spawned | LeaseBusy | BackoffActive | SpawnFailed

  /** How the evidence build of a claimed incident can end; a `suppressed` debt leaves the incident as it is. */
  datatype BuildOutcome = Built | Unusable(suppressed: bool) | ShaMissing | BuildFailed

  /**
   The rest of the snapshot, the clock, and what the outside answers to the n-th spawn and
   build; `worktree` is the one managed repair worktree, if it is provisioned.
   */
  datatype World = World(
    startupDebt: bool,
    backoff: bool,
    capable: bool,
    loadedSha: bool,
    tradesReadable: bool,
    exposed: set<string>,
    slots: Kind -> int,
    retryDelay: int,
    now: Time,
    classified: set<IncidentId>,
    preventable: set<IncidentId>,
    worktree: Option<Cwd>,
    spawn: nat -> SpawnOutcome,
    build: nat -> BuildOutcome)

  function RunningOnly(runs: seq<RunRecord>): seq<RunRecord> {
    if runs == [] then []
    else (if runs[0].running then [runs[0]] else []) + RunningOnly(runs[1..])
  }

  function CountKind(running: seq<RunRecord>, kind: Kind): nat {
    if running == [] then 0 else (if running[0].kind == kind then 1 else 0) + CountKind(running[1..], kind)
  }

  /** The per-kind tally; kinds without a tally count as none running. */
  function Tally(running: seq<RunRecord>): map<Kind, int> {
    map[Hard := CountKind(running, Hard), Precursor := CountKind(running, Precursor)]
  }

  function TallyOf(tally: map<Kind, int>, kind: Kind): int {
    if kind in tally then tally[kind] else 0
  }

  predicate SlotFree(w: World, tally: map<Kind, int>, kind: Kind) {
    TallyOf(tally, kind) < w.slots(kind)
  }

  predicate ActiveIncident(running: seq<RunRecord>, id: IncidentId) {
    exists i :: 0 <= i < |running| && running[i].incident == id
  }

  predicate WriterStage(stage: Stage) {
    stage in {Repair, RepairFeedback, Delivery, Production}
  }

  predicate WriterRunning(running: seq<RunRecord>, stage: Stage, cwd: Cwd) {
    WriterStage(stage) && exists i :: 0 <= i < |running| && WriterStage(running[i].stage) && running[i].cwd == cwd
  }

  predicate RepairBusy(running: seq<RunRecord>) {
    exists i :: 0 <= i < |running| && (WriterStage(running[i].stage) || running[i].stage == Review)
  }

  /** The newest run record of an incident; records come newest first. */
  function Prior(runs: seq<RunRecord>, id: IncidentId): Option<RunRecord> {
    if runs == [] then None
    else if runs[0].incident == id then Some(runs[0])
    else Prior(runs[1..], id)
  }

  predicate Rested(w: World, since: Option<Time>) {
    since.Some? ==> w.now - since.value >= w.retryDelay
  }

  function Later(a: Option<Time>, b: Option<Time>): Option<Time> {
    if b.Some? && (a.None? || b.value > a.value) then b else a
  }

  /** An incident whose last run can be repeated now, as the cheap check sees it. */
  predicate GateRetry(w: World, runs: seq<RunRecord>, running: seq<RunRecord>, tally: map<Kind, int>, row: Incident) {
    && !ActiveIncident(running, row.id) && SlotFree(w, tally, row.kind)
    && var prior := Prior(runs, row.id);
    && prior.Some? && prior.value.hasCommand
    && !WriterRunning(running, prior.value.stage, prior.value.cwd)
    && Rested(w, prior.value.completedAt)
    && (prior.value.controller || prior.value.hasPrompt)
  }

  /** The turn itself also waits for the incident's own last change. */
  predicate TurnRetry(w: World, runs: seq<RunRecord>, running: seq<RunRecord>, tally: map<Kind, int>, row: Incident) {
    && !ActiveIncident(running, row.id) && SlotFree(w, tally, row.kind)
    && var prior := Prior(runs, row.id);
    && prior.Some? && prior.value.hasCommand
    && !WriterRunning(running, prior.value.stage, prior.value.cwd)
    && Rested(w, Later(prior.value.completedAt, row.updatedAt))
    && (prior.value.controller || prior.value.hasPrompt)
  }

  lemma TurnRetryPassesGate(w: World, runs: seq<RunRecord>, running: seq<RunRecord>, tally: map<Kind, int>,
                            row: Incident)
    requires TurnRetry(w, runs, running, tally, row)
    ensures GateRetry(w, runs, running, tally, row)
  {
  }

  predicate InStage(row: Incident, status: Status, stage: Stage) {
    row.status == status && row.stage == stage
  }

  predicate Recoverable(w: World, running: seq<RunRecord>, row: Incident) {
    InStage(row, Running, Classification) && !ActiveIncident(running, row.id) && row.id in w.classified
  }

  predicate AnyRow(incidents: seq<Incident>, p: Incident -> bool) {
    exists i :: 0 <= i < |incidents| && p(incidents[i])
  }

  /** Whether one turn could make progress on this snapshot. */
  predicate Eligible(w: World, incidents: seq<Incident>, runs: seq<RunRecord>) {
    var running := RunningOnly(runs);
    var tally := Tally(running);
    && !w.startupDebt && !w.backoff
    && (|| AnyRow(incidents, (row: Incident) => InStage(row, Queued, Blind) && SlotFree(w, tally, row.kind))
        || (w.loadedSha && AnyRow(incidents, (row: Incident) => InStage(row, Blocked, Evidence)))
        || AnyRow(incidents, (row: Incident) => Recoverable(w, running, row))
        || (!RepairBusy(running)
            && AnyRow(incidents, (row: Incident) => InStage(row, Queued, RepairWaiting) &&
                SlotFree(w, tally, row.kind)))
        || AnyRow(incidents, (row: Incident) => row.status == RetryPending && GateRetry(w, runs, running, tally, row)))
  }

  /** The cheap check: look for each kind of work in turn, last for a retry whose time has come. */
  method HasEligibleDebt(w: World, incidents: seq<Incident>, runs: seq<RunRecord>) returns (eligible: bool)
    ensures eligible <==> Eligible(w, incidents, runs)
  {
    if w.startupDebt || w.backoff {
      return false;
    }
    var running := RunningOnly(runs);
    var tally := Tally(running);
    if exists i :: 0 <= i < |incidents| && InStage(incidents[i], Queued, Blind) &&
        SlotFree(w, tally, incidents[i].kind) {
      return true;
    }
    if w.loadedSha && exists i :: 0 <= i < |incidents| && InStage(incidents[i], Blocked, Evidence) {
      return true;
    }
    for i := 0 to |incidents|
      invariant forall k :: 0 <= k < i ==> !Recoverable(w, running, incidents[k])
    {
      if Recoverable(w, running, incidents[i]) {
        return true;
      }
    }
    if !RepairBusy(running)
       && exists i :: 0 <= i < |incidents| && InStage(incidents[i], Queued, RepairWaiting) &&
           SlotFree(w, tally, incidents[i].kind)
    {
      return true;
    }
    for i := 0 to |incidents|
      invariant forall k :: 0 <= k < i ==>
                  !(incidents[k].status == RetryPending && GateRetry(w, runs, running, tally, incidents[k]))
    {
      if incidents[i].status == RetryPending && GateRetry(w, runs, running, tally, incidents[i]) {
        return true;
      }
    }
    return false;
  }
}
