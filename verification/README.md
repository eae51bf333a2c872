# Total-loss incident controller: a Dafny model

The total-loss loop watches held positions, turns order-book quotes into incidents, builds evidence
snapshots for them, and starts workers that diagnose and repair the cause. It runs as several processes over
a small SQLite memory and a runtime directory, under crashes, deadlines and out-of-order input. This project
models its state machines, and two small helpers used around it, and proves what they keep over every run.

| module | part of the controller |
|---|---|
| `Quotes`, `Detector`, `DetectorRuns`, `DetectorRows`, `NoBidEpisodes`, `Trigger` | the quote detector and its trigger lane |
| `Backfill`, `BackfillRuns` | the paged historical replay |
| `Revalidation` | the revalidator and its wrapping cursor |
| `Settlement` | full-loss incidents from settlement events |
| `SpawnProtocol`, `SpawnSafety`, `SpawnTraces`, `SpawnMemory`, `SpawnReclaim`, `SpawnRuns` | spawn intents, the workspace writer lease, orphan reconciliation |
| `Publishing` | evidence generations behind the CURRENT pointer, and their reaping |
| `Selection`, `Selector` | byte-budgeted quote selection and its change-point thinning |
| `RetryDebt`, `DueFilter` | evidence retry debt, its backoff and the due gate |
| `ProviderGate` | the provider cooldown under the launch lock |
| `Dispatch`, `DispatchTurn`, `DispatchSafety`, `DispatchRows`, `DispatchLaunches`, `DispatchProgress`, `DispatchOutcomes` | the dispatch turn and its cheap eligibility check |
| `ForecastSteps` | forecast step arithmetic for a local day |
| `ScopeGlob` | packet scope patterns |

Conventions. Instants are whole microseconds (whole seconds in `ForecastSteps`), prices are reals. Digests are
injective, so identifiers are values. One SQLite commit and one file replacement is one step, and any process may
stop between two steps. A liveness probe may report a dead process as alive, never the reverse. An evidence
identifier determines its quote. Every statement on the incident and quote-state tables carries the position,
so those tables are modelled per position. Clocks, spawn results, evidence builds, SQL interruptions and failing reads
are inputs that may take any value. Code that updates state in place is a class or a method with its loops, proved
equal to a specification function; the laws are lemmas about that function.

Promises that hold only under a condition, each with the condition proved exact:

- CURRENT always leads to a whole generation if and only if a publish and a reap pass *together* fit inside the
  reap age and a failed builder can read CURRENT. Each one fitting alone is not enough.
- The provider gate holds on every run if and only if database reads work and the value first found in the store is
  within policy: readers without the lock may replace a value that is not.
- A reconcile pass reads run records, open intents, running ledger rows and claims one after another, probes processes
  and locks in between, commits last, and rewrites records after that; each of these is a step of its own. The commit
  reclaims the incident of a live worker if and only if another run of it had a ledger row with nothing behind it, or the
  pass has no sight of the worker and either the worker's own row was read with nothing behind it or nothing the pass
  observed spoke for the claim. No sight means: its record was not read, and its intent was not read, or was read before
  the worker was recorded, has closed since, and its owner is gone. Two runs show it: `SplitPassReclaimsLiveWorker`,
  whose intent closes before the intents are read, and `LateIntentReclaimsLiveWorker`, whose spawn begins after that.
- The retry time never moves back over a run if and only if every recording is suppressed, backs off, or had read its
  stamp at or after the stored retry time.
- The selected quotes give back every top of book; with quote times alone, since returned rows carry no row id, if and
  only if no direction has two quotes of one time and different tops.
- The largest predicted forecast step is the required one if and only if the day ends after issue and within 2160
  hours. The comment beside the loop speaks of 360 hours; the loop scans 360 windows of six hours and is followed here.
- Re-normalising a path changes nothing if and only if no white space follows its leading `./` parts. The
  classifier reports the path normalised once and matches it normalised twice.
- With the floor changing in any way, an incident is retired on revalidation if and only if it claims a crossing and
  the bid of its present evidence does not clear the floor in force when its row was created.

Progress, beside safety: once every process of an incident is dead, a pass that takes none of them for alive closes its
intents and ledger rows and reclaims it, unless it read a terminal record beside a running row of it; a second such pass
reclaims it in any case. A crash leaves no workspace lease taken for ever. A dispatch turn acts exactly when one of its
paths has work, and leaves no claim running without a run except where its evidence was unusable.

## Model

| member | source | states |
|---|---|---|
| Quotes.DepthBestBid | total_loss_loop.py:997-1017 | a depth payload is authoritative exactly when every level is valid, and then its best bid is the largest price |
| Quotes.ReconcileMeaning | total_loss_loop.py:1020-1046 | exactly when each verdict is given, for every price: executable for the top of a valid book the scalar agrees with, conflict for one it contradicts or an empty book beside a positive scalar, no-bid for an empty book without one, incomplete for an untrusted depth |
| Quotes.ReconcileHeldQuote | total_loss_loop.py:1020-1046 | the scan-based reconciliation gives the specified verdict for every quote |
| Detector.FindEarliest | total_loss_loop.py:1236-1296 | the scan finds the row an ordered query would, none of its kind preceding it |
| Detector.IncidentMemory.InsertIncident | total_loss_loop.py:1236-1296 | the position's rows and the reported identifier are those of the insertion rule, a newly reported one names a row queued at the blind stage, and other positions are untouched |
| Detector.IncidentMemory.RecordCrossing | total_loss_loop.py:1365-1401 | the incident half of an observation, and that no other position changes |
| Detector.IncidentMemory.RecordState | total_loss_loop.py:1402-1446 | the quote-state half of an in-order observation, and that no other position changes |
| Detector.IncidentMemory.ObserveQuote | total_loss_loop.py:1299-1447 | one observation leaves exactly the specified memory for its position and every other position as it was |
| DetectorRuns.FloorAnchor | total_loss_loop.py:1299-1447 | after any run there is at most one below-floor incident; it exists exactly when an accepted quote was executable below the floor, and stands at the earliest clock at which one counted |
| DetectorRuns.ArrivalOrderIndependence | total_loss_loop.py:1236-1296 | two runs of the same uncorroborated events in different orders agree on the below-floor incident and its time |
| DetectorRows.EveryEventKeepsRows | total_loss_loop.py:1236-1447 | over every run an event keeps rows in place, changes one only by moving it back to an earlier crossing or by a restatement, and appends at most the row it reports |
| DetectorRows.NewIncidentIsQueued | total_loss_loop.py:1270-1296 | over every run an identifier reported for the first time names a row queued at the blind stage |
| DetectorRows.ReanchoredRowIsActive | total_loss_loop.py:1365-1381 | over every run an observation that re-anchors a row leaves it queued, running or retry-pending, and queued at blind if it was none of these |
| DetectorRows.CorroboratedCrossingCounts | total_loss_loop.py:1329-1344 | over every run a late crossing a newer quote stands by counts at that quote's time, any other at its own |
| DetectorRows.StateReadsLastQuote | total_loss_loop.py:1402-1446 | over every run the durable state reads as the last quote in order, an incomplete book carrying bid, flag and episode forward; nothing else touches it |
| NoBidEpisodes.DetectorFollowsEpisodes | total_loss_loop.py:1317-1364 | over every run the durable state is that of a reference scan for episodes, and the no-bid incidents are the scan's facts |
| NoBidEpisodes.OneIncidentPerEpisode | total_loss_loop.py:1382-1446 | with no live out-of-order no-bid quote the no-bid incidents are exactly the opening facts, at most closed generations plus one if open |
| NoBidEpisodes.IncidentsBoundedByEpisodesAndStrays | total_loss_loop.py:1345-1364 | on any run they number at most that plus the live out-of-order no-bid quotes |
| NoBidEpisodes.LiveStrayMakesAnExtraIncident | total_loss_loop.py:1345-1364 | a recovered book followed by an older live no-bid quote does leave an incident with no episode |
| NoBidEpisodes.OnlyRecoveryClosesAnEpisode | total_loss_loop.py:1402-1446 | from any memory the quote clock never moves back and only an in-order executable quote at or above the floor closes an episode |
| NoBidEpisodes.NoBidRowsStayAnchored | total_loss_loop.py:1236-1296 | a no-bid row keeps its place, identifier and anchor under every event |
| Trigger.ObserveTwice | total_loss_loop.py:1299-1447 | observing the same quote twice in a row is observing it once |
| Trigger.PairTwice | total_loss_loop.py:1498-1543 | an older full book with a newer incomplete scalar, observed twice, leaves what one observation leaves |
| Trigger.TriggerTwice | total_loss_loop.py:2446-2477 | repeating a position's trigger step over unchanged inputs reports nothing and changes nothing |
| Trigger.DetectTrigger | total_loss_loop.py:2427-2486 | a pass applies the step to each position once and returns the reports in position order, each once; an interrupted pass returns nothing and leaves every memory as it was |
| Trigger.TriggerPassTwice | total_loss_loop.py:2427-2486 | a second pass over unchanged positions creates nothing |
| Trigger.ReachedTriggerTwice | total_loss_loop.py:2446-2477 | on every memory a run reaches, at whatever floors, repeating the trigger step does nothing, and the step stays among those memories |
| Trigger.UnconfirmedPairIsIgnored | total_loss_loop.py:1498-1543 | an older full book that the newer incomplete quote does not bear out touches no incident and reports nothing |
| Trigger.ConfirmedPairIsCounted | total_loss_loop.py:1498-1543 | on every run one it bears out below the floor leaves an incident no later than the newer quote |
| Trigger.SingleCrossingIsCounted | total_loss_loop.py:2446-2477 | on every run a lone quote below the floor leaves an incident no later than it |
| Backfill.ScanPage | total_loss_loop.py:1640-1680 | the page loop stops at the first crossing and counts the rows it looked at |
| Backfill.BackfillMemory.BackfillStep | total_loss_loop.py:1567-1699 | one slice leaves the specified incidents and cursor for its position, and others untouched |
| BackfillRuns.CompletedReplayAnchors | total_loss_loop.py:1567-1699 | whatever the page sizes, cuts and interruptions, a completed replay leaves the incident at the earliest crossing of live events, corroborated ones included, and whole history together |
| BackfillRuns.ReplayAddsItsTime | total_loss_loop.py:1650-1668 | a replayed crossing anywhere in a run leaves the quote state and every other crossing's clock as they were and adds only its own time |
| BackfillRuns.PagingRefinesOneScan | total_loss_loop.py:1567-1699 | without live events a completed schedule leaves the very memory of one uninterrupted scan |
| BackfillRuns.ProductiveSlicesFinish | total_loss_loop.py:1613-1699 | each uncut slice moves the cursor or completes, so one more of them than rows always completes |
| BackfillRuns.ChangedExposureRestarts | total_loss_loop.py:1605-1612 | a state stored for another exposure counts for nothing: the slice does what it would do with none |
| Revalidation.KeptIff | total_loss_loop.py:1127-1206 | for any facts, exactly when an incident is kept: a fact is missing, the floor is out of range, or the evidence lies in the exposure of a position that is no dust and still reads as claimed |
| Revalidation.RevalidatorAgrees | total_loss_loop.py:1127-1206 | with unchanged facts and a floor fixed or only lowered, no incident of the detector is retired |
| Revalidation.RetiredExactlyWhen | total_loss_loop.py:1127-1206 | over every run at any floors a row is retired exactly when it claims a crossing and its evidence's bid does not clear the floor in force when the row was created |
| Revalidation.RaisedFloorRetiresEarlierCrossing | total_loss_loop.py:1127-1206 | a raised floor with an earlier crossing gives such a row |
| Revalidation.RevalidationCursor.NextSlice | total_loss_loop.py:1127-1160 | the slice examined and the place the cursor is left at |
| Revalidation.RevalidationCursor.Sweep | total_loss_loop.py:1127-1150 | from any cursor, passes over a queue that does not change examine every queued incident once they outnumber its slices |
| Revalidation.EveryIncidentExamined | total_loss_loop.py:1136-1150 | the bound behind the sweep: one pass more than the queue has slices, wherever the cursor stands |
| Settlement.SettlementMemory.Pass | total_loss_loop.py:1759-1874 | one maintenance pass leaves the specified settlement rows |
| Settlement.ReportedIffLost | total_loss_loop.py:1759-1874 | for every table and all facts a new identity is reported exactly for a material position settled at a price of at most zero, with no exit filled before a settlement, a complete entry, at least 95 percent of its cost lost, and no row carrying the price; its row is queued at blind |
| Settlement.UndecidedLeavesRows | total_loss_loop.py:1795-1805 | an incomplete entry or an unknown cost or outcome leaves every row of a worthless settlement as it was |
| Settlement.RowRetiredIff | total_loss_loop.py:1876-1983 | with a price in force, exactly which rows step back: all active ones when nothing was lost or undecided, every waiting one but the price's own when everything was lost |
| Settlement.NoPriceNoChange | total_loss_loop.py:1962-1970 | without a settlement event or a price a pass changes nothing |
| Settlement.NewIncidentsAreLossPrices | total_loss_loop.py:1839-1874 | from any table any run adds exactly one incident for each loss price the table did not carry, and no other |
| Settlement.MirroredEventsMakeOneIncident | total_loss_loop.py:1746-1757 | at one price any number of mirrored events adds at most one incident to any table, and one exactly when a loss was found and no row carried the price |
| Settlement.OneWaitingAfterLoss | total_loss_loop.py:1876-1897 | after a pass that finds a full loss at most one settlement incident is queued or retry-pending, whatever the table held |
| SpawnSafety.TakeoverOnlyOfTheDead | total_loss_loop.py:7050-7126 | a lease judged not busy belongs to no live child and to no owner about to start one |
| SpawnSafety.StepInv | total_loss_loop.py:6081-6226 | every step of owners, children, finishers, takeovers and of a reconcile pass (each read, each probe, its commit, each later record write) keeps the protocol invariant and what passes remember |
| SpawnSafety.WriterExclusion | total_loss_loop.py:7026-7182 | in no reachable state do two live writer children share a workspace, and each holds its own lease row |
| SpawnSafety.LiveLeaseSurvives | total_loss_loop.py:7148-7182 | no step, a stale release included, removes or replaces the lease of a run whose worker lives or whose live owner is about to start it |
| SpawnSafety.LiveRunUntouchedIff | total_loss_loop.py:6677-6826 | a pass's commit touches a live run exactly when its row was read with nothing behind it and is still running, and then the pass has no sight of it |
| SpawnSafety.LiveRowBackedIff | total_loss_loop.py:6745-6760 | a live worker's ledger row is found backed exactly when its record was read or its intent, as read, covers it at that probe |
| SpawnSafety.LiveRunNotOrphaned | total_loss_loop.py:6827-6834 | no pass marks the record of a live run orphaned |
| SpawnSafety.OrphanSafety | total_loss_loop.py:6654-6842 | in every reachable state, with every read and probe of the pass at its own time, the exact condition under which its commit reclaims the incident of a live worker |
| SpawnSafety.SnapshotOrphanSafety | total_loss_loop.py:6654-6842 | when records and intents are as the pass read them, it reclaims exactly when another run had a ledger row with nothing behind it |
| SpawnSafety.SoleLiveRunKeepsItsClaim | total_loss_loop.py:6419-6458 | when no other run of the incident had a running row, a live worker the pass has sight of keeps claim, intent, ledger row and record file, wherever its owner crashed |
| SpawnTraces.LeaseFreeIff | total_loss_loop.py:7026-7126 | in every reachable state a lease is free to an exact prober exactly when its worker is dead and its owner dead or the run finalized: a crash anywhere leaves no workspace taken for ever |
| SpawnTraces.FreeLeaseIsTaken | total_loss_loop.py:7050-7126 | a successor waiting with its lock can take such a workspace and then holds it |
| SpawnTraces.ReleaseDeletesOwnRow | total_loss_loop.py:7148-7182 | a release deletes the run's own lease row and no other |
| SpawnMemory.PassRemembers | total_loss_loop.py:6657-6812 | in every reachable state a pass remembers exactly what stood at the step that read it, and found covered, backed or vouched for exactly what was so when probed |
| SpawnReclaim.ReclaimedIff | total_loss_loop.py:6677-6826 | for every incident, live worker or not, the exact condition under which the commit takes it out of running, in what was read and probed |
| SpawnReclaim.OrphanedRecordsIff | total_loss_loop.py:6763-6834 | exactly which run records the pass goes on to mark orphaned |
| SpawnReclaim.OrphanIsReclaimed | total_loss_loop.py:6654-6826 | once all processes of an incident are dead, a pass begun after that whose probes take none for alive closes its intents and rows, and reclaims it unless it read a terminal record beside a running row |
| SpawnReclaim.TwoPassesReclaimOrphan | total_loss_loop.py:6654-6826 | after two such passes the incident is not running, whatever records they read |
| SpawnRuns.SplitPassReclaimsLiveWorker | total_loss_loop.py:6657-6684 | a record filed after the listing and an intent closed before the intents are read: the incident is reclaimed while worker and owner live |
| SpawnRuns.LateIntentReclaimsLiveWorker | total_loss_loop.py:6681-6760 | a spawn begun after the intents are read that opens its ledger row before the rows are: row closed and incident reclaimed while worker and owner live, the intent is open and it is the only run |
| Publishing.JudgedIsLost | total_loss_loop.py:3265-3297 | within the time limits, what a reap pass decides to remove is lost to CURRENT already |
| Publishing.RemovalSpares | total_loss_loop.py:3254-3262 | neither a reap pass nor a failed builder's clean-up removes from the generation CURRENT names |
| Publishing.SlowPassLosesEvidence | total_loss_loop.py:3265-3297 | when a publish and a pass together reach the reap age some run leaves CURRENT without its evidence |
| Publishing.UnreadablePointerLosesEvidence | total_loss_loop.py:3254-3262 | a builder interrupted after publishing that cannot read CURRENT removes what CURRENT names |
| Publishing.PublishIsSafeIff | total_loss_loop.py:3599-3633 | on every run CURRENT leads to a whole generation, exactly when publish and pass together fit inside the reap age and CURRENT can be read |
| Selection.ChangePointsLoseNothing | total_loss_loop.py:3178-3225 | every row of the window has the top of the latest retained row of its direction |
| Selection.TimesAloneSufficeIff | total_loss_loop.py:3226-3251 | quote times alone give every top back exactly when no direction has a tie of different tops |
| Selector.Retainer.Retain | total_loss_loop.py:3116-3154 | exactly when a row is kept, when it is refused and why, with the byte count equal to the payloads kept and within the limit |
| Selector.Retainer.RetainFacts | total_loss_loop.py:3156-3175 | the crossing and both strict brackets are kept and critical, or the refusal has its cause: a late clock, a fact not found, or one that does not fit beside the facts kept before it |
| Selector.Retainer.RetainAnchors | total_loss_loop.py:3173-3181 | on a normal return the nearest rows before and after each of the first clocks are kept, unless one was gone or does not fit beside what is kept |
| Selector.Retainer.Walk | total_loss_loop.py:3186-3225 | the walk keeps the change points of a beginning of the path, all of them when it reports complete, overshoots the row limit by less than a batch, and a cut has its cause |
| Selector.SelectQuotes | total_loss_loop.py:3088-3251 | on every normal return bytes are exact and within the limit, the required facts are kept and the anchors as far as they fit; complete means lossless; a cut or a refusal has its cause |
| RetryDebt.EvidenceRetryDelay | total_loss_loop.py:3871-3889 | the saturating loop equals the minimum of the maximum and base times a power of two, in work bounded by the range and not by the counter |
| RetryDebt.DelayDoubles | total_loss_loop.py:3871-3889 | the delay starts at the base and doubles with each attempt up to the maximum |
| RetryDebt.RecordingMeans | total_loss_loop.py:4149-4198 | a recording before the retry time under the same identity changes nothing; any other leaves a pending debt under the identity given, with the counter and time of its kind |
| RetryDebt.NextNotEarlierIff | total_loss_loop.py:4166-4191 | when a recording keeps the retry time from moving back |
| RetryDebt.AttemptsAreSpaced | total_loss_loop.py:4149-4198 | over any forward clock under one identity two counted attempts are at least the earlier one's delay apart |
| RetryDebt.AttemptsGrow | total_loss_loop.py:4186-4190 | the attempt counter never falls and each counted attempt raises it |
| RetryDebt.AttemptsAreCounted | total_loss_loop.py:4149-4198 | over any run the counter grows by exactly the counted attempts; suppressed, plain and migrating steps cost none |
| RetryDebt.NextNeverMovesBackIff | total_loss_loop.py:4149-4198 | over any run the retry time of a pending debt never decreases exactly when every recording is suppressed, backs off, or was stamped at or past it |
| DueFilter.DebtMemory.Record | total_loss_loop.py:4149-4198 | a recording changes its own debt as specified and no other |
| DueFilter.ResolvedStaysOut | total_loss_loop.py:4361-4372 | once resolved, a debt stays resolved and is admitted by no later cycle of any run until it is recorded anew |
| DueFilter.DebtMemory.DueFilter | total_loss_loop.py:4011-4123 | one cycle's admitted and deferred identifiers and upgraded rows are the specified ones |
| DueFilter.SortedSorts | total_loss_loop.py:4097-4122 | the admission order is a permutation sorted by priority |
| DueFilter.OnlyDueDebtsPass | total_loss_loop.py:4060-4095 | nothing resolved is admitted, and nothing pending before its retry time unless its memory identity moved |
| DueFilter.AdmittedIff | total_loss_loop.py:4060-4123 | in the debts' own columns, exactly what a cycle admits: what is no retry debt, and the first of the debts whose time has come or whose incident moved |
| DueFilter.DeferredIff | total_loss_loop.py:4070-4099 | a candidate is deferred exactly when its debt is pending and a legacy row, or unmoved and before its time |
| DueFilter.DeferredBecomesRipe | total_loss_loop.py:4074-4102 | a deferred debt is ripe once its time has come; a legacy one is given a time, at no cost in attempts |
| DueFilter.UpgradedWaits | total_loss_loop.py:4074-4092 | an upgraded legacy debt waits at least the base delay |
| DueFilter.PrecedesMeans | total_loss_loop.py:4105-4117 | the order of admission spelled out: created ones in order of creation, indebted ones in order given, then priority, detection and identifier |
| DueFilter.OnePendingPerCycle | total_loss_loop.py:4118-4123 | at most one retry-pending debt is admitted per cycle |
| DueFilter.FirstDueIsAdmitted | total_loss_loop.py:4097-4123 | whenever a candidate is ripe exactly one ripe candidate is admitted, and it precedes every other |
| DueFilter.LegacyUpgradedOnce | total_loss_loop.py:4074-4092 | over any run of cycles, recordings, resolutions and revision changes a legacy debt is upgraded at most once |
| ProviderGate.StoredInRange | total_loss_loop.py:6048-6078 | whatever is stored on any run lies between the cooldown and the maximum from its recording |
| ProviderGate.LimitsMean | total_loss_loop.py:6055-6056 | the settings are honoured between a second and a day and clamped outside |
| ProviderGate.BackoffMeans | total_loss_loop.py:6054-6069 | a usable hint is honoured within the range and clamped to it; without one a quota failure waits the maximum, any other the cooldown |
| ProviderGate.ReplacementMeans | total_loss_loop.py:6021-6045 | a value out of policy is replaced by the maximum from now, an old one no quota failure left by the cooldown |
| ProviderGate.FailedReadLaunches | total_loss_loop.py:6008-6014 | a launcher whose read fails launches inside a backoff |
| ProviderGate.LateReplacementLaunches | total_loss_loop.py:6024-6045 | a replacement written without the lock can land between a launcher's look and its launch |
| ProviderGate.GateHoldsIff | total_loss_loop.py:6343-6376 | on every interleaving no guarded launch precedes the retry time last stored, exactly when reads work and the first value is within policy |
| Dispatch.HasEligibleDebt | total_loss_loop.py:8500-8590 | the cheap check answers yes exactly when some path has eligible work |
| DispatchTurn.FindClaim | total_loss_loop.py:6881-6916 | the incident taken is one that no other waiting incident of its kind is offered before |
| DispatchTurn.FindRepair | total_loss_loop.py:7742-7760 | the waiting repair taken comes first by priority and detection |
| DispatchRows.ClaimTakesTheMostUrgent | total_loss_loop.py:6897-6912 | the incident claimed is the greatest by exposure, priority, avoidable loss and detection |
| DispatchRows.RepairTakesTheOldestOfTheFirst | total_loss_loop.py:7742-7750 | the repair taken has the highest priority and of those the earliest detection |
| DispatchRows.RetryOrderSorts | total_loss_loop.py:7207-7211 | retries come each once by falling priority and then oldest change |
| DispatchTurn.Controller.RetryPendingRuns | total_loss_loop.py:7201-7334 | the retry pass leaves the specified tables and launches |
| DispatchTurn.Controller.RecoverClassifications | total_loss_loop.py:7720-7739 | classified incidents without a run move on as specified |
| DispatchRows.RecoveredRow | total_loss_loop.py:7641-7739 | row by row: an incident classified and left without a run waits for repair if preventable and is observed if not; every other row stays |
| DispatchTurn.Controller.ClaimWhileFree | total_loss_loop.py:7360-7420 | the claim loop ends, every claim leaving fewer waiting, in the specified tables |
| DispatchRows.ClaimLeaves | total_loss_loop.py:7372-7422 | what a claim leaves of its incident by how build and spawn end, and of everything else |
| DispatchRows.ReopenedRow | total_loss_loop.py:7350-7357 | rows blocked for evidence are queued blind again, and no others |
| DispatchTurn.Controller.StartRepair | total_loss_loop.py:7742-7760 | the repair path leaves the specified tables and launch, in the one managed worktree or not at all |
| DispatchTurn.Controller.Turn | total_loss_loop.py:7337-7428 | one turn leaves the specified tables and launches |
| DispatchSafety.GateIsSound | total_loss_loop.py:8500-8590 | when the cheap check says no, a full turn launches nothing, tries nothing and moves no incident |
| DispatchSafety.TurnWithinSlots | total_loss_loop.py:7337-7428 | whatever spawns and builds answer, no tallied kind ends above its slots unless it began there |
| DispatchSafety.TurnReportsItsRuns | total_loss_loop.py:7337-7428 | the answer lists exactly the incidents of the run records added, in order |
| DispatchSafety.ClaimPhaseFillsSlots | total_loss_loop.py:7360-7420 | unless an active backoff ended it, the claim phase leaves no free slot while work waits |
| DispatchLaunches.LaunchedAreRunning | total_loss_loop.py:7337-7428 | every run a turn adds is running and so is its incident, whatever else the turn did |
| DispatchLaunches.RecoveredRepairsArePreventable | total_loss_loop.py:7671-7760 | a run launched for an incident found running its classification is the repair of a preventable loss, its classification on file and its own run gone |
| DispatchProgress.TurnRetryIff | total_loss_loop.py:7217-7253 | exactly when a run is repeated, in the columns of the run records and of the incident |
| DispatchProgress.RepairStartsIff | total_loss_loop.py:7742-7760 | exactly when the repair path starts the first waiting repair, and what it adds |
| DispatchProgress.TurnActsIff | total_loss_loop.py:7337-7428 | whatever spawns and builds answer, a turn changes or tries something exactly when its gate is open and one of its five paths has work |
| DispatchOutcomes.TurnStrandsNoClaim | total_loss_loop.py:7337-7428 | unless evidence was unusable, an incident running after a turn was running before or has a run the turn added |
| DispatchOutcomes.UnusableEvidenceStrandsClaim | total_loss_loop.py:7381-7387 | a claim whose evidence is unusable stays running without a run |
| DispatchOutcomes.TurnKeepsWritersApart | total_loss_loop.py:7185-7237 | no run a turn adds writes to a worktree in which a writer was already running |
| ForecastSteps.CeilIsExact | scripts/_tigge_common.py:156-158 | on whole seconds the forgiving ceiling is the exact count of six-hour windows, at least one |
| ForecastSteps.PredictedStepSet | scripts/_tigge_common.py:104-142 | the scan with its early stop yields all scanned windows that touch the day |
| ForecastSteps.LargestIsRequiredIff | scripts/_tigge_common.py:75-101 | the largest predicted step is the required one exactly for days ending inside the scan |
| ForecastSteps.PredictedAreConsecutive | scripts/_tigge_common.py:130-142 | the predicted steps are consecutive multiples of six |
| ForecastSteps.PredictedCoverTheDay | scripts/_tigge_common.py:130-142 | every instant of the day from issue on lies in a predicted window |
| ForecastSteps.PredictedHoldSomeOfTheDay | scripts/_tigge_common.py:168-177 | every predicted window holds such an instant |
| ForecastSteps.PredictedIffListed | scripts/_tigge_common.py:287-295 | a step is predicted for a date exactly when the window's date list holds it |
| ScopeGlob.FlattenKeepsMeaning | scripts/_zpkt_scope.py:118-125 | replacing double stars keeps the matched set for every bracket-free pattern and every text |
| ScopeGlob.Normalize | scripts/_zpkt_scope.py:110-115 | the loop strips and removes every leading `./` |
| ScopeGlob.NormalizeStableIff | scripts/_zpkt_scope.py:110-115 | normalising again changes nothing exactly when no white space follows the leading `./` parts |
| ScopeGlob.GlobMatchIsRaw | scripts/_zpkt_scope.py:118-125 | for bracket-free patterns the first match is the first match of the patterns as written |
| ScopeGlob.BucketIsRaw | scripts/_zpkt_scope.py:128-140 | the bucket is the denial-first bucket of the raw patterns |
| ScopeGlob.DenyOnlyMovesOut | scripts/_zpkt_scope.py:128-140 | an added denial moves exactly the paths it matches, and only to out-of-scope |

## Left out

- scripts/audit_day0_extreme_undercapture.py: it counts, per cell, how far recorded daily extremes fall short of reconstructed ones; it is not modelled.
- Codex commands, prompts, capability probing, git and deployment: process and network plumbing. A turn without current capabilities starts a probe, which is not an incident run.
- SQLite schema, indexes and pragmas: only atomic commit or abort is kept.
- Startup-batched reconciliation and its run cursor: its view of run records is partial by design.
- Trigger receipt debts: stored identifier lists are truncated text.
- Precursor scoring and monitor dynamics: heuristics without a specification.
- Liveness of retry-pending incidents without a prior run record: the code gives no progress argument.
- Local evidence maintenance during a provider backoff: it launches nothing and is not part of the turn's model.
- Choosing which position a backfill slice serves, and exposure times that cannot be parsed: only the slice itself is modelled.
- Comparing times as text: times are compared as instants.
- Daylight-saving zones, floating-point rounding and sub-second forecast instants: offsets are constant, arithmetic is exact.
- Choosing, sorting and deduplicating clock anchors, and the final sort of the returned quotes: the anchors are given in order.
- Emergency writing of evidence debt when the memory cannot be written: only the ordinary path is modelled.
- ScopeGlob.FlattenKeepsMeaning: bracket-free patterns only, because inside a character class the rewrite can change the matched set: `[!+-**]` does not match `*`, its rewriting does.
- Processes that outlive a killed group, and grandchildren holding an inherited lock: a killed process closes its descriptors at once.
- Choosing between the projection quote and the newest full book: the trigger step takes the chosen quotes as input.
