# Durable execution: a Dafny model

This project models how the repository runs a plan of steps so that a crash at any point leaves something that can be
recovered, and proves what its stores, checks and recovery rules guarantee. It also covers the dependency resolver, the
job queue and the learning-pattern limiter.

**The stores.** A lock row per plan, an attempts table, an append-only ledger, an operator queue and a checkpoint row are
written by different modules. `ExecutionTables` says what each operation does to the tables as a function from tables to
tables; `IntegrityStore.Store` and `StateStore.CheckpointStore` are the objects that update their fields step by step, and
every method's contract says that its new state and its result are those of the function of the same operation. A run is
any sequence of operations by any workers; a crash is where a sequence stops. A transaction commits when its operation
returns, a returned failure included, and is undone when it throws, which `FinalizeExecutionTransition`,
`QueueRecoveryReview` and `PersistExecutionSnapshot` model by restoring what they had written.

**What is proved about the stores.** The ledger alone determines lock rows, attempt statuses and counters (`LedgerReplay`). A
lock stays with its execution until that execution releases it, and a replaced worker is fenced (`LockSafety`). Attempts are
numbered 1, ..., n per step and automatic idempotency keys do not collide where they must not (`AttemptIdentity`). The
attempt section of the integrity check, with its grouping, sorting and counting loops, is silent exactly on consistent
tables, and the operations that keep it silent are characterised exactly (`IntegrityChecker`, `CleanRuns`). A snapshot goes
in whole or not at all, never rewrites settled history, and stores an execution as failed exactly beside a failed step
(`SnapshotStore`). An operator's retry keeps the views in agreement exactly when it does not go back behind the last
completed step (`OperatorRetry`).

**What is proved about recovery.** Reconciliation never lowers progress, raises it only over a completed attempt, and never
answers "completed" or "halt" (`Reconciliation`). After the engine's normaliser only a failed pure read is retried
(`Normalisers`). `CrashRecovery` and `RecoveryProgress` say what a recovery can leave behind and what it never does.
`CrashModel` is the world of whole runs: one execution of one plan with any number of living processes, each of which may die
between any two transactions, inside a recovery as well, while launches, recoveries, cancellations, retries, resumptions
after a review and snapshots happen beside it and leases run out. `CrashInvariant` proves what every run keeps, and
`CrashSafety` what follows: the completed steps are exactly the prefix the checkpoint counts, an attempt is only ever begun
for the first open step, progress rises by one step at a time whoever works, the ways in which a recovery restarts an
interrupted step are listed completely, and it is said exactly which moves make the attempt check complain. What carries this
is the guard of the begin and end transactions, which refuse a step whose snapshot row is settled; the lock is not asked
there. `CrashRuns` exhibits the runs in which two living workers begin one step and in which an attempt ends twice.
`RecoveryVerdicts` decides what a recovery does with an interrupted step, and with a plan that waits, in every case, whatever
the gates, the records and the operators' queue say, and how it leaves the plan. `LoopSafety` and `Resume` say what the stage
and step loop starts with any outcomes: nothing before what it needs, and everything in order up to the first step that does
not succeed. `Resume` shows that the checkpoint laid over a run and the stage and step loop together start exactly the
remaining steps, once each and in order.

**Where the code differs from what one might expect.**
- `validateExecutionIntegrity` returns no ledger, so the ledger evidence that `reconcileExecutionState` asks for is always
  that of an empty ledger; only attempt rows and the snapshot row decide. The model follows the code.
- A checkpoint paused for an operator whose queue items have expired is called corrupted when the engine validates first,
  and abandoned when reconciliation sees it first. Each reads the clock anew, so after a successful validation the pause is
  abandoned exactly when an open item runs out between the two readings (`PauseIsCalledCorruptedExactly`,
  `ExpiredPauseIsAbandonedUnderLock`, `ValidatedPauseIsAbandonedExactly`).
- With the lock released and a cancellation pending, a recovery starts an idempotent step again although its running
  attempt still holds a lease (`PendingCancellationRestartsUnderLiveLease`, `PendingCancellationOccurs`).
- No step runs again once it is completed, but two living workers can run one step at once: a recovery takes the lock over
  from a worker that stalled before its first attempt, and both begin it (`TwoWorkersAtOneStep`). Only the first to finish
  counts (`ProgressIsOneStepAtATime`).
- The transaction that ends an attempt does not ask whether it still runs, so a worker can end an attempt that a recovery has
  cancelled (`AttemptEndsTwice`). These two are exactly how the attempt check comes to complain (`CheckBrokenExactly`).
- Reconciliation can retry a failed attempt and count a completed one, but in runs of the engine it never has to: an attempt
  ends and the checkpoint follows in one transaction (`InterruptedStepIsDecidedInEveryRun`).
- A batch of the job queue can bring a cancelled job back and so pass the capacity limit (`StaleBatchPassesTheLimit`);
  `LiveRisesExactly` says precisely which moves can.
- A refused heartbeat still extends the attempt's lease (`RefusedHeartbeatStillExtendsAttemptLease`).
- Identifiers joined with colons can be confused (`ColonsConfuseTheCheck`, `CollisionAcrossExecutions`);
  `RunsPassTheCheckExactly` and `CreateRefusedExactly` say exactly when that matters.
- Two stored snapshot rows cannot exchange their sequence numbers, unless the run lists one of them twice (`SwapIsRefused`,
  `RepeatedIdExchanges`).
- The three normalisers number steps without an id differently (`DefaultIdsDisagree`), and only one trims the plan id
  (`PlanIdsAgreeWhenTrimmed`).

Time is a natural number of milliseconds that does not move inside one operation; tables are maps and sequences; ids are
strings. `dafny verify dfyconfig.toml` checks the project.

## Model

| member | source | states |
|---|---|---|
| DependencyResolver.NormalizeStep | services/dependencyResolver.js:1-11 | a step keeps its id or gets one, and needs exactly what it declares, without blanks and repetitions; a prerequisite counts only when there is no list |
| DependencyResolver.BuildEdges | services/dependencyResolver.js:13-18 | every known id has exactly the dependencies of a step that carries it |
| DependencyResolver.LastStepWins | services/dependencyResolver.js:13-18 | of several steps with one id the last one gives the dependencies |
| DependencyResolver.CycleDetector.Visit | services/dependencyResolver.js:25-44 | the search keeps its marks consistent: finished ids are in topological order, and a reported walk closes on itself |
| DependencyResolver.DetectDependencyCycle | services/dependencyResolver.js:20-52 | null exactly when the known graph has no cycle; otherwise a walk along dependency edges whose last element already occurs in it |
| DependencyResolver.TopologicalOrderRefutesCycles | services/dependencyResolver.js:20-52 | a topological order of all known ids leaves no room for a cycle |
| DependencyResolver.DedupKeepsOrder | services/dependencyResolver.js:1-11 | what a step needs stays in the order in which it was first declared |
| DependencyResolver.Partition | services/dependencyResolver.js:67-79 | every step is either ready or deferred, each list in plan order, and ready exactly when all it needs is completed and none of it failed |
| DependencyResolver.ResolveDependencies | services/dependencyResolver.js:54-86 | a cycle blocks everything; otherwise a step is ready exactly when all it declares is completed and none of it failed, and each open step that depends on no failed one is ready itself or needs an open step that is |
| DependencyResolver.UnharmedStepsAdvance | services/dependencyResolver.js:67-79 | failures elsewhere do not hold a step up: with any failed steps, an open one that depends on none of them has itself or something it needs among the ready |
| DependencyResolver.SomeRemainingStepIsReady | services/dependencyResolver.js:54-86 | no deadlock: without cycles, unknown dependencies and failures some uncompleted step is ready whenever one remains |
| DependencyResolver.ScheduleCanFinish | services/dependencyResolver.js:54-86 | every schedule of ready steps can be continued until all steps are completed |
| DependencyResolver.StuckScheduleIsComplete | services/dependencyResolver.js:54-86 | a schedule that cannot be continued has completed everything |
| DependencyResolver.ScheduleIsTopological | services/dependencyResolver.js:54-86 | completing ready steps one by one completes them in topological order |
| DependencyResolver.FailureContainment | services/dependencyResolver.js:54-86 | as long as a failed step is not completed, none of its transitive dependents becomes ready |
| IntegrityStore.Store.AcquireExecutionLock | services/executionIntegrityStore.js:238-319 | takes a free lock for an execution; an active one is a recorded conflict that changes nothing else |
| IntegrityStore.Store.AcquireOrReuseExecutionLock | services/executionIntegrityStore.js:321-403 | as above, but the same execution always gets its lock again, whoever the worker |
| IntegrityStore.Store.RenewExecutionLockTx | services/executionIntegrityStore.js:433-515 | extends the lease of the holding worker; anyone else is refused |
| IntegrityStore.Store.ReleaseExecutionLockTx | services/executionIntegrityStore.js:517-567 | the named execution gives up the lock, whoever the worker |
| IntegrityStore.Store.CreateExecutionAttempt | services/executionIntegrityStore.js:694-789 | appends the next attempt of a step with its key and start event, or refuses a taken key |
| IntegrityStore.Store.HeartbeatExecutionAttempt | services/executionIntegrityStore.js:791-838 | touches a running attempt, then renews the lock; a refused renewal is returned, not undone |
| IntegrityStore.Store.FinalizeExecutionAttempt | services/executionIntegrityStore.js:852-925 | ends an attempt, counts the outcome and records it |
| IntegrityStore.Store.EnqueueOperatorRecovery | services/executionIntegrityStore.js:961-1034 | queues an item for an operator with its time to live |
| IntegrityStore.Store.ExpireOperatorRecoveryItems | services/executionIntegrityStore.js:1036-1078 | resolves and records exactly the unresolved items of the plan whose time is up |
| IntegrityStore.Store.LeaseLost | services/executionEngine.js:170-232 | a lease is lost exactly when the heartbeat has said so, the lock is not held by this worker and execution, or the stored lease has run out |
| LedgerReplay.ApplyAgrees | services/executionIntegrityStore.js:238-567 | every operation keeps tables and ledger in agreement |
| LedgerReplay.RunAgrees | services/executionIntegrityStore.js:694-925 | so does every sequence of operations |
| LedgerReplay.ReplayFromScratch | services/executionIntegrityStore.js:619-639 | from empty tables, locks, attempt statuses and counters are a fold over the ledger |
| LedgerReplay.SilentEventChangesNothing | services/executionIntegrityStore.js:257-275 | a recorded lease conflict, heartbeat or lifecycle event changes nothing that is replayed |
| LedgerReplay.RefusedHeartbeatStillExtendsAttemptLease | services/executionIntegrityStore.js:800-812 | a heartbeat extends the lease of a running attempt also when the renewal is refused, which is exactly when the worker does not hold the lock; locks stay and no attempt event is recorded |
| LockSafety.LockStaysWithExecution | services/executionIntegrityStore.js:257-275 | between an acquisition and a release naming the execution the lock stays with it, expired lease or not |
| LockSafety.OtherExecutionsAreRefused | services/executionIntegrityStore.js:340-374 | meanwhile no other execution can take it |
| LockSafety.OldWorkerIsFenced | services/executionIntegrityStore.js:448-485 | after a takeover every renewal and heartbeat of the old worker fails and its lease check stays lost until it acquires again |
| LockSafety.TakeoverAlwaysSucceeds | services/executionIntegrityStore.js:340-374 | another worker of the same execution can always take over |
| LockSafety.LeaseRunsOutExactly | services/executionEngine.js:215-232 | a healthy holder keeps its lease: while nobody else takes plan or execution and neither is released, it is reported lost exactly when the whole duration has gone by since it was last taken or extended |
| AttemptIdentity.AttemptsAreNumberedInOrder | services/executionIntegrityStore.js:715-726 | under any interleaving the attempts of a step are numbered 1, ..., n as they are created |
| AttemptIdentity.NumbersIdentify | services/executionIntegrityStore.js:715-726 | plan, execution, step and number identify an attempt |
| AttemptIdentity.AutoKeysOfOneExecution | services/executionIntegrityStore.js:715-726 | within one execution an automatic key determines step and number, colons in step ids included |
| AttemptIdentity.AutoKeysWithoutColons | services/executionIntegrityStore.js:715-726 | across executions too, when plan and execution ids hold no colon |
| AttemptIdentity.ExternalWritesDiffer | services/executionIntegrityStore.js:715-726 | over any run two external writes of one execution never share an automatic key |
| AttemptIdentity.AutoKeysCoincideExactly | services/executionIntegrityStore.js:715-726 | two automatic keys are equal exactly when the joined ids and the numbers are |
| AttemptIdentity.CreateRefusedExactly | services/executionIntegrityStore.js:715-760 | the uniqueness constraint refuses an attempt with an automatic key exactly when it is an external write and another one is stored under the same joined ids with the number about to be given |
| AttemptIdentity.CreateNeverCollides | services/executionIntegrityStore.js:715-760 | in particular never with colon-free plan and execution ids |
| AttemptIdentity.CollisionAcrossExecutions | services/executionIntegrityStore.js:715-760 | with colons two executions can share a key and the second attempt is refused |
| IntegrityChecker.GroupBy | services/executionReconciliation.js:110-120 | one group per key, in order of first appearance, each with its items in order |
| IntegrityChecker.SortByNumber | services/executionReconciliation.js:653 | a sorted permutation of the rows |
| IntegrityChecker.CheckGroup | services/executionReconciliation.js:652-702 | silent on a group exactly when its numbering is complete, its attempts are clean and at most one runs; and each code is reported exactly for its own fault |
| IntegrityChecker.CleanMeans | services/executionReconciliation.js:668-695 | an attempt is clean exactly when an external write has a usable key and there is one start and, once ended, one end of its kind under its key |
| IntegrityChecker.CollectAttemptIssues | services/executionReconciliation.js:649-703 | the attempt section is silent exactly when every group is clean |
| IntegrityChecker.CheckMeansConsistent | services/executionReconciliation.js:649-703 | where the joined keys identify steps and attempts, that is exactly consistency of every step of every execution of the plan |
| IntegrityChecker.ColonFreeIdentifies | services/executionReconciliation.js:649-650 | with colon-free execution ids they do, whatever else is on record |
| IntegrityChecker.CheckSilentExactly | services/executionReconciliation.js:649-703 | where attempts are numbered properly and every event belongs to one, the check is silent exactly when no two steps join to one key and every step of the plan is consistent |
| CleanRuns.AllowedExactlyKeepsClean | services/executionIntegrityStore.js:694-925 | one operation keeps clean tables clean if and only if it starts no second running attempt, gives an external write a key and records no outcome twice |
| CleanRuns.DisciplinedRunsStayClean | services/executionIntegrityStore.js:694-925 | every run that starts an attempt only when none runs and finalises only running ones stays clean |
| CleanRuns.RunsPassTheCheckExactly | services/executionReconciliation.js:649-703 | after any run whatever that ends attempts with an outcome and gives no empty key, the check, as coded, is silent exactly when no joined keys coincide, no step has two attempts running and every ended attempt has its outcome on record once |
| CleanRuns.OrderlyRunsPassTheCheckExactly | services/executionReconciliation.js:649-703 | after any run that finalises only running attempts the check, as coded, is silent exactly when no joined keys coincide and no step has two attempts running |
| CleanRuns.DisciplinedRunsPassTheCheck | services/executionReconciliation.js:649-703 | when moreover none starts beside a running one, everything is consistent and the check is silent exactly when no joined keys coincide |
| CleanRuns.ColonFreeRunsPassTheCheck | services/executionReconciliation.js:649-650 | so it is silent when no execution id holds a colon |
| CleanRuns.ColonsConfuseTheCheck | services/executionReconciliation.js:649-650 | with colons a disciplined run of two attempts leaves consistent tables that are reported |
| Normalisers.CompositionKeepsSteps | services/executionEngine.js:615-651 | after the engine's normaliser the other two keep every step with its id, place, flag and strategy |
| Normalisers.CompositionDropsDeclarations | services/executionReconciliation.js:71-108 | declared effects and keys do not survive the engine's normaliser |
| Normalisers.ThroughEngineOnlyPureReadsRetry | services/executionReconciliation.js:780-822 | through the engine a failed attempt is retried exactly when it was a pure read; a guarded retry is unreachable |
| Normalisers.GuardedRetryExactly | services/executionReconciliation.js:780-822 | when a guarded retry is chosen at all: exactly for keyed or idempotent local writes with declared, known effects and no manual-only strategy |
| Normalisers.ReconNormalizeTwice | services/executionReconciliation.js:71-108 | normalising for reconciliation twice changes nothing |
| Normalisers.DefaultIdsDisagree | services/executionStateStore.js:236-253 | the default ids of the engine and the other two agree exactly when the step has an id |
| Normalisers.PlanIdsAgreeWhenTrimmed | services/executionStateStore.js:255-270 | the stores share a plan key exactly when the id has nothing to trim |
| StateStore.CheckpointStore.StartExecutionState | services/executionStateStore.js:328-357 | writes the first checkpoint or refuses an existing one |
| StateStore.CheckpointStore.CheckpointBeforeStep | services/executionStateStore.js:386-406 | the checkpoint says this step is running |
| StateStore.CheckpointStore.CheckpointAfterStep | services/executionStateStore.js:408-433 | progress moves to the step; the last step completes the checkpoint |
| StateStore.CheckpointStore.FailExecutionCheckpoint | services/executionStateStore.js:435-455 | the checkpoint says this step failed |
| StateStore.CheckpointStore.MarkAwaitingReview | services/executionStateStore.js:457-477 | the checkpoint waits for a review of this step |
| StateStore.CheckpointStore.SetExecutionCheckpointStatus | services/executionStateStore.js:479-510 | status and named indices change, the rest stays |
| StateStore.CheckpointStore.FinalizeExecutionTransition | services/executionStateStore.js:512-581 | status, event and release together, or nothing when the release is refused; a missing checkpoint is a returned failure |
| StateStore.CheckpointStore.RequestExecutionCancellation | services/executionStateStore.js:583-602 | only the cancellation flag is set |
| StateStore.CheckpointStore.RecoverExecutionState | services/executionStateStore.js:604-704 | where the loop may take over: past the progress, or at an interrupted idempotent step |
| SnapshotStore.Store.PersistExecutionSnapshot | services/executionStateStore.js:1262-1345 | checks every transition, upserts, deletes what the run no longer has, or rolls back |
| SnapshotStore.Store.UpsertRows | services/executionStateStore.js:1231-1260 | row by row until a sequence number is taken |
| SnapshotStore.UpsertSucceedsExactly | services/executionStateStore.js:1008-1124 | upserts go through exactly when no row, at its turn, asks for a number another id occupies then |
| SnapshotStore.SnapshotIsAllOrNothing | services/executionStateStore.js:1262-1345 | a snapshot is stored exactly when its transitions are allowed and no number collides; then rows mirror the run and other executions are untouched; otherwise nothing changes |
| SnapshotStore.RotationIsRefused | services/executionStateStore.js:1231-1260 | when the run repeats no id, stored rows that want each other's numbers are refused, however many |
| SnapshotStore.SwapIsRefused | services/executionStateStore.js:1231-1260 | in particular two stored rows cannot exchange their numbers, wherever they stand in the list |
| SnapshotStore.RepeatedIdExchanges | services/executionStateStore.js:1231-1260 | a run that repeats an id does exchange them by way of a free number |
| SnapshotStore.SurvivingStepRemembers | services/executionStateStore.js:46-124 | over any sequence of snapshots a surviving step keeps a settled status, its original input and its key |
| SnapshotStore.SurvivingStageRemembers | services/executionStateStore.js:46-124 | a surviving stage keeps a settled status |
| SnapshotStore.SettledExecutionStaysSettled | services/executionStateStore.js:933-944 | a settled execution keeps its status for good |
| SnapshotStore.SnapshotOverwritesCounters | services/executionStateStore.js:979-984 | lease and counter columns become whatever the run object says |
| SnapshotStore.ExecutionFollowsSteps | services/executionStateStore.js:712-784 | a stored execution has failed exactly when a step handed over is stored as failed, and is completed exactly when there are steps and each is stored as completed, or as paused for being deferred |
| SnapshotStore.FailedBesideFailedStep | services/executionStateStore.js:712-784 | so, without repeated steps, it has failed exactly beside a stored step that has |
| SnapshotStore.StoringAgainChangesNoStatus | services/executionStateStore.js:743-784 | naming the stored statuses of steps and stages and persisting them again changes none |
| SnapshotStore.ExecutionRowFollows | services/executionStateStore.js:786-816 | an execution keeps its creation, starts with its run or its first started step, and wants a review exactly while one is pending |
| OperatorRetry.ReviewedExecution.ApplyRetryStep | services/executionStateStore.js:1591-1764 | the retry is granted exactly for a failed plan or one that waits for a review and has a step to retry, the named one or else the first failed, the first paused, the one at the position; it resets checkpoint, execution, steps and stages from there, or changes nothing |
| OperatorRetry.ReviewedExecution.CollectSnapshotIssues | services/executionReconciliation.js:397-543 | silent exactly when rows, stages, progress, statuses and position agree with plan and checkpoint |
| OperatorRetry.RetryAgreesExactly | services/executionStateStore.js:1591-1764 | from agreeing views the checks are silent after a retry exactly when the step is not before the last completed one |
| OperatorRetry.UnnamedRetryKeepsAgreement | services/executionStateStore.js:1591-1608 | a retry that names no step keeps the completed prefix, moves the position past it and leaves nothing to report |
| OperatorRetry.AgreementMeans | services/executionReconciliation.js:397-543 | the checks are silent exactly when the rows name the plan's steps, stages say what their steps say, as many rows are completed as the checkpoint counts, and statuses and position go together |
| Reconciliation.Reconciler.ValidateExecutionIntegrity | services/executionReconciliation.js:727-778 | expires queue items, then marks the checkpoint corrupted exactly when some check complains |
| Reconciliation.Reconciler.DiagnoseStep | services/executionReconciliation.js:1124-1310 | what is known of an interrupted step, in the order of the source |
| Reconciliation.Reconciler.QueueRecoveryReview | services/executionReconciliation.js:903-954 | the queue item and the pause together, or neither |
| Reconciliation.Reconciler.RunningBranch | services/executionReconciliation.js:1124-1329 | the action for a running checkpoint, with its writes |
| Reconciliation.Reconciler.ReconcileExecutionState | services/executionReconciliation.js:985-1367 | the whole decision, with its writes |
| Reconciliation.ReconciliationIsMonotone | services/executionReconciliation.js:985-1367 | progress never falls; it rises only to the current step and only over a completed attempt of the lock holder; "completed" and "halt" are never answered |
| Reconciliation.ValidatesGoodOrderExactly | services/executionReconciliation.js:556-778 | a validation succeeds exactly when progress, position, lock and queue are in order, the attempts are consistent and nothing else complains; otherwise it marks the checkpoint and nothing more |
| Reconciliation.PauseIsCalledCorruptedExactly | services/executionReconciliation.js:705-732 | a validation calls a pause corrupted exactly when all its open items have expired or something else is wrong |
| Reconciliation.ExpiredSinceValidationExactly | services/executionIntegrityStore.js:1036-1078 | some time after a successful validation something is found expired exactly when an open item of the plan ran out since |
| Reconciliation.ValidatedPauseIsAbandonedExactly | services/executionReconciliation.js:1009-1027 | under the lock a validated pause is abandoned by the reconciliation that follows exactly when an open item's time falls between the two readings of the clock |
| Reconciliation.ExpiredPauseIsAbandonedUnderLock | services/executionReconciliation.js:1009-1027 | under an active lock reconciliation abandons it and releases the lock |
| Recovery.Runner.RecoverExecution | services/executionEngine.js:2806-2957 | the gates of a recovery in their order, and where the loop takes over |
| Recovery.Runner.LaunchExecution | services/executionEngine.js:2284-2350 | a launch takes a free lock and insists on a new checkpoint |
| CrashRecovery.ReconcileOutcome | services/executionReconciliation.js:985-1367 | what reconciliation leaves behind whenever it lets a recovery go on |
| CrashRecovery.RecoverOutcome | services/executionEngine.js:1327-1550 | a recovery that starts the loop starts it at the first open step, under the lock |
| RecoveryProgress.RecoverAdvances | services/executionEngine.js:2806-2957 | a recovery starts and completes no attempt, ends one only by cancelling it, keeps the records in order and never lowers progress |
| CrashInvariant.TurnKeeps | services/lifecycleAttemptAtomic.js:168-187 | whatever a process does at a step it may have been left behind at, the guard on the step's row keeps it from harm: tables, rows and process stay as they should be |
| CrashInvariant.RunKeepsInv | services/executionEngine.js:2806-2957 | the invariant over every run of launches, steps, pauses, crashes, recoveries whole or cut short, cancellations, retries, resumptions and snapshots, by any number of living processes |
| CrashInvariant.FirstOpenIsNext | services/executionEngine.js:3019-3190 | a run resumed after a review, which does not look at the checkpoint, starts no further than at the first open step |
| CrashSafety.CompletedStepsAreAPrefix | services/lifecycleAttemptAtomic.js:593-698 | after any run the steps with a completed attempt are exactly the prefix the checkpoint counts |
| CrashSafety.CompletedStepsAreNeverRestarted | services/lifecycleAttemptAtomic.js:168-245 | whoever is alive, an attempt is only ever created by a process at the first step without a completed attempt |
| CrashSafety.ProgressIsOneStepAtATime | services/lifecycleAttemptAtomic.js:593-698 | progress never falls and rises by one exactly when some process completes an attempt of the first open step |
| CrashSafety.UnsuccessfulEndsStopThePlan | services/lifecycleAttemptAtomic.js:593-698 | after an attempt that failed or was paused no recovery starts the plan by itself |
| CrashSafety.FailedStepsWaitForTheOperator | services/lifecycleAttemptAtomic.js:168-187 | a failed step stays failed and nobody begins or ends an attempt of it until an operator retries it or an earlier one |
| CrashSafety.RecoveryRestartsOnlySafely | services/executionReconciliation.js:1124-1329 | a recovery, also beside living processes, takes up a step left running only if it is flagged idempotent and was never attempted, or a cancellation is pending over its live attempt with the lock released |
| CrashSafety.CheckComplainsExactly | services/executionReconciliation.js:649-703 | in a run the attempt check complains exactly while two attempts of one step are running or an ended attempt does not have its outcome on record once |
| CrashSafety.CheckBrokenExactly | services/lifecycleAttemptAtomic.js:189-245 | a move makes it complain exactly by beginning an attempt over one that still runs, of a dead or a living process, or by ending one whose end of that kind is already on record |
| CrashSafety.RetryIsSoundExactly | services/executionStateStore.js:1591-1622 | an operator's retry keeps the tables sound exactly when no completed step lies ahead of the checkpoint |
| CrashSafety.RetriesSeeNothingAhead | services/lifecycleAttemptAtomic.js:593-698 | in a run none ever does |
| CrashSafety.RetriedIsTheOperatorsRow | services/executionStateStore.js:1591-1622 | the retry used in the runs is the operator action's own checkpoint row |
| RecoveryVerdicts.InterruptedStepIsDecided | services/executionReconciliation.js:985-1367 | for every answer of the gates, every queue and every state of the records it is said what a recovery does with an interrupted step: left alone, called corrupted, paused, counted as done, run again, left to an operator and why, cancelled or abandoned, and how plan and lock are left; in particular it is too late exactly when one of the execution's attempts is older than the limit |
| RecoveryVerdicts.InterruptedStepIsDecidedInEveryRun | services/executionEngine.js:2806-2957 | the same wherever a run leaves a step running, living processes or not; there the records are inconsistent exactly while two attempts of a step run or an end is not on record once, and the step is never found completed or failed |
| RecoveryVerdicts.WaitingPlanIsDecided | services/executionReconciliation.js:1331-1360 | past the same gates, records and queue a pending or paused plan is cancelled if that was asked for, and else runs on from its first open step under the lock with nothing else changed |
| RecoveryVerdicts.LaunchIsDecided | services/executionEngine.js:2284-2350 | a launch starts the first step exactly when nothing turns it away, the lock is free, the plan is new and everything is in order; otherwise it starts nothing, and keeps no lock unless it left a new checkpoint |
| RecoveryVerdicts.GoingOnTakesUp | services/executionStateStore.js:604-704 | a step that may run again does so only if flagged idempotent; otherwise the plan waits for a review and the lock is free |
| RecoveryVerdicts.PendingCancellationRestartsUnderLiveLease | services/executionReconciliation.js:1249-1255 | with a cancellation pending and the lock released a live attempt does not keep its step from being started again |
| CrashRuns.PendingCancellationOccurs | services/executionReconciliation.js:1249-1255 | a launch, a beginning, a request to cancel and a stop in flight lead there from nothing |
| CrashRuns.TwoWorkersAtOneStep | services/lifecycleAttemptAtomic.js:189-245 | a launch that stalls past its lease, a recovery by another worker, and both begin the first step: two living processes run it at once, whatever its side effects, and only the second beginning makes the check complain |
| CrashRuns.AttemptEndsTwice | services/lifecycleAttemptAtomic.js:283-340 | a recovery cancels the attempt of a stalled worker and dies, the worker pauses it in its turn, and the check complains |
| Engine.ApplyCheckpointToRun | services/executionEngine.js:659-738 | the loops over steps and stages that lay a checkpoint over a run |
| Engine.RunStageSteps | services/executionEngine.js:1843-2112 | the loop over the steps of a stage, with its early exits |
| Engine.ContinueExecution | services/executionEngine.js:1705-2148 | the loop over stages, with its early exits |
| LoopSafety.NothingStartsTooEarly | services/executionEngine.js:1741-2148 | on any run with any outcomes no step is started twice, and none unless it was open, no stage before its own had failed, and all it needs is in its stage or completed by then |
| LoopSafety.MissingDependencyExactly | services/executionEngine.js:1793-1840 | a stage is refused exactly when a step lacks a dependency; then nothing of it starts, and the first such step and the stage have failed |
| LoopSafety.StageGoesByItsNumbers | services/executionEngine.js:1762-1763 | within a stage the loop goes by the steps' own numbers |
| Resume.AppliedSteps | services/executionEngine.js:676-691 | exactly the first steps by sequence, as many as the checkpoint counts, are completed |
| Resume.AppliedStages | services/executionEngine.js:693-718 | a stage is completed exactly when all its steps are |
| Resume.RunningStageExactly | services/executionEngine.js:659-718 | a stage is shown running exactly when it is open and holds the step at the position of a running checkpoint |
| Resume.ContinueCoversPending | services/executionEngine.js:1741-2148 | with no pause and no failure the loop starts exactly the pending steps, once each, in order, and completes the run |
| Resume.ContinueStopsAtTrouble | services/executionEngine.js:2047-2127 | whatever the outcomes, the first pending step that does not succeed stops the loop: those before it were started in order and completed, it and its stage have failed or wait for a review, and nothing behind it has changed |
| Resume.RunCompletesExactly | services/executionEngine.js:1741-2148 | the run completes exactly when every pending step succeeds |
| Resume.ResumeCoversTheRemainder | services/executionEngine.js:659-738 | after a checkpoint is applied those are exactly the steps past it |
| JobQueue.OnePassDecides | services/jobQueue.js:482-610 | what one pass makes of a waiting job for each outcome, the delay doubled once per retry included |
| JobQueue.WaitsForItsTime | services/jobQueue.js:582-597 | a rescheduled job may be taken up exactly from its time on |
| JobQueue.StaleExactlyAfterLease | services/jobQueue.js:612-656 | a started job is stale exactly when its lease has run out |
| JobQueue.LeaseDurationMs | services/jobQueue.js:58-64 | fifteen seconds more than the run may take, between sixteen seconds and five minutes |
| JobQueue.Queue.UpsertJob | services/jobQueueStore.js:381-386 | all unfinished jobs stay, at most the limit of finished ones, and none removed is newer than one kept |
| JobQueue.Queue.EnqueueJob | services/jobQueue.js:273-325 | admits a job exactly when neither limit is reached |
| JobQueue.Queue.StartJob | services/jobQueue.js:482-533 | a started job is running with one more attempt; an inadmissible one fails; a cancelled one is left alone |
| JobQueue.Queue.FinishJob | services/jobQueue.js:534-610 | success completes; failure is scheduled again with doubled delay while attempts remain |
| JobQueue.Queue.ListJobs | services/jobQueueStore.js:105-142 | the first jobs by time of creation, in order, as many as the limit allows |
| JobQueue.Queue.RecoverStaleJobs | services/jobQueue.js:612-656 | exactly the stale running jobs among the newest two hundred are rescheduled or failed |
| JobQueue.Queue.RunPendingJobs | services/jobQueue.js:658-677 | an undisturbed batch takes each of the oldest eligible jobs through one pass and touches no other |
| JobQueue.Queue.CancelJob | services/jobQueue.js:765-787 | cancels what has not started |
| JobQueue.Queue.RetryJob | services/jobQueue.js:789-817 | requeues what failed or waits |
| JobRuns.RunsKeepInv | services/jobQueue.js:658-677 | the invariant over every run, moves between the steps of a batch included |
| JobRuns.RetryArithmetic | services/jobQueue.js:582-597 | attempts stay within the maximum plus manual retries; without those the retry counter follows the attempts and all backoff stays within the geometric sum |
| JobRuns.RetriesBackOffExponentially | services/jobQueue.js:582-597 | over every run without a manual retry a failed job waits its delay doubled once per earlier attempt, or has failed for good with the last |
| JobRuns.StaleJobsWaitOnce | services/jobQueue.js:612-656 | a stale job waits its plain delay, whatever attempt it was |
| JobRuns.LiveRisesExactly | services/jobQueue.js:202-216 | live jobs rise exactly by an admission, a manual retry of a failed job or a requeued cancelled one |
| JobRuns.LiveJobsAreBounded | services/jobQueue.js:273-281 | queued, waiting and running jobs never exceed the limits less one, plus the revived |
| JobRuns.StaleBatchPassesTheLimit | services/jobQueue.js:659-672 | without any manual retry a stale batch can pass the limit |
| JobRuns.LiveJobsStay | services/jobQueueStore.js:182-191 | only a move that ends a job can make it disappear |
| JobRuns.RetentionHolds | services/jobQueueStore.js:182-191 | over every run at most the limit of finished jobs is kept |
| Learning.PatternStore.CountRecentPatternCreations | services/learningAdvisory.js:362-370 | counts the patterns created within the last hour |
| Learning.GroupEvents | services/learningAdvisory.js:400-421 | one candidate per signature, summing up exactly its events |
| Learning.ClassificationMeans | services/learningAdvisory.js:381-393 | what validated, conflicting and confidence say about the events |
| Learning.OppositeOutcomesConflict | services/learningAdvisory.js:381-393 | an outcome carried through and one turned down contradict each other |
| Learning.SignatureTellsApart | services/learningAdvisory.js:400-421 | without colons in reason codes the events of a candidate agree in reason and mode; `SignaturesCanCoincide` is a pair that with colons does not |
| Learning.PatternStore.UpsertDetectedPatterns | services/learningAdvisory.js:395-533 | known patterns are refreshed; new ones are created only while the window has room |
| Learning.DetectsExactly | services/learningAdvisory.js:395-533 | a detection creates as many patterns as there are new signatures or as the window has room for; every pattern seen says what its candidate says, and the others stay |
| Learning.PatternStore.PromoteLearningPattern | services/learningAdvisory.js:573-619 | approves if needed, then activates or refuses |
| Learning.PromotionExactly | services/learningAdvisory.js:573-619 | a promotion succeeds exactly on sufficient, uncontradicted evidence; a refused one still leaves an approval |
| Learning.RunsStayWithinLimits | services/learningAdvisory.js:362-508 | at most ten patterns in any hour, although the window is counted once per detection, and every active pattern is approved |
| Learning.DetectionKeepsModes | services/learningAdvisory.js:395-533 | no detection changes the mode of a known pattern |
| Learning.ConflictDoesNotDemote | services/learningAdvisory.js:455-482 | so an active pattern whose evidence turns conflicting can no longer be promoted, yet stays active |

## Left out

- CrashInvariant.RunKeepsInv: an operator's retry in a run names no completed step; what naming one does is
  `OperatorRetry.RetryAgreesExactly`. A snapshot in a run carries every step of the plan and completes none by itself, as the
  engine's do.
- Plans outside `CrashRecovery.GoodSetup`: blank plan or execution ids, plan ids with blanks around them, steps without an id
  or with a repeated one. What untrimmed plan ids and missing step ids do is `Normalisers.PlanIdsAgreeWhenTrimmed` and
  `Normalisers.DefaultIdsDisagree`.
- Reconciliation.Reconciler.ValidateExecutionIntegrity: the lifecycle, schema and snapshot checks are one boolean input, since
  `CrashModel` carries of the snapshot tables the step statuses only; the snapshot check itself is
  `OperatorRetry.ReviewedExecution.CollectSnapshotIssues`.
- Several executions taking turns on one plan: `CrashModel` follows one execution of one plan.
- The rest of a snapshot inside `CrashModel`: it carries the statuses of the step rows, which the begin and end transactions
  ask about and write. What else may refuse a transaction (a terminal execution row, another row of the same snapshot) changes
  nothing and so is a run without that act; the lifecycle, schema and snapshot checks and the evidence a recovery reads from the
  step's row are arbitrary inputs, so the results hold whatever those say.
- The clock moving inside one operation, except in a learning detection, where it may.
- `execute` past the checks it shares with recovery: anomaly, throttling, zero-stage and review-surface exits appear only as
  a process that stops, with or without releasing its lock.
- The identity checks, time and attempt limits of the engine: they appear as gates that may refuse.
- Parallel execution of ready steps, tool routing, heartbeat timers, and what a step's tool does: outcomes are inputs.
- Tenant and workspace filters, payloads, messages, audit rows, review records, telemetry and random ids.
- JSON encoding, ISO dates, SQL text, file repair and migration of old documents.
- Unicode white space and case mapping beyond ASCII.
- Numbers that are not whole, such as a fractional `maxAttempts`, and identifiers that are not strings.
- Operator actions other than `retry_step` and the approval that resumes a paused run; their audit and ledger entries.
- Columns of snapshot rows that every snapshot overwrites: they are one opaque field.
- The order in which the database returns rows of equal age, and the choice among equally old finished jobs when pruning.
- `clearJobs`, worker heartbeats, metrics, and job processors: a processor's outcome is an input.
