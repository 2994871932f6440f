/** What reconciliation, recovery and launch leave of one execution of one plan, whatever state they find. */
module CrashRecovery {
  import opened Common
  import opened ExecutionTables
  import opened AttemptIdentity
  import opened Normalisers
  import opened StateStore
  import opened Reconciliation
  import opened Recovery

  /** The plan as the engine normalised it, and the execution that runs it. */
  datatype Setup = Setup(plan: EnginePlan, execution: Id)

  ghost predicate GoodSetup(s: Setup) {
    && !Blank(s.plan.id) && Trim(s.plan.id) == s.plan.id && !Blank(s.execution)
    && (forall i :: 0 <= i < |s.plan.steps| ==> s.plan.steps[i].id != "")
    && forall i, j :: 0 <= i < j < |s.plan.steps| ==> s.plan.steps[i].id != s.plan.steps[j].id
  }

  // ----- Sound tables -----

  predicate StepDone(s: Setup, t: Tables, k: nat)
    requires k < |s.plan.steps|
  {
    exists a :: a in t.attempts && OfStep(a, s.plan.id, s.execution, s.plan.steps[k].id) && a.status == AttemptStatus.Completed
  }

  predicate LockIsOurs(s: Setup, t: Tables) {
    s.plan.id in t.locks ==> t.locks[s.plan.id].executionId == s.execution
  }

  /** Past step `last` a completed attempt is the last one of its step. */
  ghost predicate CompletedIsLast(s: Setup, t: Tables, last: int) {
    forall a, k: nat ::
      (&& a in t.attempts && last < k < |s.plan.steps|
       && OfStep(a, s.plan.id, s.execution, s.plan.steps[k].id) && a.status == AttemptStatus.Completed)
      ==> a.number == MaxAttempt(t.attempts, s.plan.id, s.execution, s.plan.steps[k].id)
  }

  predicate NoRecoveryItems(s: Setup, t: Tables) {
    forall item :: item in t.recovery ==> item.planId != s.plan.id
  }

  predicate Restartable(status: CheckpointStatus) {
    status.Pending? || status.Paused?
  }

  ghost predicate RowOk(s: Setup, t: Tables, c: Checkpoint) {
    && -1 <= c.lastCompleted < |s.plan.steps|
    && (c.status.Running? ==> c.currentStep == c.lastCompleted + 1 < |s.plan.steps|)
    && (forall k: nat :: k < |s.plan.steps| && k <= c.lastCompleted ==> StepDone(s, t, k))
    && (forall k: nat :: k < |s.plan.steps| && StepDone(s, t, k) ==>
          k <= c.lastCompleted
          || (k == c.lastCompleted + 1 && c.currentStep == c.lastCompleted + 1 && !Restartable(c.status)))
  }

  /** What holds of the tables whether or not a process is alive. */
  ghost predicate Sound(s: Setup, d: Durable) {
    && NumberedInOrder(d.tables.attempts) && LockIsOurs(s, d.tables) && CompletedIsLast(s, d.tables, LastOf(d, s.plan.id))
    && (s.plan.id !in d.checkpoints ==>
          NoRecoveryItems(s, d.tables) && forall k: nat :: k < |s.plan.steps| ==> !StepDone(s, d.tables, k))
    && (s.plan.id in d.checkpoints ==> RowOk(s, d.tables, d.checkpoints[s.plan.id]))
  }

  // ----- What most operations keep -----

  /** Same attempts, none newly completed and none undone. */
  ghost predicate SameCompletions(a: seq<Attempt>, b: seq<Attempt>) {
    |a| == |b| && forall i :: 0 <= i < |a| ==>
      IsAttempt(b[i], a[i].planId, a[i].executionId, a[i].stepId, a[i].number)
      && (b[i].status == AttemptStatus.Completed <==> a[i].status == AttemptStatus.Completed)
  }

  /** The position stays, and the status stays or becomes one from which nothing restarts by itself. */
  predicate SamePosition(c: Checkpoint, c': Checkpoint) {
    c'.currentStep == c.currentStep && c'.lastCompleted == c.lastCompleted
    && (c'.status == c.status || (!Restartable(c'.status) && !c'.status.Running?))
  }

  ghost predicate Keeps(s: Setup, d: Durable, d': Durable) {
    && SameCompletions(d.tables.attempts, d'.tables.attempts)
    && (LockIsOurs(s, d.tables) ==> LockIsOurs(s, d'.tables))
    && (s.plan.id in d.checkpoints <==> s.plan.id in d'.checkpoints)
    && (s.plan.id in d.checkpoints ==> SamePosition(d.checkpoints[s.plan.id], d'.checkpoints[s.plan.id]))
    && (s.plan.id !in d.checkpoints && NoRecoveryItems(s, d.tables) ==> NoRecoveryItems(s, d'.tables))
  }

  lemma {:induction false} SameCompletionsSameMax(a: seq<Attempt>, b: seq<Attempt>, plan: Id, execution: Id, step: Id)
    requires SameCompletions(a, b)
    ensures MaxAttempt(b, plan, execution, step) == MaxAttempt(a, plan, execution, step)
  {
    if a != [] {
      SameCompletionsSameMax(Init(a), Init(b), plan, execution, step);
    }
  }

  lemma DoneCarriesOver(s: Setup, t: Tables, t': Tables, k: nat)
    requires SameCompletions(t.attempts, t'.attempts) && k < |s.plan.steps| && StepDone(s, t, k)
    ensures StepDone(s, t', k)
  {
    var a :| a in t.attempts && OfStep(a, s.plan.id, s.execution, s.plan.steps[k].id) && a.status == AttemptStatus.Completed;
    var i :| 0 <= i < |t.attempts| && t.attempts[i] == a;
    assert t'.attempts[i] in t'.attempts;
  }

  lemma SameCompletionsSymmetric(a: seq<Attempt>, b: seq<Attempt>)
    requires SameCompletions(a, b)
    ensures SameCompletions(b, a)
  {
  }

  lemma SameCompletionsSameDone(s: Setup, t: Tables, t': Tables, k: nat)
    requires SameCompletions(t.attempts, t'.attempts) && k < |s.plan.steps|
    ensures StepDone(s, t', k) <==> StepDone(s, t, k)
  {
    hide SameCompletions, StepDone;
    SameCompletionsSymmetric(t.attempts, t'.attempts);
    if StepDone(s, t, k) {
      DoneCarriesOver(s, t, t', k);
    }
    if StepDone(s, t', k) {
      DoneCarriesOver(s, t', t, k);
    }
  }

  lemma SameCompletionsKeepNumbers(a: seq<Attempt>, b: seq<Attempt>)
    requires SameCompletions(a, b) && NumberedInOrder(a)
    ensures NumberedInOrder(b)
  {
    forall p, e, st
      ensures CountsFromOne(Numbers(b, p, e, st))
    {
      assert CountsFromOne(Numbers(a, p, e, st));
      SameIdentitiesSameNumbers(a, b, p, e, st);
    }
  }

  lemma SameCompletionsKeepLast(s: Setup, t: Tables, t': Tables, last: int)
    requires SameCompletions(t.attempts, t'.attempts) && CompletedIsLast(s, t, last)
    ensures CompletedIsLast(s, t', last)
  {
    forall a, k: nat | a in t'.attempts && last < k < |s.plan.steps| && a.status == AttemptStatus.Completed
                       && OfStep(a, s.plan.id, s.execution, s.plan.steps[k].id)
      ensures a.number == MaxAttempt(t'.attempts, s.plan.id, s.execution, s.plan.steps[k].id)
    {
      var i :| 0 <= i < |t'.attempts| && t'.attempts[i] == a;
      assert t.attempts[i] in t.attempts;
      SameCompletionsSameMax(t.attempts, t'.attempts, s.plan.id, s.execution, a.stepId);
    }
  }

  lemma FurtherLast(s: Setup, t: Tables, last: int, last': int)
    requires CompletedIsLast(s, t, last) && last <= last'
    ensures CompletedIsLast(s, t, last')
  {
  }

  lemma KeepsSound(s: Setup, d: Durable, d': Durable)
    requires Sound(s, d) && Keeps(s, d, d')
    ensures Sound(s, d')
  {
    SameCompletionsKeepNumbers(d.tables.attempts, d'.tables.attempts);
    SameCompletionsKeepLast(s, d.tables, d'.tables, LastOf(d, s.plan.id));
    forall k: nat | k < |s.plan.steps|
      ensures StepDone(s, d'.tables, k) <==> StepDone(s, d.tables, k)
    {
      SameCompletionsSameDone(s, d.tables, d'.tables, k);
    }
    hide StepDone, NumberedInOrder, CompletedIsLast;
  }

  lemma KeepsTrans(s: Setup, a: Durable, b: Durable, c: Durable)
    requires Keeps(s, a, b) && Keeps(s, b, c)
    ensures Keeps(s, a, c)
  {
  }

  lemma KeepsRefl(s: Setup, d: Durable)
    ensures Keeps(s, d, d)
  {
  }

  // ----- Store operations that keep everything -----

  lemma ReleaseKeeps(s: Setup, d: Durable, worker: Id)
    ensures Keeps(s, d, ReleaseFor(d, s.plan.id, s.execution, worker))
  {
  }

  lemma AcquireKeeps(s: Setup, d: Durable, worker: Id)
    ensures Keeps(s, d, d.(tables := Acquire(d.tables, s.plan.id, s.execution, worker).tables))
    ensures Keeps(s, d, d.(tables := AcquireOrReuse(d.tables, s.plan.id, s.execution, worker).tables))
  {
  }

  lemma ExpireKeeps(s: Setup, d: Durable)
    ensures Keeps(s, d, Expire(d, s.plan.id))
  {
    var d' := Expire(d, s.plan.id);
    forall item | item in d'.tables.recovery
      ensures exists before :: before in d.tables.recovery && before.planId == item.planId
    {
      var i :| 0 <= i < |d'.tables.recovery| && d'.tables.recovery[i] == item;
      assert d.tables.recovery[i] in d.tables.recovery;
    }
  }

  predicate Stopping(status: CheckpointStatus) {
    !Restartable(status) && !status.Running?
  }

  /** A transition that stops the plan where it stands. */
  lemma TransitionKeeps(s: Setup, d: Durable, worker: Id, t: Transition)
    requires t.status.Some? ==> Stopping(t.status.value)
    requires s.plan.id in d.checkpoints ==>
      (t.overrides.currentStep == None || t.overrides.currentStep == Some(d.checkpoints[s.plan.id].currentStep))
      && (t.overrides.lastCompleted == None || t.overrides.lastCompleted == Some(d.checkpoints[s.plan.id].lastCompleted))
    ensures Keeps(s, d, FinalizeTransition(d, s.plan.id, s.execution, worker, t).durable)
  {
  }

  lemma MarkKeeps(s: Setup, d: Durable)
    ensures Keeps(s, d, MarkCorrupted(d, s.plan.id))
  {
  }

  lemma ValidateKeeps(s: Setup, d: Durable, plan: ReconPlan, otherIssues: bool)
    requires plan.id == s.plan.id
    ensures var v := Validate(d, plan, otherIssues);
      && Keeps(s, d, v.durable)
      && (v.result.Ok? ==> v.durable == Expire(d, s.plan.id) && !ViewsDisagree(v.durable, plan))
  {
    var swept := Expire(d, s.plan.id);
    ExpireKeeps(s, d);
    MarkKeeps(s, swept);
    KeepsTrans(s, d, swept, MarkCorrupted(swept, s.plan.id));
    KeepsRefl(s, d);
    hide Keeps, Expire, MarkCorrupted;
  }

  lemma QueueKeeps(s: Setup, d: Durable, worker: Id, c: Checkpoint, step: Option<Id>, reason: string)
    requires s.plan.id in d.checkpoints && d.checkpoints[s.plan.id] == c
    ensures Keeps(s, d, QueueReview(d, s.plan.id, s.execution, worker, c, step, reason).durable)
  {
    hide FinalizeTransition;
    KeepsRefl(s, d);
    var queued := EnqueueRecovery(d.tables, s.plan.id, s.execution, step, reason, StatusName(c.status), OPERATOR_RECOVERY_TTL_MS);
    var mid := d.(tables := queued.tables);
    assert Keeps(s, d, mid);
    var t := Transition(Some(CheckpointStatus.PauseForOperatorRecovery), Indices(c), Some("recovery.ambiguous"), step, true, true);
    TransitionKeeps(s, mid, worker, t);
    KeepsTrans(s, d, mid, FinalizeTransition(mid, s.plan.id, s.execution, worker, t).durable);
  }

  // ----- Reconciliation -----

  /** The plan as the other two modules read it has the same id, length, step ids and flags, and declares no effects. */
  lemma SetupFacts(s: Setup)
    requires GoodSetup(s)
    ensures var r, t := ReconOf(s.plan), StateOf(s.plan);
      && r.id == s.plan.id == t.id && |r.steps| == |s.plan.steps| == |t.steps|
      && forall k :: 0 <= k < |s.plan.steps| ==>
           r.steps[k].id == s.plan.steps[k].id && r.steps[k].sideEffects == []
           && t.steps[k].idempotent == s.plan.steps[k].idempotent
  {
    assert Clean("") == "";
  }

  lemma RunningCancelled(s: Setup, d: Durable, a: Attempt)
    requires NumberedInOrder(d.tables.attempts) && a in d.tables.attempts && a.status == AttemptStatus.Running
    requires OfStep(a, s.plan.id, s.execution, a.stepId)
    ensures Keeps(s, d, d.(tables := FinalizeAttempt(d.tables, s.plan.id, s.execution, a.stepId, a.number, AttemptStatus.Cancelled).tables))
  {
    forall i | 0 <= i < |d.tables.attempts| && IsAttempt(d.tables.attempts[i], s.plan.id, s.execution, a.stepId, a.number)
      ensures d.tables.attempts[i] == a
    {
      SameNumberSameAttempt(d.tables.attempts, d.tables.attempts[i], a);
    }
  }

  lemma SameNumberSameAttempt(attempts: seq<Attempt>, a: Attempt, b: Attempt)
    requires NumberedInOrder(attempts) && a in attempts && b in attempts
    requires IsAttempt(a, b.planId, b.executionId, b.stepId, b.number)
    ensures a == b
  {
    var i :| 0 <= i < |attempts| && attempts[i] == a;
    var j :| 0 <= j < |attempts| && attempts[j] == b;
    if i < j {
      NumbersIdentify(attempts, i, j);
    } else if j < i {
      NumbersIdentify(attempts, j, i);
    }
  }

  /** The latest attempt of a step is completed exactly when the step is done. */
  lemma LatestTellsDone(s: Setup, t: Tables, last: int, k: nat)
    requires NumberedInOrder(t.attempts) && CompletedIsLast(s, t, last) && last < k < |s.plan.steps|
    ensures var latest := LatestAttempt(t.attempts, s.plan.id, s.execution, s.plan.steps[k].id);
      StepDone(s, t, k) <==> latest.Some? && latest.value.status == AttemptStatus.Completed
  {
    var latest := LatestAttempt(t.attempts, s.plan.id, s.execution, s.plan.steps[k].id);
    if StepDone(s, t, k) {
      var a :| a in t.attempts && OfStep(a, s.plan.id, s.execution, s.plan.steps[k].id) && a.status == AttemptStatus.Completed;
      SameNumberSameAttempt(t.attempts, latest.value, a);
    }
  }

  lemma AdvanceSound(s: Setup, d: Durable)
    requires Sound(s, d) && s.plan.id in d.checkpoints
    requires var c := d.checkpoints[s.plan.id];
      c.currentStep == c.lastCompleted + 1 < |s.plan.steps| && StepDone(s, d.tables, c.currentStep)
    ensures var i := d.checkpoints[s.plan.id].currentStep; var d' := AfterStep(d, s.plan.id, i, |s.plan.steps|).durable;
      && Sound(s, d')
      && (i + 1 < |s.plan.steps| ==> !StepDone(s, d'.tables, i + 1))
  {
    FurtherLast(s, d.tables, d.checkpoints[s.plan.id].lastCompleted, d.checkpoints[s.plan.id].currentStep);
    hide NumberedInOrder, CompletedIsLast, StepDone;
  }

  predicate GoesOn(action: Action) {
    action in {DoNothing, Continue, RetryStep, GuardedRetryStep, CancelPending, Resume}
  }

  /** Why an interrupted step may be taken up again without its attempt having completed. */
  predicate MayRestart(s: Setup, t: Tables, c: Checkpoint, action: Action)
    requires 0 <= c.currentStep < |s.plan.steps|
  {
    var latest := LatestAttempt(t.attempts, s.plan.id, s.execution, s.plan.steps[c.currentStep].id);
    match action
    case Resume => latest.None?
    case RetryStep => latest.Some? && latest.value.status == AttemptStatus.Failed && latest.value.sideEffect == PureRead
    case CancelPending =>
      latest.Some? && latest.value.status == AttemptStatus.Running && latest.value.leaseExpiresAt > t.now && c.cancellationRequested
    case _ => false
  }

  lemma FailedPureReadOnly(s: Setup, k: nat, a: Attempt)
    requires GoodSetup(s) && k < |s.plan.steps|
    ensures DecideRecoveryAction(ReconOf(s.plan).steps[k], Some(FactsOf(a))) == if a.sideEffect == PureRead then Retry else OperatorRecovery
  {
    SetupFacts(s);
    assert CleanAll([]) == [];
    ClassNamesAreClean(a.sideEffect);
  }

  /** The actions that let the call go on, by diagnosis. */
  lemma RunningActions(d: Durable, plan: ReconPlan, execution: Id, worker: Id, c: Checkpoint, evidence: StepEvidence)
    ensures var r := ReconcileRunning(d, plan, execution, worker, c, evidence);
            var diagnosis := Diagnose(d.tables, plan, execution, c, evidence);
      && (diagnosis.Finished? ==>
            r.durable == AfterStep(d, plan.id, c.currentStep, |plan.steps|).durable && r.result.Ok? && r.result.value.action.Continue?)
      && (diagnosis.AfterFailure? && diagnosis.decision.Retry? ==>
            r.durable == d && r.result.Ok? && r.result.value.action.RetryStep?)
      && (diagnosis.LeaseLive? ==>
            r.durable == d && r.result.Ok?
            && r.result.value.action == if c.cancellationRequested then CancelPending else Noop)
      && (diagnosis.Untouched? ==> r.durable == d && r.result.Ok? && r.result.value.action.Resume?)
  {
    hide Diagnose, AfterStep;
  }

  lemma CurrentFacts(s: Setup, t: Tables, c: Checkpoint, evidence: StepEvidence)
    requires GoodSetup(s) && NumberedInOrder(t.attempts) && CompletedIsLast(s, t, c.lastCompleted)
    requires 0 <= c.currentStep < |s.plan.steps| && c.lastCompleted < c.currentStep
    ensures var diagnosis := Diagnose(t, ReconOf(s.plan), s.execution, c, evidence);
      && (diagnosis.Finished? ==> StepDone(s, t, c.currentStep))
      && (diagnosis.AfterFailure? || diagnosis.LeaseLive? || diagnosis.Untouched? ==> !StepDone(s, t, c.currentStep))
      && (diagnosis.AfterFailure? ==> !diagnosis.decision.GuardedRetry?)
      && (diagnosis.AfterFailure? && diagnosis.decision.Retry? ==> MayRestart(s, t, c, RetryStep))
      && (diagnosis.LeaseLive? && c.cancellationRequested ==> MayRestart(s, t, c, CancelPending))
      && (diagnosis.Untouched? ==> MayRestart(s, t, c, Resume))
  {
    hide Diagnose, StepDone, ReconOf, LatestAttempt, FactsOf, DecideRecoveryAction, NumberedInOrder, CompletedIsLast;
    SetupFacts(s);
    LatestTellsDone(s, t, c.lastCompleted, c.currentStep);
    DiagnosisFacts(t, ReconOf(s.plan), s.execution, c, evidence);
    var latest := LatestAttempt(t.attempts, s.plan.id, s.execution, s.plan.steps[c.currentStep].id);
    if latest.Some? {
      FailedPureReadOnly(s, c.currentStep, latest.value);
    }
  }

  lemma RunningOutcome(s: Setup, d: Durable, worker: Id, evidence: StepEvidence)
    requires GoodSetup(s) && Sound(s, d) && s.plan.id in d.checkpoints && d.checkpoints[s.plan.id].status.Running?
    ensures var c := d.checkpoints[s.plan.id];
            var r := ReconcileRunning(d, ReconOf(s.plan), s.execution, worker, c, evidence);
      && Sound(s, r.durable) && s.plan.id in r.durable.checkpoints
      && 0 <= c.currentStep < |s.plan.steps|
      && (r.result.Ok? && r.result.value.action.Continue? ==>
            StepDone(s, d.tables, c.currentStep) && r.durable == AfterStep(d, s.plan.id, c.currentStep, |s.plan.steps|).durable)
      && (r.result.Ok? && GoesOn(r.result.value.action) && !r.result.value.action.Continue? ==>
            r.durable == d && !r.result.value.action.DoNothing?
            && !StepDone(s, d.tables, c.currentStep) && MayRestart(s, d.tables, c, r.result.value.action))
  {
    hide Sound, Diagnose, StepDone, ReconOf, ReconcileRunning, AfterStep, MayRestart;
    SetupFacts(s);
    RunningPosition(s, d);
    var c := d.checkpoints[s.plan.id];
    CurrentFacts(s, d.tables, c, evidence);
    RunningSound(s, d, worker, evidence);
    RunningActions(d, ReconOf(s.plan), s.execution, worker, c, evidence);
  }

  lemma RunningPosition(s: Setup, d: Durable)
    requires Sound(s, d) && s.plan.id in d.checkpoints && d.checkpoints[s.plan.id].status.Running?
    ensures 0 <= d.checkpoints[s.plan.id].currentStep < |s.plan.steps|
    ensures NumberedInOrder(d.tables.attempts) && CompletedIsLast(s, d.tables, d.checkpoints[s.plan.id].lastCompleted)
    ensures d.checkpoints[s.plan.id].lastCompleted == d.checkpoints[s.plan.id].currentStep - 1
  {
  }

  lemma RunningSound(s: Setup, d: Durable, worker: Id, evidence: StepEvidence)
    requires GoodSetup(s) && Sound(s, d) && s.plan.id in d.checkpoints && d.checkpoints[s.plan.id].status.Running?
    requires 0 <= d.checkpoints[s.plan.id].currentStep < |s.plan.steps|
    ensures var c := d.checkpoints[s.plan.id];
            var r := ReconcileRunning(d, ReconOf(s.plan), s.execution, worker, c, evidence);
      Sound(s, r.durable) && s.plan.id in r.durable.checkpoints
    ensures var c := d.checkpoints[s.plan.id];
            var r := ReconcileRunning(d, ReconOf(s.plan), s.execution, worker, c, evidence);
            var diagnosis := Diagnose(d.tables, ReconOf(s.plan), s.execution, c, evidence);
      r.result.Ok? && GoesOn(r.result.value.action) ==>
        diagnosis.Finished? || diagnosis.LeaseLive? || diagnosis.Untouched?
        || (diagnosis.AfterFailure? && diagnosis.decision != OperatorRecovery)
  {
    hide Sound, Keeps, Diagnose, QueueReview, FinalizeTransition, StepDone, ReconOf, LatestAttempt, FinalizeAttempt;
    var c, R := d.checkpoints[s.plan.id], ReconOf(s.plan);
    SetupFacts(s);
    var stepId := Some(R.steps[c.currentStep].id);
    DiagnosisFacts(d.tables, R, s.execution, c, evidence);
    match Diagnose(d.tables, R, s.execution, c, evidence)
    case Overdue => QueueSound(s, d, worker, c, stepId, "execution_duration_exceeded");
    case Exhausted => StopSound(s, d, worker, Transition(Some(CheckpointStatus.ExecutionAbandoned), KEEP, Some("execution.abandoned"), stepId, true, true));
    case SnapshotAhead => QueueSound(s, d, worker, c, stepId, "recovery_snapshot_ledger_mismatch");
    case Finished => FinishedSound(s, d);
    case AfterFailure(decision) => QueueSound(s, d, worker, c, stepId, UnsafeReason(d.tables, R, s.execution, c));
    case LeaseLive =>
    case CancelAttempt(a) => CancelSound(s, d, worker, a, stepId);
    case CancelIdle => StopSound(s, d, worker,
      Transition(Some(CheckpointStatus.Cancelled), Overrides(Some(c.currentStep), None), Some("execution.cancelled"), stepId, true, true));
    case Ambiguous => QueueSound(s, d, worker, c, stepId, "recovery_ambiguous");
    case Untouched =>
  }

  lemma QueueSound(s: Setup, d: Durable, worker: Id, c: Checkpoint, step: Option<Id>, reason: string)
    requires Sound(s, d) && s.plan.id in d.checkpoints && d.checkpoints[s.plan.id] == c
    ensures var r := QueueReview(d, s.plan.id, s.execution, worker, c, step, reason);
      && Sound(s, r.durable) && s.plan.id in r.durable.checkpoints
      && (r.result.Ok? ==> r.result.value.action.PauseForOperator?)
  {
    QueueKeeps(s, d, worker, c, step, reason);
    QueueNeverHalts(d, s.plan.id, s.execution, worker, c, step, reason);
    KeepsSound(s, d, QueueReview(d, s.plan.id, s.execution, worker, c, step, reason).durable);
  }

  lemma StopSound(s: Setup, d: Durable, worker: Id, t: Transition)
    requires Sound(s, d) && s.plan.id in d.checkpoints
    requires t.status.Some? ==> Stopping(t.status.value)
    requires t.overrides.currentStep == None || t.overrides.currentStep == Some(d.checkpoints[s.plan.id].currentStep)
    requires t.overrides.lastCompleted == None || t.overrides.lastCompleted == Some(d.checkpoints[s.plan.id].lastCompleted)
    ensures var r := FinalizeTransition(d, s.plan.id, s.execution, worker, t);
      Sound(s, r.durable) && s.plan.id in r.durable.checkpoints
  {
    TransitionKeeps(s, d, worker, t);
    KeepsSound(s, d, FinalizeTransition(d, s.plan.id, s.execution, worker, t).durable);
  }

  lemma CancelSound(s: Setup, d: Durable, worker: Id, a: Attempt, step: Option<Id>)
    requires Sound(s, d) && s.plan.id in d.checkpoints && a in d.tables.attempts && a.status == AttemptStatus.Running
    requires OfStep(a, s.plan.id, s.execution, a.stepId)
    ensures var c := d.checkpoints[s.plan.id];
            var cancelled := FinalizeAttempt(d.tables, s.plan.id, s.execution, a.stepId, a.number, AttemptStatus.Cancelled);
            var d' := d.(tables := cancelled.tables);
            var t := Transition(Some(CheckpointStatus.Cancelled), Overrides(Some(c.currentStep), None), Some("execution.cancelled"), step, true, true);
            var r := FinalizeTransition(d', s.plan.id, s.execution, worker, t);
      && Sound(s, d') && Sound(s, r.durable) && s.plan.id in r.durable.checkpoints
  {
    var cancelled := FinalizeAttempt(d.tables, s.plan.id, s.execution, a.stepId, a.number, AttemptStatus.Cancelled);
    var d' := d.(tables := cancelled.tables);
    RunningCancelled(s, d, a);
    KeepsSound(s, d, d');
    StopSound(s, d', worker,
      Transition(Some(CheckpointStatus.Cancelled), Overrides(Some(d.checkpoints[s.plan.id].currentStep), None),
                 Some("execution.cancelled"), step, true, true));
  }

  lemma FinishedSound(s: Setup, d: Durable)
    requires Sound(s, d) && s.plan.id in d.checkpoints && d.checkpoints[s.plan.id].status.Running?
    requires 0 <= d.checkpoints[s.plan.id].currentStep < |s.plan.steps|
    requires var latest := LatestAttempt(d.tables.attempts, s.plan.id, s.execution, s.plan.steps[d.checkpoints[s.plan.id].currentStep].id);
      latest.Some? && latest.value.status == AttemptStatus.Completed
    ensures var d' := AfterStep(d, s.plan.id, d.checkpoints[s.plan.id].currentStep, |s.plan.steps|).durable;
      Sound(s, d') && s.plan.id in d'.checkpoints
  {
    LatestTellsDone(s, d.tables, d.checkpoints[s.plan.id].lastCompleted, d.checkpoints[s.plan.id].currentStep);
    AdvanceSound(s, d);
  }

  /** Attempts, locks and checkpoints stay; the queue and the ledger may have moved. */
  predicate Undisturbed(d: Durable, d': Durable) {
    d'.tables.attempts == d.tables.attempts && d'.tables.locks == d.tables.locks && d'.checkpoints == d.checkpoints
    && d'.tables.now == d.tables.now
  }

  /** What reconciliation leaves when it lets the call go on. */
  ghost predicate WentOn(s: Setup, d: Durable, d': Durable, action: Action) {
    && IsLocked(d'.tables, s.plan.id)
    && d'.tables.attempts == d.tables.attempts && d'.tables.locks == d.tables.locks
    && (action.DoNothing? <==> s.plan.id !in d.checkpoints)
    && (!action.Continue? ==> Undisturbed(d, d'))
    && (s.plan.id in d.checkpoints ==>
          var c := d.checkpoints[s.plan.id];
          && (action.Continue? ==>
                && c.status.Running? && 0 <= c.currentStep < |s.plan.steps| && StepDone(s, d.tables, c.currentStep)
                && d'.checkpoints == AfterStep(d, s.plan.id, c.currentStep, |s.plan.steps|).durable.checkpoints)
          && (!action.Continue? ==> c.status.Running? || Restartable(c.status) || c.status.AwaitingReview?)
          && (!action.Continue? && c.status.Running? ==>
                && 0 <= c.currentStep < |s.plan.steps| && !StepDone(s, d.tables, c.currentStep)
                && MayRestart(s, d.tables, c, action)))
  }

  lemma ChooseOutcome(s: Setup, d: Durable, worker: Id, evidence: StepEvidence)
    requires GoodSetup(s) && Sound(s, d) && HeldBy(d.tables, s.plan.id, s.execution) && !ViewsDisagree(d, ReconOf(s.plan))
    ensures var r := Choose(d, ReconOf(s.plan), s.execution, worker, evidence);
      && Sound(s, r.durable) && (s.plan.id in d.checkpoints <==> s.plan.id in r.durable.checkpoints)
      && (r.result.Ok? && (GoesOn(r.result.value.action) || s.plan.id !in d.checkpoints) ==>
            WentOn(s, d, r.durable, r.result.value.action))
  {
    hide Sound, Keeps, QueueReview, FinalizeTransition, StepDone, ReconOf, ReconcileRunning, MayRestart, CheckpointIssues;
    var R := ReconOf(s.plan);
    SetupFacts(s);
    if s.plan.id in d.checkpoints {
      var c := d.checkpoints[s.plan.id];
      var open := UnresolvedItems(d.tables.recovery, s.plan.id);
      if open != [] {
        StopSound(s, d, worker,
          Transition(Some(CheckpointStatus.PauseForOperatorRecovery), Indices(c), Some("recovery.pending"), open[0].stepId, true, true));
      } else if c.status.Running? {
        RunningOutcome(s, d, worker, evidence);
      } else if c.cancellationRequested {
        StopSound(s, d, worker,
          Transition(Some(CheckpointStatus.Cancelled), Overrides(Some(c.currentStep), None), Some("execution.cancelled"), None, true, true));
      }
    }
  }

  lemma SoundMeansOurs(s: Setup, d: Durable)
    requires Sound(s, d) && IsLocked(d.tables, s.plan.id)
    ensures HeldBy(d.tables, s.plan.id, s.execution)
  {
  }

  lemma ExpiredMeansRow(s: Setup, d: Durable)
    requires Sound(s, d) && ExpireRecovery(d.tables, Some(s.plan.id)).result.value != []
    ensures s.plan.id in d.checkpoints
  {
    var expired := ExpireRecovery(d.tables, Some(s.plan.id)).result.value;
    assert expired[0] in expired;
  }

  lemma KeepsRow(s: Setup, d: Durable, d': Durable)
    requires Keeps(s, d, d')
    ensures s.plan.id in d.checkpoints <==> s.plan.id in d'.checkpoints
  {
  }

  lemma CarryOutcome(s: Setup, d: Durable, v: Durable, d': Durable, action: Action)
    requires Undisturbed(d, v) && WentOn(s, v, d', action)
    ensures WentOn(s, d, d', action)
  {
    forall k: nat | k < |s.plan.steps|
      ensures StepDone(s, v.tables, k) <==> StepDone(s, d.tables, k)
    {
    }
    hide StepDone, LatestAttempt;
  }

  lemma ReconcileOutcome(s: Setup, d: Durable, worker: Id, sur: Surroundings)
    requires GoodSetup(s) && Sound(s, d)
    ensures var r := Reconcile(d, ReconOf(s.plan), worker, sur);
      && Sound(s, r.durable) && (s.plan.id in d.checkpoints <==> s.plan.id in r.durable.checkpoints)
      && (r.result.Ok? && (GoesOn(r.result.value.action) || s.plan.id !in d.checkpoints) ==>
            WentOn(s, d, r.durable, r.result.value.action))
  {
    hide Sound, Keeps, FinalizeTransition, StepDone, ReconOf, Choose, MayRestart, ViewsDisagree, Corrupt, MarkCorrupted, RowOk;
    var R := ReconOf(s.plan);
    SetupFacts(s);
    var swept := Expire(d, s.plan.id);
    ExpireKeeps(s, d);
    KeepsSound(s, d, swept);
    if IsLocked(swept.tables, s.plan.id) {
      SoundMeansOurs(s, swept);
      if ExpireRecovery(d.tables, Some(s.plan.id)).result.value != [] {
        ExpiredMeansRow(s, d);
        StopSound(s, swept, worker,
          Transition(Some(CheckpointStatus.ExecutionAbandoned), KEEP, Some("execution.abandoned"), None, true, false));
      } else {
        ValidateKeeps(s, swept, R, sur.otherIssues);
        var v := Validate(swept, R, sur.otherIssues);
        KeepsSound(s, swept, v.durable);
        KeepsRow(s, swept, v.durable);
        if v.result.Ok? {
          assert v.durable == Expire(swept, s.plan.id);
          ChooseOutcome(s, v.durable, worker, sur.evidence);
          var r := Choose(v.durable, R, s.execution, worker, sur.evidence);
          if r.result.Ok? && (GoesOn(r.result.value.action) || s.plan.id !in d.checkpoints) {
            CarryOutcome(s, d, v.durable, r.durable, r.result.value.action);
          }
        }
      }
    }
  }

  // ----- Recovery and launch -----

  /** A process that starts at `i` finds the next step of the plan, not yet done, under the lock. */
  ghost predicate ReadyAt(s: Setup, d: Durable, i: int) {
    && IsLocked(d.tables, s.plan.id) && s.plan.id in d.checkpoints
    && i == d.checkpoints[s.plan.id].lastCompleted + 1 && 0 <= i < |s.plan.steps|
    && (Restartable(d.checkpoints[s.plan.id].status) || d.checkpoints[s.plan.id].status.Running?)
    && !StepDone(s, d.tables, i)
  }

  lemma ReleaseSound(s: Setup, d: Durable, worker: Id)
    requires Sound(s, d)
    ensures Sound(s, ReleaseFor(d, s.plan.id, s.execution, worker))
    ensures ReleaseFor(d, s.plan.id, s.execution, worker).checkpoints == d.checkpoints
  {
    ReleaseKeeps(s, d, worker);
    KeepsSound(s, d, ReleaseFor(d, s.plan.id, s.execution, worker));
  }

  lemma RecoverStateSound(s: Setup, d: Durable)
    requires GoodSetup(s) && Sound(s, d) && s.plan.id in d.checkpoints
    ensures var r := RecoverState(d, StateOf(s.plan));
      && Sound(s, r.durable) && s.plan.id in r.durable.checkpoints
      && (r.result.Ok? && !r.result.value.completed ==> r.durable == d && r.result.value.checkpoint == d.checkpoints[s.plan.id])
  {
    SetupFacts(s);
    hide StepDone, NumberedInOrder, CompletedIsLast, StateOf, Keeps;
    var c := d.checkpoints[s.plan.id];
    if c.lastCompleted + 1 < |s.plan.steps| && c.status.Running? {
      StatusSound(s, d, c.(status := CheckpointStatus.AwaitingReview, updatedAt := d.tables.now));
    }
  }

  lemma StatusSound(s: Setup, d: Durable, c: Checkpoint)
    requires Sound(s, d) && s.plan.id in d.checkpoints && SamePosition(d.checkpoints[s.plan.id], c)
    ensures Sound(s, Write(d, s.plan.id, c).durable)
  {
    KeepsSound(s, d, Write(d, s.plan.id, c).durable);
  }

  lemma ResumeOutcome(s: Setup, d: Durable, worker: Id, action: Action)
    requires GoodSetup(s) && Sound(s, d) && s.plan.id in d.checkpoints
    requires GoesOn(action) ==>
      && IsLocked(d.tables, s.plan.id)
      && var c := d.checkpoints[s.plan.id];
         && (Restartable(c.status) || c.status.Running? || c.lastCompleted + 1 == |s.plan.steps|)
         && (c.lastCompleted + 1 < |s.plan.steps| ==> !StepDone(s, d.tables, c.lastCompleted + 1))
    ensures var entry := ResumeAfter(d, s.plan, s.execution, worker, action);
      && Sound(s, entry.durable) && s.plan.id in entry.durable.checkpoints
      && (entry.startAt.Some? ==>
            && GoesOn(action) && entry.durable == d && ReadyAt(s, d, entry.startAt.value)
            && (d.checkpoints[s.plan.id].status.Running? ==> s.plan.steps[entry.startAt.value].idempotent))
  {
    hide StepDone, NumberedInOrder, CompletedIsLast, StateOf, Keeps, RecoverState, ReleaseFor;
    RecoverStateSound(s, d);
    var recovered := RecoverState(d, StateOf(s.plan));
    ReleaseSound(s, recovered.durable, worker);
    ReleaseSound(s, d, worker);
    RecoverStateStarts(s, d);
  }

  lemma RecoverStateStarts(s: Setup, d: Durable)
    requires GoodSetup(s) && Sound(s, d) && s.plan.id in d.checkpoints
    ensures var r := RecoverState(d, StateOf(s.plan)); var c := d.checkpoints[s.plan.id];
      r.result.Ok? && !r.result.value.completed ==>
        && c.lastCompleted + 1 < |s.plan.steps|
        && (c.status.Running? ==> s.plan.steps[c.currentStep].idempotent)
  {
    SetupFacts(s);
    hide StepDone, NumberedInOrder, CompletedIsLast, StateOf, Keeps;
  }

  /** Why the loop was entered: a finished attempt was recognised, an interrupted step may be repeated, or nothing was running. */
  ghost predicate StartReason(s: Setup, d: Durable, i: int) {
    s.plan.id in d.checkpoints &&
    var c := d.checkpoints[s.plan.id];
    && 0 <= i < |s.plan.steps|
    && (c.status.Running? ==>
          && 0 <= c.currentStep < |s.plan.steps| && s.plan.steps[i].idempotent
          && ((i == c.currentStep + 1 && StepDone(s, d.tables, c.currentStep))
              || (i == c.currentStep
                  && exists action :: GoesOn(action) && MayRestart(s, d.tables, c, action))))
    && (!c.status.Running? ==> Restartable(c.status) && i == c.lastCompleted + 1)
  }

  lemma LockedOutcome(s: Setup, d: Durable, worker: Id, g: Gates)
    requires GoodSetup(s) && Sound(s, d) && s.plan.id in d.checkpoints
    requires !NeedsOperator(d.checkpoints[s.plan.id].status)
    ensures var entry := RecoverLocked(d, s.plan, s.execution, worker, g);
      && Sound(s, entry.durable) && s.plan.id in entry.durable.checkpoints
      && (entry.startAt.Some? ==> ReadyAt(s, entry.durable, entry.startAt.value) && StartReason(s, d, entry.startAt.value))
  {
    hide Sound, Keeps, StepDone, ReconOf, MayRestart, Reconcile, ReleaseFor, ResumeAfter;
    SetupFacts(s);
    var R := ReconOf(s.plan);
    var v := Validate(d, R, g.secondIssues);
    ValidateKeeps(s, d, R, g.secondIssues);
    KeepsSound(s, d, v.durable);
    KeepsRow(s, d, v.durable);
    ReleaseSound(s, v.durable, worker);
    if v.result.Ok? {
      ReconcileOutcome(s, v.durable, worker, g.surroundings);
      var r := Reconcile(v.durable, R, worker, g.surroundings);
      ReleaseSound(s, r.durable, worker);
      if r.result.Ok? {
        var action := r.result.value.action;
        if GoesOn(action) {
          WentOnIsReady(s, v.durable, r.durable, action);
        }
        ResumeOutcome(s, r.durable, worker, action);
        var entry := ResumeAfter(r.durable, s.plan, s.execution, worker, action);
        if entry.startAt.Some? {
          ReasonFound(s, v.durable, r.durable, action, entry.startAt.value);
          ReasonCarries(s, d, v.durable, entry.startAt.value);
        }
      }
    }
  }

  lemma WentOnIsReady(s: Setup, d: Durable, d': Durable, action: Action)
    requires Sound(s, d) && WentOn(s, d, d', action) && GoesOn(action) && s.plan.id in d.checkpoints && s.plan.id in d'.checkpoints
    requires !NeedsOperator(d.checkpoints[s.plan.id].status)
    ensures IsLocked(d'.tables, s.plan.id)
    ensures var c := d'.checkpoints[s.plan.id];
      && (Restartable(c.status) || c.status.Running? || c.lastCompleted + 1 == |s.plan.steps|)
      && (0 <= c.lastCompleted + 1 < |s.plan.steps| ==> !StepDone(s, d'.tables, c.lastCompleted + 1))
  {
    forall k: nat | k < |s.plan.steps|
      ensures StepDone(s, d'.tables, k) <==> StepDone(s, d.tables, k)
    {
    }
    hide StepDone, NumberedInOrder, CompletedIsLast, MayRestart;
  }

  lemma ReasonFound(s: Setup, d: Durable, d': Durable, action: Action, i: int)
    requires Sound(s, d) && WentOn(s, d, d', action) && GoesOn(action) && s.plan.id in d.checkpoints
    requires !NeedsOperator(d.checkpoints[s.plan.id].status)
    requires ReadyAt(s, d', i)
    requires d'.checkpoints[s.plan.id].status.Running? ==> s.plan.steps[i].idempotent
    ensures StartReason(s, d, i)
  {
    hide StepDone, NumberedInOrder, CompletedIsLast, MayRestart;
  }

  lemma ReasonCarries(s: Setup, d: Durable, v: Durable, i: int)
    requires v.tables.attempts == d.tables.attempts && v.checkpoints == d.checkpoints && v.tables.now == d.tables.now
    requires StartReason(s, v, i)
    ensures StartReason(s, d, i)
  {
    var c := d.checkpoints[s.plan.id];
    forall k: nat | k < |s.plan.steps|
      ensures StepDone(s, v.tables, k) <==> StepDone(s, d.tables, k)
    {
    }
    if 0 <= c.currentStep < |s.plan.steps| {
      forall action
        ensures MayRestart(s, v.tables, c, action) <==> MayRestart(s, d.tables, c, action)
      {
      }
    }
    hide StepDone, MayRestart;
  }

  lemma RecoverOutcome(s: Setup, d: Durable, worker: Id, g: Gates)
    requires GoodSetup(s) && Sound(s, d)
    ensures var entry := Recover(d, s.plan, s.execution, worker, g);
      && Sound(s, entry.durable)
      && (entry.startAt.Some? ==>
            ReadyAt(s, entry.durable, entry.startAt.value) && StartReason(s, d, entry.startAt.value) && !AttemptAlive(d.tables, s.plan.id))
  {
    if s.plan.id in d.checkpoints && !g.refusedEarly && !AttemptAlive(d.tables, s.plan.id) {
      HolderIsOurs(s, d);
      hide Sound, Keeps, StepDone, ReconOf, MayRestart, RecoverLocked, StartReason;
      SetupFacts(s);
      var v := Validate(d, ReconOf(s.plan), g.firstIssues);
      ValidateKeeps(s, d, ReconOf(s.plan), g.firstIssues);
      KeepsSound(s, d, v.durable);
      var locked := v.durable.(tables := AcquireOrReuse(v.durable.tables, s.plan.id, s.execution, worker).tables);
      AcquireKeeps(s, v.durable, worker);
      KeepsSound(s, v.durable, locked);
      if v.result.Ok? && !NeedsOperator(d.checkpoints[s.plan.id].status) {
        LockedOutcome(s, locked, worker, g);
        var entry := RecoverLocked(locked, s.plan, s.execution, worker, g);
        if entry.startAt.Some? {
          ReasonCarries(s, d, locked, entry.startAt.value);
        }
      }
    }
  }

  lemma HolderIsOurs(s: Setup, d: Durable)
    requires Sound(s, d)
    ensures ExecutionFor(d.tables, s.plan.id, s.execution) == s.execution
  {
  }

  lemma LaunchBlocked(s: Setup, d: Durable, worker: Id, g: Gates)
    requires IsLocked(d.tables, s.plan.id)
    ensures var entry := Launch(d, s.plan, s.execution, worker, g); entry.startAt.None? && Undisturbed(d, entry.durable)
  {
  }

  lemma LaunchOutcome(s: Setup, d: Durable, worker: Id, g: Gates)
    requires GoodSetup(s) && Sound(s, d)
    ensures var entry := Launch(d, s.plan, s.execution, worker, g);
      && Sound(s, entry.durable)
      && (entry.startAt.Some? ==> ReadyAt(s, entry.durable, entry.startAt.value))
  {
    hide Keeps, StepDone, ReconOf, StateOf, Reconcile, Sound, ReleaseFor, Acquire;
    SetupFacts(s);
    var acquired := Acquire(d.tables, s.plan.id, s.execution, worker);
    var locked := d.(tables := acquired.tables);
    AcquireKeeps(s, d, worker);
    KeepsSound(s, d, locked);
    KeepsRow(s, d, locked);
    KeepsRefl(s, d);
    var v := Validate(locked, ReconOf(s.plan), g.firstIssues);
    ValidateKeeps(s, locked, ReconOf(s.plan), g.firstIssues);
    KeepsSound(s, locked, v.durable);
    KeepsRow(s, locked, v.durable);
    ReleaseSound(s, v.durable, worker);
    if v.result.Ok? {
      var r := Reconcile(v.durable, ReconOf(s.plan), worker, g.surroundings);
      ReconcileOutcome(s, v.durable, worker, g.surroundings);
      ReleaseSound(s, r.durable, worker);
      if r.result.Ok? && s.plan.id !in r.durable.checkpoints {
        StartedSound(s, r.durable);
      }
    }
  }

  lemma StartedSound(s: Setup, d: Durable)
    requires GoodSetup(s) && Sound(s, d) && s.plan.id !in d.checkpoints
    ensures var started := Start(d, StateOf(s.plan).id);
      && started.result.Ok? && Sound(s, started.durable)
      && (s.plan.steps != [] && IsLocked(d.tables, s.plan.id) ==> ReadyAt(s, started.durable, 0))
  {
    SetupFacts(s);
    assert s.plan.id != "";
    hide StepDone, NumberedInOrder, CompletedIsLast;
  }
}
