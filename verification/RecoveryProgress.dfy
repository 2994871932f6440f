/** What reconciliation, recovery and launch do to attempts, records and progress by themselves: they start nothing, end
    nothing but by cancelling a running attempt, and never go back. */
module RecoveryProgress {
  import opened Common
  import opened ExecutionTables
  import opened AttemptIdentity
  import opened Normalisers
  import opened StateStore
  import opened Reconciliation
  import opened Recovery
  import opened CrashRecovery
  import CleanRuns

  /** The same attempts with the same status, except that a running one may have been cancelled. */
  ghost predicate SameEndings(a: seq<Attempt>, b: seq<Attempt>) {
    |a| == |b| && forall i :: 0 <= i < |a| ==>
      IsAttempt(b[i], a[i].planId, a[i].executionId, a[i].stepId, a[i].number)
      && (b[i].status == a[i].status || (a[i].status == AttemptStatus.Running && b[i].status == AttemptStatus.Cancelled))
  }

  /** So the attempts end, and records that were tracked, or in order, stay so. */
  ghost predicate Gentle(t: Tables, t': Tables) {
    && SameEndings(t.attempts, t'.attempts)
    && (CleanRuns.InOrder(t) ==> CleanRuns.InOrder(t'))
    && (CleanRuns.Tracked(t) ==> CleanRuns.Tracked(t'))
  }

  /** Progress is not lowered, the checkpoint stays, and it does not become running. */
  predicate Forward(s: Setup, d: Durable, d': Durable) {
    && LastOf(d, s.plan.id) <= LastOf(d', s.plan.id)
    && (s.plan.id in d.checkpoints ==> s.plan.id in d'.checkpoints)
    && (s.plan.id in d'.checkpoints && d'.checkpoints[s.plan.id].status.Running? ==>
          s.plan.id in d.checkpoints && d.checkpoints[s.plan.id].status.Running?)
  }

  ghost predicate Advances(s: Setup, d: Durable, d': Durable) {
    Gentle(d.tables, d'.tables) && Forward(s, d, d')
  }

  lemma GentleTrans(a: Tables, b: Tables, c: Tables)
    requires Gentle(a, b) && Gentle(b, c)
    ensures Gentle(a, c)
  {
    hide CleanRuns.InOrder, CleanRuns.Tracked;
  }

  lemma AdvancesTrans(s: Setup, a: Durable, b: Durable, c: Durable)
    requires Advances(s, a, b) && Advances(s, b, c)
    ensures Advances(s, a, c)
  {
    hide Gentle;
    GentleTrans(a.tables, b.tables, c.tables);
  }

  lemma AdvancesRefl(s: Setup, d: Durable)
    ensures Advances(s, d, d)
  {
  }

  // ----- Single transactions -----

  lemma QuietIsGentle(t: Tables, t': Tables)
    requires CleanRuns.Quiet(t, t')
    ensures Gentle(t, t')
  {
    hide CleanRuns.InOrder, CleanRuns.Tracked, CleanRuns.GrowsSilently;
    if CleanRuns.InOrder(t) {
      CleanRuns.QuietKeepsOrder(t, t');
    }
    if CleanRuns.Tracked(t) {
      CleanRuns.QuietKeepsTracked(t, t');
    }
  }

  lemma QuietAdvances(s: Setup, d: Durable, t: Tables)
    requires CleanRuns.Quiet(d.tables, t)
    ensures Advances(s, d, d.(tables := t))
  {
    hide Gentle, CleanRuns.Quiet;
    QuietIsGentle(d.tables, t);
  }

  lemma ReleaseAdvances(s: Setup, d: Durable, worker: Id)
    ensures Advances(s, d, ReleaseFor(d, s.plan.id, s.execution, worker))
  {
    hide Advances, CleanRuns.Quiet, Release;
    CleanRuns.QuietOp(d.tables, OpRelease(s.plan.id, s.execution, worker));
    QuietAdvances(s, d, Release(d.tables, s.plan.id, s.execution, worker).tables);
  }

  lemma LockAdvances(s: Setup, d: Durable, worker: Id)
    ensures Advances(s, d, d.(tables := Acquire(d.tables, s.plan.id, s.execution, worker).tables))
    ensures Advances(s, d, d.(tables := AcquireOrReuse(d.tables, s.plan.id, s.execution, worker).tables))
  {
    hide Advances, CleanRuns.Quiet, Acquire, AcquireOrReuse;
    CleanRuns.QuietOp(d.tables, OpAcquire(s.plan.id, s.execution, worker));
    CleanRuns.QuietOp(d.tables, OpAcquireOrReuse(s.plan.id, s.execution, worker));
    QuietAdvances(s, d, Acquire(d.tables, s.plan.id, s.execution, worker).tables);
    QuietAdvances(s, d, AcquireOrReuse(d.tables, s.plan.id, s.execution, worker).tables);
  }

  lemma ExpireAdvances(s: Setup, d: Durable)
    ensures Advances(s, d, Expire(d, s.plan.id))
  {
    hide Advances, CleanRuns.Quiet, ExpireRecovery;
    CleanRuns.QuietOp(d.tables, OpExpire(Some(s.plan.id)));
    QuietAdvances(s, d, ExpireRecovery(d.tables, Some(s.plan.id)).tables);
  }

  lemma AppendIsQuiet(t: Tables, e: Event)
    requires !e.kind.AttemptStarted? && !e.kind.AttemptFinalized?
    ensures CleanRuns.Quiet(t, Append(t, e))
  {
    CleanRuns.OneSilentEvent(t.ledger, e);
    hide CleanRuns.GrowsSilently;
  }

  lemma ReleaseTxIsQuiet(t: Tables, plan: Id, execution: Id, worker: Id)
    ensures CleanRuns.Quiet(t, ReleaseTx(t, plan, execution, worker).tables)
  {
    hide CleanRuns.GrowsSilently, SyncLease;
    CleanRuns.OneSilentEvent(t.ledger, Event(plan, None, None, None, Lifecycle(""), 0));
    if plan in t.locks {
      CleanRuns.OneSilentEvent(t.ledger, LeaseEvent(t, plan, execution, LeaseReleased(t.locks[plan].workerId, worker, t.now)));
    }
  }

  lemma MarkAdvances(s: Setup, d: Durable)
    ensures Advances(s, d, MarkCorrupted(d, s.plan.id))
  {
    hide Gentle, CleanRuns.Quiet;
    AdvancesRefl(s, d);
    if s.plan.id in d.checkpoints {
      var e := Event(s.plan.id, ActiveExecution(d.tables, s.plan.id), None, None, Lifecycle("execution.corrupted"), d.tables.now);
      AppendIsQuiet(d.tables, e);
      QuietIsGentle(d.tables, Append(d.tables, e));
    }
  }

  lemma TransitionIsGentle(d: Durable, plan: Id, execution: Id, worker: Id, t: Transition)
    ensures Gentle(d.tables, FinalizeTransition(d, plan, execution, worker, t).durable.tables)
  {
    hide Gentle, CleanRuns.Quiet, ReleaseTx;
    SameTablesGentle(d.tables);
    var written := Transitioned(d, plan, execution, t);
    if t.event.Some? {
      var e := Event(plan, Some(execution), t.step, None, Lifecycle(t.event.value), d.tables.now);
      AppendIsQuiet(d.tables, e);
      QuietIsGentle(d.tables, Append(d.tables, e));
    }
    ReleaseTxIsQuiet(written.tables, plan, execution, worker);
    QuietIsGentle(written.tables, ReleaseTx(written.tables, plan, execution, worker).tables);
    GentleTrans(d.tables, written.tables, ReleaseTx(written.tables, plan, execution, worker).tables);
  }

  lemma SameTablesGentle(t: Tables)
    ensures Gentle(t, t)
  {
  }

  /** A transition that stops the plan, or leaves the status, without touching the progress. */
  lemma TransitionAdvances(s: Setup, d: Durable, worker: Id, t: Transition)
    requires t.status.Some? ==> Stopping(t.status.value)
    requires s.plan.id in d.checkpoints ==>
      t.overrides.lastCompleted == None || t.overrides.lastCompleted == Some(d.checkpoints[s.plan.id].lastCompleted)
    ensures Advances(s, d, FinalizeTransition(d, s.plan.id, s.execution, worker, t).durable)
  {
    hide Gentle;
    TransitionIsGentle(d, s.plan.id, s.execution, worker, t);
  }

  lemma QueueAdvances(s: Setup, d: Durable, worker: Id, c: Checkpoint, step: Option<Id>, reason: string)
    requires s.plan.id in d.checkpoints && d.checkpoints[s.plan.id] == c
    ensures Advances(s, d, QueueReview(d, s.plan.id, s.execution, worker, c, step, reason).durable)
  {
    hide FinalizeTransition, Advances, EnqueueRecovery, CleanRuns.Quiet;
    AdvancesRefl(s, d);
    var op := OpEnqueue(s.plan.id, s.execution, step, reason, StatusName(c.status), OPERATOR_RECOVERY_TTL_MS);
    CleanRuns.QuietOp(d.tables, op);
    var queued := EnqueueRecovery(d.tables, s.plan.id, s.execution, step, reason, StatusName(c.status), OPERATOR_RECOVERY_TTL_MS);
    var mid := d.(tables := queued.tables);
    QuietAdvances(s, d, queued.tables);
    var t := Transition(Some(CheckpointStatus.PauseForOperatorRecovery), Indices(c), Some("recovery.ambiguous"), step, true, true);
    TransitionAdvances(s, mid, worker, t);
    AdvancesTrans(s, d, mid, FinalizeTransition(mid, s.plan.id, s.execution, worker, t).durable);
  }

  /** Cancelling the running attempt. */
  lemma CancelAttemptIsGentle(s: Setup, t: Tables, a: Attempt)
    requires NumberedInOrder(t.attempts) && a in t.attempts && a.status == AttemptStatus.Running
    requires OfStep(a, s.plan.id, s.execution, a.stepId)
    ensures Gentle(t, FinalizeAttempt(t, s.plan.id, s.execution, a.stepId, a.number, AttemptStatus.Cancelled).tables)
  {
    hide CleanRuns.InOrder, CleanRuns.Tracked, NumberedInOrder;
    var op := OpFinalize(s.plan.id, s.execution, a.stepId, a.number, AttemptStatus.Cancelled);
    assert HasRunning(t.attempts, s.plan.id, s.execution, a.stepId, a.number);
    if CleanRuns.InOrder(t) {
      CleanRuns.OrderlyKeepsOrder(t, op);
    }
    if CleanRuns.Tracked(t) {
      CleanRuns.UsableKeepsTracked(t, op);
    }
    forall i | 0 <= i < |t.attempts| && IsAttempt(t.attempts[i], s.plan.id, s.execution, a.stepId, a.number)
      ensures t.attempts[i] == a
    {
      SameNumberSameAttempt(t.attempts, t.attempts[i], a);
    }
  }

  lemma CancelAdvances(s: Setup, d: Durable, worker: Id, step: Option<Id>)
    requires s.plan.id in d.checkpoints
    ensures Advances(s, d, CancelExecution(d, s.plan.id, s.execution, worker, d.checkpoints[s.plan.id], step).durable)
  {
    hide FinalizeTransition, Advances;
    var c := d.checkpoints[s.plan.id];
    TransitionAdvances(s, d, worker,
      Transition(Some(CheckpointStatus.Cancelled), Overrides(Some(c.currentStep), None), Some("execution.cancelled"), step, true, true));
  }

  lemma CancelBothAdvances(s: Setup, d: Durable, worker: Id, step: Option<Id>, a: Attempt)
    requires s.plan.id in d.checkpoints && NumberedInOrder(d.tables.attempts)
    requires a in d.tables.attempts && a.status == AttemptStatus.Running && OfStep(a, s.plan.id, s.execution, a.stepId)
    ensures var cancelled := FinalizeAttempt(d.tables, s.plan.id, s.execution, a.stepId, a.number, AttemptStatus.Cancelled);
            var d' := d.(tables := cancelled.tables);
      && Advances(s, d, d')
      && Advances(s, d, CancelExecution(d', s.plan.id, s.execution, worker, d.checkpoints[s.plan.id], step).durable)
  {
    hide FinalizeAttempt, CancelExecution, Gentle;
    CancelAttemptIsGentle(s, d.tables, a);
    var d' := d.(tables := FinalizeAttempt(d.tables, s.plan.id, s.execution, a.stepId, a.number, AttemptStatus.Cancelled).tables);
    CancelAdvances(s, d', worker, step);
    AdvancesTrans(s, d, d', CancelExecution(d', s.plan.id, s.execution, worker, d.checkpoints[s.plan.id], step).durable);
  }

  // ----- Reconciliation -----

  lemma RunningAdvances(s: Setup, d: Durable, worker: Id, evidence: StepEvidence)
    requires GoodSetup(s) && Sound(s, d) && s.plan.id in d.checkpoints && d.checkpoints[s.plan.id].status.Running?
    ensures Advances(s, d, ReconcileRunning(d, ReconOf(s.plan), s.execution, worker, d.checkpoints[s.plan.id], evidence).durable)
  {
    hide Sound, Advances, Diagnose, QueueReview, FinalizeTransition, ReconOf, LatestAttempt, FinalizeAttempt, AfterStep, CancelExecution,
         NumberedInOrder, CompletedIsLast, UnsafeReason;
    var c, R := d.checkpoints[s.plan.id], ReconOf(s.plan);
    SetupFacts(s);
    RunningPosition(s, d);
    AdvancesRefl(s, d);
    var stepId := Some(R.steps[c.currentStep].id);
    DiagnosisFacts(d.tables, R, s.execution, c, evidence);
    match Diagnose(d.tables, R, s.execution, c, evidence)
    case Overdue => QueueAdvances(s, d, worker, c, stepId, "execution_duration_exceeded");
    case Exhausted =>
      TransitionAdvances(s, d, worker, Transition(Some(CheckpointStatus.ExecutionAbandoned), KEEP, Some("execution.abandoned"), stepId, true, true));
    case SnapshotAhead => QueueAdvances(s, d, worker, c, stepId, "recovery_snapshot_ledger_mismatch");
    case Finished => StepAdvances(s, d);
    case AfterFailure(decision) => QueueAdvances(s, d, worker, c, stepId, UnsafeReason(d.tables, R, s.execution, c));
    case CancelAttempt(a) => CancelBothAdvances(s, d, worker, stepId, a);
    case CancelIdle => CancelAdvances(s, d, worker, stepId);
    case Ambiguous => QueueAdvances(s, d, worker, c, stepId, "recovery_ambiguous");
    case _ =>
  }

  lemma StepAdvances(s: Setup, d: Durable)
    requires Sound(s, d) && s.plan.id in d.checkpoints && d.checkpoints[s.plan.id].status.Running?
    ensures Advances(s, d, AfterStep(d, s.plan.id, d.checkpoints[s.plan.id].currentStep, |s.plan.steps|).durable)
  {
    hide Gentle, NumberedInOrder, CompletedIsLast, StepDone;
    SameTablesGentle(d.tables);
  }

  lemma ChooseAdvances(s: Setup, d: Durable, worker: Id, evidence: StepEvidence)
    requires GoodSetup(s) && Sound(s, d) && HeldBy(d.tables, s.plan.id, s.execution)
    ensures Advances(s, d, Choose(d, ReconOf(s.plan), s.execution, worker, evidence).durable)
  {
    hide Sound, Advances, ReconcileRunning, QueueReview, FinalizeTransition, UnresolvedItems, ExecutionRows, TooLong, ReconOf, CancelExecution;
    AdvancesRefl(s, d);
    SetupFacts(s);
    if s.plan.id in d.checkpoints {
      var c := d.checkpoints[s.plan.id];
      var open := UnresolvedItems(d.tables.recovery, s.plan.id);
      var step := CurrentStep(ReconOf(s.plan), c);
      var stepId := match step case Some(st) => Some(st.id) case None => None;
      if open != [] {
        TransitionAdvances(s, d, worker,
          Transition(Some(CheckpointStatus.PauseForOperatorRecovery), Indices(c), Some("recovery.pending"), open[0].stepId, true, true));
      } else if c.status.Running? {
        RunningAdvances(s, d, worker, evidence);
      } else {
        CancelAdvances(s, d, worker, None);
        QueueAdvances(s, d, worker, c, stepId, "execution_duration_exceeded");
        TransitionAdvances(s, d, worker, Transition(Some(CheckpointStatus.ExecutionAbandoned), KEEP, Some("execution.abandoned"), None, true, true));
        TransitionAdvances(s, d, worker, Transition(None, KEEP, None, None, true, true));
      }
    }
  }

  lemma ValidateAdvances(s: Setup, d: Durable, plan: ReconPlan, otherIssues: bool)
    requires plan.id == s.plan.id
    ensures Advances(s, d, Validate(d, plan, otherIssues).durable)
  {
    hide Advances, Expire, MarkCorrupted, Corrupt;
    AdvancesRefl(s, d);
    ExpireAdvances(s, d);
    MarkAdvances(s, Expire(d, s.plan.id));
    AdvancesTrans(s, d, Expire(d, s.plan.id), MarkCorrupted(Expire(d, s.plan.id), s.plan.id));
  }

  lemma ReconcileAdvances(s: Setup, d: Durable, worker: Id, sur: Surroundings)
    requires GoodSetup(s) && Sound(s, d)
    ensures Advances(s, d, Reconcile(d, ReconOf(s.plan), worker, sur).durable)
  {
    hide Sound, Advances, Keeps, FinalizeTransition, ReconOf, Choose, Validate, Expire, ExpiredItems, ResolveExpired;
    var R := ReconOf(s.plan);
    SetupFacts(s);
    AdvancesRefl(s, d);
    var swept := Expire(d, s.plan.id);
    ExpireKeeps(s, d);
    KeepsSound(s, d, swept);
    ExpireAdvances(s, d);
    if IsLocked(swept.tables, s.plan.id) {
      SoundMeansOurs(s, swept);
      if ExpireRecovery(d.tables, Some(s.plan.id)).result.value != [] {
        var status := if s.plan.id in swept.checkpoints then Some(CheckpointStatus.ExecutionAbandoned) else None;
        var t := Transition(status, KEEP, Some("execution.abandoned"), None, true, false);
        TransitionAdvances(s, swept, worker, t);
        AdvancesTrans(s, d, swept, FinalizeTransition(swept, s.plan.id, s.execution, worker, t).durable);
      } else {
        CheckedAdvances(s, d, swept, worker, sur);
      }
    }
  }

  lemma CheckedAdvances(s: Setup, d: Durable, swept: Durable, worker: Id, sur: Surroundings)
    requires GoodSetup(s) && Sound(s, swept) && Advances(s, d, swept) && HeldBy(swept.tables, s.plan.id, s.execution)
    ensures var v := Validate(swept, ReconOf(s.plan), sur.otherIssues);
      && Advances(s, d, v.durable)
      && (v.result.Ok? ==> Advances(s, d, Choose(v.durable, ReconOf(s.plan), s.execution, worker, sur.evidence).durable))
  {
    hide Sound, Advances, Keeps, ReconOf, Choose, Expire, MarkCorrupted, Corrupt;
    var R := ReconOf(s.plan);
    SetupFacts(s);
    var v := Validate(swept, R, sur.otherIssues);
    ValidateAdvances(s, swept, R, sur.otherIssues);
    AdvancesTrans(s, d, swept, v.durable);
    if v.result.Ok? {
      ValidateKeeps(s, swept, R, sur.otherIssues);
      KeepsSound(s, swept, v.durable);
      ExpiryKeepsLocks(swept, s.plan.id);
      ChooseAdvances(s, v.durable, worker, sur.evidence);
      AdvancesTrans(s, d, v.durable, Choose(v.durable, R, s.execution, worker, sur.evidence).durable);
    }
  }

  lemma ExpiryKeepsLocks(d: Durable, plan: Id)
    ensures Expire(d, plan).tables.locks == d.tables.locks
  {
  }

  // ----- Recovery and launch -----

  lemma ResumingAdvances(s: Setup, d: Durable, worker: Id, action: Action)
    requires GoodSetup(s) && Sound(s, d)
    ensures Advances(s, d, ResumeAfter(d, s.plan, s.execution, worker, action).durable)
  {
    hide Advances, ReleaseFor, RecoverState, StateOf, Sound;
    AdvancesRefl(s, d);
    ReleaseAdvances(s, d, worker);
    var recovered := RecoverState(d, StateOf(s.plan));
    RecoverStateAdvances(s, d);
    ReleaseAdvances(s, recovered.durable, worker);
    AdvancesTrans(s, d, recovered.durable, ReleaseFor(recovered.durable, s.plan.id, s.execution, worker));
  }

  lemma RecoverStateAdvances(s: Setup, d: Durable)
    requires GoodSetup(s)
    ensures Advances(s, d, RecoverState(d, StateOf(s.plan)).durable)
  {
    hide Gentle, StateOf;
    SetupFacts(s);
    SameTablesGentle(d.tables);
  }

  lemma LockedAdvances(s: Setup, d: Durable, worker: Id, g: Gates)
    requires GoodSetup(s) && Sound(s, d)
    ensures Advances(s, d, RecoverLocked(d, s.plan, s.execution, worker, g).durable)
  {
    hide Advances, Sound, Keeps, Validate, Reconcile, ReconOf, ReleaseFor, ResumeAfter, WentOn;
    SetupFacts(s);
    var v := Validate(d, ReconOf(s.plan), g.secondIssues);
    ValidateAdvances(s, d, ReconOf(s.plan), g.secondIssues);
    ValidateKeeps(s, d, ReconOf(s.plan), g.secondIssues);
    KeepsSound(s, d, v.durable);
    ReleaseAfter(s, d, v.durable, worker);
    var r := Reconcile(v.durable, ReconOf(s.plan), worker, g.surroundings);
    ReconcileAdvances(s, v.durable, worker, g.surroundings);
    ReconcileOutcome(s, v.durable, worker, g.surroundings);
    AdvancesTrans(s, d, v.durable, r.durable);
    ReleaseAfter(s, d, r.durable, worker);
    if r.result.Ok? {
      var action := r.result.value.action;
      ResumingAdvances(s, r.durable, worker, action);
      AdvancesTrans(s, d, r.durable, ResumeAfter(r.durable, s.plan, s.execution, worker, action).durable);
    }
  }

  lemma ReleaseAfter(s: Setup, d: Durable, d': Durable, worker: Id)
    requires Advances(s, d, d')
    ensures Advances(s, d, ReleaseFor(d', s.plan.id, s.execution, worker))
  {
    hide Advances, ReleaseFor;
    ReleaseAdvances(s, d', worker);
    AdvancesTrans(s, d, d', ReleaseFor(d', s.plan.id, s.execution, worker));
  }

  lemma RecoverAdvances(s: Setup, d: Durable, worker: Id, g: Gates)
    requires GoodSetup(s) && Sound(s, d)
    ensures Advances(s, d, Recover(d, s.plan, s.execution, worker, g).durable)
  {
    hide Advances, Sound, Keeps, Validate, ReconOf, AcquireOrReuse, RecoverLocked, AttemptAlive;
    SetupFacts(s);
    HolderIsOurs(s, d);
    AdvancesRefl(s, d);
    var v := Validate(d, ReconOf(s.plan), g.firstIssues);
    ValidateAdvances(s, d, ReconOf(s.plan), g.firstIssues);
    ValidateKeeps(s, d, ReconOf(s.plan), g.firstIssues);
    KeepsSound(s, d, v.durable);
    var locked := v.durable.(tables := AcquireOrReuse(v.durable.tables, s.plan.id, s.execution, worker).tables);
    LockAdvances(s, v.durable, worker);
    AcquireKeeps(s, v.durable, worker);
    KeepsSound(s, v.durable, locked);
    AdvancesTrans(s, d, v.durable, locked);
    LockedAdvances(s, locked, worker, g);
    AdvancesTrans(s, d, locked, RecoverLocked(locked, s.plan, s.execution, worker, g).durable);
  }

  lemma LaunchAdvances(s: Setup, d: Durable, worker: Id, g: Gates)
    requires GoodSetup(s) && Sound(s, d)
    ensures Advances(s, d, Launch(d, s.plan, s.execution, worker, g).durable)
  {
    hide Advances, Sound, Keeps, Validate, Reconcile, ReconOf, StateOf, Acquire, ReleaseFor, Start;
    SetupFacts(s);
    AdvancesRefl(s, d);
    var locked := d.(tables := Acquire(d.tables, s.plan.id, s.execution, worker).tables);
    LockAdvances(s, d, worker);
    AcquireKeeps(s, d, worker);
    KeepsSound(s, d, locked);
    var v := Validate(locked, ReconOf(s.plan), g.firstIssues);
    ValidateAdvances(s, locked, ReconOf(s.plan), g.firstIssues);
    ValidateKeeps(s, locked, ReconOf(s.plan), g.firstIssues);
    KeepsSound(s, locked, v.durable);
    AdvancesTrans(s, d, locked, v.durable);
    ReleaseAfter(s, d, v.durable, worker);
    var r := Reconcile(v.durable, ReconOf(s.plan), worker, g.surroundings);
    ReconcileAdvances(s, v.durable, worker, g.surroundings);
    AdvancesTrans(s, d, v.durable, r.durable);
    ReleaseAfter(s, d, r.durable, worker);
    StartAdvances(s, r.durable);
    var started := Start(r.durable, StateOf(s.plan).id).durable;
    AdvancesTrans(s, d, r.durable, started);
    ReleaseAfter(s, d, started, worker);
  }

  lemma StartAdvances(s: Setup, d: Durable)
    requires GoodSetup(s)
    ensures Advances(s, d, Start(d, StateOf(s.plan).id).durable)
  {
    hide Gentle, StateOf;
    SetupFacts(s);
    SameTablesGentle(d.tables);
  }
}
