/** `validateExecutionIntegrity` and `reconcileExecutionState` of services/executionReconciliation.js:
    the durable views are checked against each other and the recovery action is chosen. */
module Reconciliation {
  import opened Common
  import opened ExecutionTables
  import opened Normalisers
  import opened StateStore
  import opened IntegrityChecker

  const MAX_EXECUTION_DURATION_MS: nat := 3600000
  const MAX_EXECUTION_ATTEMPTS: nat := 50

  /** What the snapshot tables say about the interrupted step. */
  datatype StepEvidence = StepEvidence(started: bool, completed: bool, failed: bool, pausedForReview: bool)

  const NO_EVIDENCE := StepEvidence(false, false, false, false)

  /** What is read from the parts that are not modelled: whether the schema, lifecycle and snapshot checks
      complain, and the snapshot row of the current step. Any combination is possible. */
  datatype Surroundings = Surroundings(otherIssues: bool, evidence: StepEvidence)

  // ----- Validation -----

  predicate CheckpointIssues(c: Checkpoint, total: int) {
    || c.lastCompleted < -1 || c.currentStep < 0
    || (!Terminal(c.status) && c.currentStep < c.lastCompleted + 1)
    || c.lastCompleted >= total || c.currentStep > total
  }

  predicate Unresolved(item: RecoveryItem, plan: Id) {
    item.planId == plan && item.resolvedAt.None?
  }

  function UnresolvedItems(items: seq<RecoveryItem>, plan: Id): (r: seq<RecoveryItem>)
    ensures forall item :: item in r <==> item in items && Unresolved(item, plan)
  {
    if items == [] then []
    else
      assert items == Init(items) + [Last(items)];
      var here := if Unresolved(Last(items), plan) then [Last(items)] else [];
      UnresolvedItems(Init(items), plan) + here
  }

  /** The issues that read only the checkpoint, the lock and the recovery queue. */
  predicate ViewsDisagree(d: Durable, plan: ReconPlan) {
    plan.id in d.checkpoints &&
    var c := d.checkpoints[plan.id];
    || CheckpointIssues(c, |plan.steps|)
    || (Terminal(c.status) && IsLocked(d.tables, plan.id))
    || (c.status.PauseForOperatorRecovery? && UnresolvedItems(d.tables.recovery, plan.id) == [])
  }

  ghost predicate AttemptsConsistent(t: Tables, plan: Id) {
    KeyedConsistent(PlanRows(t.attempts, plan), PlanEvents(t.ledger, plan))
  }

  ghost predicate Corrupt(d: Durable, plan: ReconPlan, otherIssues: bool) {
    ViewsDisagree(d, plan) || otherIssues || !AttemptsConsistent(d.tables, plan.id)
  }

  function ActiveExecution(t: Tables, plan: Id): Option<Id> {
    if IsLocked(t, plan) then Some(t.locks[plan].executionId) else None
  }

  /** A corrupted checkpoint is marked so, and the verdict is logged. */
  function MarkCorrupted(d: Durable, plan: Id): Durable {
    if plan !in d.checkpoints then d
    else
      var marked := SetStatus(d, plan, CheckpointStatus.Corrupted, KEEP).durable;
      marked.(tables := Append(marked.tables,
        Event(plan, ActiveExecution(d.tables, plan), None, None, Lifecycle("execution.corrupted"), d.tables.now)))
  }

  function Expire(d: Durable, plan: Id): Durable {
    d.(tables := ExpireRecovery(d.tables, Some(plan)).tables)
  }

  ghost function Validate(d: Durable, plan: ReconPlan, otherIssues: bool): Outcome<()> {
    if Blank(plan.id) then Outcome(d, Err(InvalidState))
    else
      var swept := Expire(d, plan.id);
      if Corrupt(swept, plan, otherIssues) then Outcome(MarkCorrupted(swept, plan.id), Err(ErrorCode.Corrupted))
      else Outcome(swept, Ok(()))
  }

  // ----- The choice of a recovery action -----

  datatype Action =
    | DoNothing | PauseForOperator | Abandon | ReportCompleted | ReportCancelled | Halt
    | Continue | RetryStep | GuardedRetryStep | Noop | CancelPending | Resume

  datatype Decision = Decision(action: Action, checkpoint: Option<Checkpoint>, executionId: Id)

  datatype LedgerFacts = LedgerFacts(started: bool, completed: bool, failed: bool, cancelled: bool)

  /** `getLatestAttemptLedgerState` for a known attempt number. */
  function LedgerFactsOf(events: seq<Event>, execution: Id, step: Id, number: nat): LedgerFacts {
    if events == [] then LedgerFacts(false, false, false, false)
    else
      var facts, e := LedgerFactsOf(Init(events), execution, step, number), Last(events);
      if e.executionId == Some(execution) && e.stepId == Some(step) && e.attemptNumber == Some(number) then
        facts.(started := facts.started || e.kind.AttemptStarted?,
               completed := facts.completed || e.kind == AttemptFinalized(AttemptStatus.Completed),
               failed := facts.failed || e.kind == AttemptFinalized(AttemptStatus.Failed),
               cancelled := facts.cancelled || e.kind == AttemptFinalized(AttemptStatus.Cancelled))
      else facts
  }

  function ExecutionRows(attempts: seq<Attempt>, plan: Id, execution: Id): (r: seq<Attempt>)
    ensures forall a :: a in r <==> a in attempts && a.planId == plan && a.executionId == execution
  {
    if attempts == [] then []
    else
      assert attempts == Init(attempts) + [Last(attempts)];
      var here := if Last(attempts).planId == plan && Last(attempts).executionId == execution then [Last(attempts)] else [];
      ExecutionRows(Init(attempts), plan, execution) + here
  }

  function EarliestCreation(rows: seq<Attempt>): (r: Option<nat>)
    ensures rows != [] <==> r.Some?
    ensures forall a :: a in rows ==> r.value <= a.createdAt
    ensures r.Some? ==> exists a :: a in rows && a.createdAt == r.value
  {
    if rows == [] then None
    else
      assert rows == Init(rows) + [Last(rows)];
      match EarliestCreation(Init(rows))
      case None => Some(Last(rows).createdAt)
      case Some(at) => Some(if Last(rows).createdAt < at then Last(rows).createdAt else at)
  }

  /** The attempt of a step with the highest number. */
  function LatestAttempt(attempts: seq<Attempt>, plan: Id, execution: Id, step: Id): (r: Option<Attempt>)
    ensures r.Some? ==> r.value in attempts && OfStep(r.value, plan, execution, step)
    ensures forall a :: a in attempts && OfStep(a, plan, execution, step) ==> r.Some? && a.number <= r.value.number
  {
    if attempts == [] then None
    else
      assert attempts == Init(attempts) + [Last(attempts)];
      var best := LatestAttempt(Init(attempts), plan, execution, step);
      var a := Last(attempts);
      if OfStep(a, plan, execution, step) && (best.None? || a.number > best.value.number) then Some(a) else best
  }

  predicate TooLong(rows: seq<Attempt>, now: nat) {
    var first := EarliestCreation(rows);
    first.Some? && now - first.value > MAX_EXECUTION_DURATION_MS
  }

  predicate OfExecution(a: Attempt, plan: Id, execution: Id) {
    a.planId == plan && a.executionId == execution
  }

  /** An execution has lasted too long exactly when one of its attempts is that old. */
  lemma TooLongExactly(attempts: seq<Attempt>, plan: Id, execution: Id, now: nat)
    ensures TooLong(ExecutionRows(attempts, plan, execution), now) <==>
      exists a :: a in attempts && OfExecution(a, plan, execution) && now - a.createdAt > MAX_EXECUTION_DURATION_MS
  {
  }

  /** Each attempt of the execution is counted once. */
  lemma {:induction false} ExecutionRowsCount(attempts: seq<Attempt>, plan: Id, execution: Id)
    ensures |ExecutionRows(attempts, plan, execution)| == |set i | 0 <= i < |attempts| && OfExecution(attempts[i], plan, execution)|
  {
    hide Positions;
    var ours := (a: Attempt) => OfExecution(a, plan, execution);
    PositionsGrow(attempts, ours);
    PositionsAre(attempts, plan, execution);
    if attempts != [] {
      ExecutionRowsCount(Init(attempts), plan, execution);
      PositionsAre(Init(attempts), plan, execution);
    }
  }

  lemma PositionsAre(attempts: seq<Attempt>, plan: Id, execution: Id)
    ensures Positions(attempts, (a: Attempt) => OfExecution(a, plan, execution))
         == set i | 0 <= i < |attempts| && OfExecution(attempts[i], plan, execution)
  {
  }

  function StatusName(status: CheckpointStatus): string {
    match status
    case Pending => "pending"
    case Running => "running"
    case Paused => "paused"
    case AwaitingReview => "awaiting_review"
    case PauseForOperatorRecovery => "pause_for_operator_recovery"
    case Completed => "completed"
    case Cancelled => "cancelled"
    case Failed => "failed"
    case ExecutionAbandoned => "execution_abandoned"
    case Corrupted => "corrupted"
  }

  function Indices(c: Checkpoint): Overrides {
    Overrides(Some(c.currentStep), Some(c.lastCompleted))
  }

  function Decided(o: Outcome<Option<Checkpoint>>, action: Action, c: Option<Checkpoint>, execution: Id): Outcome<Decision> {
    match o.result
    case Err(e) => Outcome(o.durable, Err(e))
    case Ok(row) => Outcome(o.durable, Ok(Decision(action, if row.Some? then row else c, execution)))
  }

  /** `queueRecoveryReview`: one transaction; if either part fails neither happens. */
  function QueueReview(d: Durable, plan: Id, execution: Id, worker: Id, c: Checkpoint, step: Option<Id>, reason: string)
    : Outcome<Decision>
  {
    var queued := EnqueueRecovery(d.tables, plan, execution, step, reason, StatusName(c.status), OPERATOR_RECOVERY_TTL_MS);
    if queued.result.Err? then Outcome(d, Err(queued.result.error))
    else
      var paused := FinalizeTransition(d.(tables := queued.tables), plan, execution, worker,
        Transition(Some(CheckpointStatus.PauseForOperatorRecovery), Indices(c), Some("recovery.ambiguous"), step, true, true));
      if paused.result.Err? then Outcome(d, Err(paused.result.error))
      else Decided(paused, PauseForOperator, Some(c), execution)
  }

  function PauseForQueue(d: Durable, plan: Id, execution: Id, worker: Id, c: Checkpoint, step: Option<Id>): Outcome<Decision> {
    Decided(
      FinalizeTransition(d, plan, execution, worker,
        Transition(Some(CheckpointStatus.PauseForOperatorRecovery), Indices(c), Some("recovery.pending"), step, true, true)),
      PauseForOperator, Some(c), execution)
  }

  function AbandonExecution(d: Durable, plan: Id, execution: Id, worker: Id, c: Checkpoint, step: Option<Id>): Outcome<Decision> {
    Decided(
      FinalizeTransition(d, plan, execution, worker,
        Transition(Some(CheckpointStatus.ExecutionAbandoned), KEEP, Some("execution.abandoned"), step, true, true)),
      Abandon, Some(c), execution)
  }

  function CancelExecution(d: Durable, plan: Id, execution: Id, worker: Id, c: Checkpoint, step: Option<Id>): Outcome<Decision> {
    Decided(
      FinalizeTransition(d, plan, execution, worker,
        Transition(Some(CheckpointStatus.Cancelled), Overrides(Some(c.currentStep), None), Some("execution.cancelled"), step,
                   true, true)),
      ReportCancelled, Some(c), execution)
  }

  function CurrentStep(plan: ReconPlan, c: Checkpoint): Option<ReconStep> {
    if 0 <= c.currentStep < |plan.steps| then Some(plan.steps[c.currentStep]) else None
  }

  /** What is found about an interrupted step. */
  datatype Diagnosis =
    | Overdue | Exhausted | SnapshotAhead | Finished | AfterFailure(decision: RecoveryDecision)
    | LeaseLive | CancelAttempt(attempt: Attempt) | CancelIdle | Ambiguous | Untouched

  function CurrentAttempt(t: Tables, plan: ReconPlan, execution: Id, c: Checkpoint): Option<Attempt> {
    match CurrentStep(plan, c)
    case Some(s) => LatestAttempt(t.attempts, plan.id, execution, s.id)
    case None => None
  }

  function FactsOf(a: Attempt): AttemptFacts {
    AttemptFacts(ClassName(a.sideEffect), a.idempotencyKey.Some? && a.idempotencyKey.value != "")
  }

  function UnsafeReason(t: Tables, plan: ReconPlan, execution: Id, c: Checkpoint): string {
    var step, latest := CurrentStep(plan, c), CurrentAttempt(t, plan, execution, c);
    "unsafe_recovery_"
    + if step.Some? then ReportedClass(step.value, if latest.Some? then Some(FactsOf(latest.value)) else None) else "unknown"
  }

  /** The cascade of questions about a running checkpoint. The validation result hands over no ledger, so the ledger facts
      are those of an empty ledger: only attempt rows and the snapshot row decide. */
  function Diagnose(t: Tables, plan: ReconPlan, execution: Id, c: Checkpoint, evidence: StepEvidence): Diagnosis {
    var step, latest := CurrentStep(plan, c), CurrentAttempt(t, plan, execution, c);
    var persisted := if step.Some? && !Blank(step.value.id) && !Blank(execution) then evidence else NO_EVIDENCE;
    var facts := LedgerFactsOf([], execution, if step.Some? then step.value.id else "", if latest.Some? then latest.value.number else 0);
    var rows := ExecutionRows(t.attempts, plan.id, execution);
    var started := latest.Some? || facts.started || persisted.started || persisted.pausedForReview || persisted.failed || persisted.completed;
    var ended := facts.completed || facts.failed || facts.cancelled || persisted.failed || persisted.completed;
    var completed := facts.completed || (latest.Some? && latest.value.status == AttemptStatus.Completed);
    var running := latest.Some? && latest.value.status == AttemptStatus.Running;
    if TooLong(rows, t.now) then Overdue
    else if |rows| >= MAX_EXECUTION_ATTEMPTS then Exhausted
    else if persisted.completed && !completed then SnapshotAhead
    else if completed then Finished
    else if step.Some? && (facts.failed || (latest.Some? && latest.value.status == AttemptStatus.Failed)) then
      AfterFailure(DecideRecoveryAction(step.value, if latest.Some? then Some(FactsOf(latest.value)) else None))
    else if running && latest.value.leaseExpiresAt > t.now then LeaseLive
    else if c.cancellationRequested then
      if running then CancelAttempt(latest.value) else CancelIdle
    else if (started && !ended) || facts.started || latest.Some? then Ambiguous
    else Untouched
  }

  /** The branch for a checkpoint that says a step is running. */
  function ReconcileRunning(d: Durable, plan: ReconPlan, execution: Id, worker: Id, c: Checkpoint, evidence: StepEvidence)
    : Outcome<Decision>
  {
    var stepId := match CurrentStep(plan, c) case Some(s) => Some(s.id) case None => None;
    match Diagnose(d.tables, plan, execution, c, evidence)
    case Overdue => QueueReview(d, plan.id, execution, worker, c, stepId, "execution_duration_exceeded")
    case Exhausted => AbandonExecution(d, plan.id, execution, worker, c, stepId)
    case SnapshotAhead => QueueReview(d, plan.id, execution, worker, c, stepId, "recovery_snapshot_ledger_mismatch")
    case Finished =>
      var advanced := AfterStep(d, plan.id, c.currentStep, |plan.steps|);
      Outcome(advanced.durable, Ok(Decision(Continue, Some(if advanced.result.Ok? then advanced.result.value else c), execution)))
    case AfterFailure(OperatorRecovery) => 
      QueueReview(d, plan.id, execution, worker, c, stepId, UnsafeReason(d.tables, plan, execution, c))
    case AfterFailure(Retry) => Outcome(d, Ok(Decision(RetryStep, Some(c), execution)))
    case AfterFailure(GuardedRetry) => Outcome(d, Ok(Decision(GuardedRetryStep, Some(c), execution)))
    case LeaseLive => Outcome(d, Ok(Decision(if c.cancellationRequested then CancelPending else Noop, Some(c), execution)))
    case CancelAttempt(a) =>
      var cancelled := FinalizeAttempt(d.tables, plan.id, execution, a.stepId, a.number, AttemptStatus.Cancelled);
      if cancelled.result.Err? then Outcome(d.(tables := cancelled.tables), Err(cancelled.result.error))
      else CancelExecution(d.(tables := cancelled.tables), plan.id, execution, worker, c, stepId)
    case CancelIdle => CancelExecution(d, plan.id, execution, worker, c, stepId)
    case Ambiguous => QueueReview(d, plan.id, execution, worker, c, stepId, "recovery_ambiguous")
    case Untouched => Outcome(d, Ok(Decision(Resume, Some(c), execution)))
  }

  /** The branch for a checkpoint that has failed or stopped: it is reached only past the validation. */
  function ReconcileStopped(d: Durable, plan: ReconPlan, execution: Id, worker: Id, c: Checkpoint): Outcome<Decision> {
    var rows := ExecutionRows(d.tables.attempts, plan.id, execution);
    var stepId := match CurrentStep(plan, c) case Some(s) => Some(s.id) case None => None;
    if c.status.Failed? && TooLong(rows, d.tables.now) then
      QueueReview(d, plan.id, execution, worker, c, stepId, "execution_duration_exceeded")
    else if c.status.Failed? && |rows| >= MAX_EXECUTION_ATTEMPTS then
      AbandonExecution(d, plan.id, execution, worker, c, None)
    else Outcome(d, Ok(Decision(Halt, Some(c), execution)))
  }

  /** Everything after a successful validation. */
  function Choose(d: Durable, plan: ReconPlan, execution: Id, worker: Id, evidence: StepEvidence): Outcome<Decision> {
    if plan.id !in d.checkpoints then Outcome(d, Ok(Decision(DoNothing, None, execution)))
    else
      var c := d.checkpoints[plan.id];
      var open := UnresolvedItems(d.tables.recovery, plan.id);
      if open != [] then PauseForQueue(d, plan.id, execution, worker, c, open[0].stepId)
      else
        match c.status
        case Completed => Outcome(d, Ok(Decision(ReportCompleted, Some(c), execution)))
        case Cancelled =>
          Decided(FinalizeTransition(d, plan.id, execution, worker, Transition(None, KEEP, None, None, true, true)),
                  ReportCancelled, Some(c), execution)
        case Failed => ReconcileStopped(d, plan, execution, worker, c)
        case Corrupted => ReconcileStopped(d, plan, execution, worker, c)
        case ExecutionAbandoned => ReconcileStopped(d, plan, execution, worker, c)
        case PauseForOperatorRecovery => ReconcileStopped(d, plan, execution, worker, c)
        case Running => ReconcileRunning(d, plan, execution, worker, c, evidence)
        case _ =>
          if c.cancellationRequested then CancelExecution(d, plan.id, execution, worker, c, None)
          else Outcome(d, Ok(Decision(Resume, Some(c), execution)))
  }

  ghost function Reconcile(d: Durable, plan: ReconPlan, worker: Id, s: Surroundings): Outcome<Decision> {
    if plan.id == "" then Outcome(d, Err(InvalidState))
    else
      var expired := ExpireRecovery(d.tables, Some(plan.id)).result.value;
      var swept := Expire(d, plan.id);
      if !IsLocked(swept.tables, plan.id) then Outcome(swept, Err(LockRequired))
      else
        var execution := swept.tables.locks[plan.id].executionId;
        if expired != [] then
          var status := if plan.id in swept.checkpoints then Some(CheckpointStatus.ExecutionAbandoned) else None;
          Decided(
            FinalizeTransition(swept, plan.id, execution, worker,
              Transition(status, KEEP, Some("execution.abandoned"), None, true, false)),
            Abandon, Row(swept, plan.id), execution)
        else
          var validated := Validate(swept, plan, s.otherIssues);
          if validated.result.Err? then Outcome(validated.durable, Err(validated.result.error))
          else Choose(validated.durable, plan, execution, worker, s.evidence)
  }

  // ----- The imperative form -----

  class Reconciler {
    const store: CheckpointStore

    constructor (store: CheckpointStore)
      ensures this.store == store
    {
      this.store := store;
    }

    method HasIssues(plan: ReconPlan, otherIssues: bool) returns (found: bool)
      ensures found == Corrupt(store.View(), plan, otherIssues)
    {
      var t := store.integrity;
      found := otherIssues;
      var open := UnresolvedItems(t.recovery, plan.id);
      if plan.id in store.rows {
        var c, total := store.rows[plan.id], |plan.steps|;
        if c.lastCompleted < -1 || c.currentStep < 0 {
          found := true;
        }
        if !Terminal(c.status) && c.currentStep < c.lastCompleted + 1 {
          found := true;
        }
        if c.lastCompleted >= total || c.currentStep > total {
          found := true;
        }
        if Terminal(c.status) && plan.id in t.locks && t.locks[plan.id].releasedAt.None? {
          found := true;
        }
        if c.status.PauseForOperatorRecovery? && open == [] {
          found := true;
        }
      }
      var issues := CollectAttemptIssues(PlanRows(t.attempts, plan.id), PlanEvents(t.ledger, plan.id));
      found := found || issues != [];
    }

    method ValidateExecutionIntegrity(plan: ReconPlan, otherIssues: bool) returns (r: Result<(), ErrorCode>)
      modifies store`rows, store.integrity
      ensures Outcome(store.View(), r) == Validate(old(store.View()), plan, otherIssues)
    {
      if Blank(plan.id) {
        return Err(InvalidState);
      }
      var t := store.integrity;
      var _ := t.ExpireOperatorRecoveryItems(Some(plan.id));
      var corrupted := HasIssues(plan, otherIssues);
      if corrupted {
        if plan.id in store.rows {
          var holder := if plan.id in t.locks && t.locks[plan.id].releasedAt.None? then Some(t.locks[plan.id].executionId) else None;
          var _ := store.SetExecutionCheckpointStatus(plan.id, CheckpointStatus.Corrupted, KEEP);
          t.AppendLedgerEvent(Event(plan.id, holder, None, None, Lifecycle("execution.corrupted"), t.now));
        }
        return Err(ErrorCode.Corrupted);
      }
      r := Ok(());
    }

    method QueueRecoveryReview(plan: Id, execution: Id, worker: Id, c: Checkpoint, step: Option<Id>, reason: string)
      returns (r: Result<Decision, ErrorCode>)
      modifies store`rows, store.integrity
      ensures Outcome(store.View(), r) == QueueReview(old(store.View()), plan, execution, worker, c, step, reason)
    {
      var t := store.integrity;
      var savedRecovery, savedLedger := t.recovery, t.ledger;
      var queued := t.EnqueueOperatorRecovery(plan, execution, step, reason, StatusName(c.status), OPERATOR_RECOVERY_TTL_MS);
      if queued.Err? {
        return Err(queued.error);
      }
      var paused := store.FinalizeExecutionTransition(plan, execution, worker,
        Transition(Some(CheckpointStatus.PauseForOperatorRecovery), Indices(c), Some("recovery.ambiguous"), step, true, true));
      if paused.Err? {
        t.recovery, t.ledger := savedRecovery, savedLedger;
        return Err(paused.error);
      }
      r := Ok(Decision(PauseForOperator, if paused.value.Some? then paused.value else Some(c), execution));
    }

    method Transit(plan: Id, execution: Id, worker: Id, t: Transition, action: Action, c: Option<Checkpoint>)
      returns (r: Result<Decision, ErrorCode>)
      modifies store`rows, store.integrity
      ensures Outcome(store.View(), r)
           == Decided(FinalizeTransition(old(store.View()), plan, execution, worker, t), action, c, execution)
    {
      var moved := store.FinalizeExecutionTransition(plan, execution, worker, t);
      if moved.Err? {
        return Err(moved.error);
      }
      r := Ok(Decision(action, if moved.value.Some? then moved.value else c, execution));
    }

    /** Reads only; each question is asked in the order of the source. */
    method DiagnoseStep(plan: ReconPlan, execution: Id, c: Checkpoint, evidence: StepEvidence) returns (r: Diagnosis)
      ensures r == Diagnose(store.integrity.View(), plan, execution, c, evidence)
    {
      hide TooLong, ExecutionRows, DecideRecoveryAction, FactsOf, Blank;
      var t, step := store.integrity, CurrentStep(plan, c);
      var latest := None;
      var persisted := NO_EVIDENCE;
      if step.Some? {
        latest := LatestAttempt(t.attempts, plan.id, execution, step.value.id);
        if !Blank(step.value.id) && !Blank(execution) {
          persisted := evidence;
        }
      }
      var rows := ExecutionRows(t.attempts, plan.id, execution);
      if TooLong(rows, t.now) {
        return Overdue;
      }
      if |rows| >= MAX_EXECUTION_ATTEMPTS {
        return Exhausted;
      }
      var completed := latest.Some? && latest.value.status == AttemptStatus.Completed;
      if persisted.completed && !completed {
        return SnapshotAhead;
      }
      if completed {
        return Finished;
      }
      if latest.Some? && latest.value.status == AttemptStatus.Failed {
        return AfterFailure(DecideRecoveryAction(step.value, Some(FactsOf(latest.value))));
      }
      var running := latest.Some? && latest.value.status == AttemptStatus.Running;
      if running && latest.value.leaseExpiresAt > t.now {
        return LeaseLive;
      }
      if c.cancellationRequested {
        return if running then CancelAttempt(latest.value) else CancelIdle;
      }
      var started := latest.Some? || persisted.started || persisted.pausedForReview || persisted.failed;
      if (started && !persisted.failed) || latest.Some? {
        return Ambiguous;
      }
      r := Untouched;
    }

    method UnsafeReasonNow(plan: ReconPlan, execution: Id, c: Checkpoint) returns (reason: string)
      ensures reason == UnsafeReason(store.integrity.View(), plan, execution, c)
    {
      var step := CurrentStep(plan, c);
      reason := "unsafe_recovery_";
      if step.Some? {
        var latest := LatestAttempt(store.integrity.attempts, plan.id, execution, step.value.id);
        var facts := if latest.Some? then Some(FactsOf(latest.value)) else None;
        reason := reason + ReportedClass(step.value, facts);
      } else {
        reason := reason + "unknown";
      }
    }

    method RunningBranch(plan: ReconPlan, execution: Id, worker: Id, c: Checkpoint, evidence: StepEvidence)
      returns (r: Result<Decision, ErrorCode>)
      modifies store`rows, store.integrity
      ensures Outcome(store.View(), r) == ReconcileRunning(old(store.View()), plan, execution, worker, c, evidence)
    {
      hide QueueReview, FinalizeTransition, Diagnose, FinalizeAttempt, UnsafeReason;
      var step := CurrentStep(plan, c);
      var stepId := if step.Some? then Some(step.value.id) else None;
      var diagnosis := DiagnoseStep(plan, execution, c, evidence);
      match diagnosis
      case Overdue => r := QueueRecoveryReview(plan.id, execution, worker, c, stepId, "execution_duration_exceeded");
      case Exhausted =>
        r := Transit(plan.id, execution, worker,
          Transition(Some(CheckpointStatus.ExecutionAbandoned), KEEP, Some("execution.abandoned"), stepId, true, true),
          Abandon, Some(c));
      case SnapshotAhead => r := QueueRecoveryReview(plan.id, execution, worker, c, stepId, "recovery_snapshot_ledger_mismatch");
      case Finished =>
        var advanced := store.CheckpointAfterStep(plan.id, c.currentStep, |plan.steps|);
        r := Ok(Decision(Continue, Some(if advanced.Ok? then advanced.value else c), execution));
      case AfterFailure(OperatorRecovery) =>
        var reason := UnsafeReasonNow(plan, execution, c);
        r := QueueRecoveryReview(plan.id, execution, worker, c, stepId, reason);
      case AfterFailure(Retry) => r := Ok(Decision(RetryStep, Some(c), execution));
      case AfterFailure(GuardedRetry) => r := Ok(Decision(GuardedRetryStep, Some(c), execution));
      case LeaseLive => r := Ok(Decision(if c.cancellationRequested then CancelPending else Noop, Some(c), execution));
      case CancelAttempt(a) =>
        var cancelled := store.integrity.FinalizeExecutionAttempt(plan.id, execution, a.stepId, a.number, AttemptStatus.Cancelled);
        if cancelled.Err? {
          return Err(cancelled.error);
        }
        r := Transit(plan.id, execution, worker,
          Transition(Some(CheckpointStatus.Cancelled), Overrides(Some(c.currentStep), None), Some("execution.cancelled"),
                     stepId, true, true),
          ReportCancelled, Some(c));
      case CancelIdle =>
        r := Transit(plan.id, execution, worker,
          Transition(Some(CheckpointStatus.Cancelled), Overrides(Some(c.currentStep), None), Some("execution.cancelled"),
                     stepId, true, true),
          ReportCancelled, Some(c));
      case Ambiguous => r := QueueRecoveryReview(plan.id, execution, worker, c, stepId, "recovery_ambiguous");
      case Untouched => r := Ok(Decision(Resume, Some(c), execution));
    }

    method StoppedBranch(plan: ReconPlan, execution: Id, worker: Id, c: Checkpoint)
      returns (r: Result<Decision, ErrorCode>)
      modifies store`rows, store.integrity
      ensures Outcome(store.View(), r) == ReconcileStopped(old(store.View()), plan, execution, worker, c)
    {
      hide QueueReview, FinalizeTransition, ExecutionRows, TooLong;
      var rows := ExecutionRows(store.integrity.attempts, plan.id, execution);
      var step := CurrentStep(plan, c);
      if c.status.Failed? {
        if TooLong(rows, store.integrity.now) {
          r := QueueRecoveryReview(plan.id, execution, worker, c, if step.Some? then Some(step.value.id) else None,
            "execution_duration_exceeded");
          return;
        }
        if |rows| >= MAX_EXECUTION_ATTEMPTS {
          r := Transit(plan.id, execution, worker,
            Transition(Some(CheckpointStatus.ExecutionAbandoned), KEEP, Some("execution.abandoned"), None, true, true),
            Abandon, Some(c));
          return;
        }
      }
      r := Ok(Decision(Halt, Some(c), execution));
    }

    method ChooseAction(plan: ReconPlan, execution: Id, worker: Id, evidence: StepEvidence)
      returns (r: Result<Decision, ErrorCode>)
      modifies store`rows, store.integrity
      ensures Outcome(store.View(), r) == Choose(old(store.View()), plan, execution, worker, evidence)
    {
      hide FinalizeTransition, ReconcileRunning, ReconcileStopped, UnresolvedItems;
      if plan.id !in store.rows {
        return Ok(Decision(DoNothing, None, execution));
      }
      var c := store.rows[plan.id];
      var open := UnresolvedItems(store.integrity.recovery, plan.id);
      if open != [] {
        r := Transit(plan.id, execution, worker,
          Transition(Some(CheckpointStatus.PauseForOperatorRecovery), Indices(c), Some("recovery.pending"), open[0].stepId, true, true),
          PauseForOperator, Some(c));
        return;
      }
      if c.status.Completed? {
        return Ok(Decision(ReportCompleted, Some(c), execution));
      }
      if c.status.Cancelled? {
        r := Transit(plan.id, execution, worker, Transition(None, KEEP, None, None, true, true), ReportCancelled, Some(c));
        return;
      }
      if c.status.Failed? || c.status.Corrupted? || c.status.ExecutionAbandoned? || c.status.PauseForOperatorRecovery? {
        r := StoppedBranch(plan, execution, worker, c);
        return;
      }
      if c.status.Running? {
        r := RunningBranch(plan, execution, worker, c, evidence);
        return;
      }
      if c.cancellationRequested {
        r := Transit(plan.id, execution, worker,
          Transition(Some(CheckpointStatus.Cancelled), Overrides(Some(c.currentStep), None), Some("execution.cancelled"), None,
                     true, true),
          ReportCancelled, Some(c));
        return;
      }
      r := Ok(Decision(Resume, Some(c), execution));
    }

    method ReconcileExecutionState(plan: ReconPlan, worker: Id, s: Surroundings) returns (r: Result<Decision, ErrorCode>)
      modifies store`rows, store.integrity
      ensures Outcome(store.View(), r) == Reconcile(old(store.View()), plan, worker, s)
    {
      hide FinalizeTransition, Choose, Corrupt, ExpiredItems, ResolveExpired;
      if plan.id == "" {
        return Err(InvalidState);
      }
      var t := store.integrity;
      var expired := t.ExpireOperatorRecoveryItems(Some(plan.id));
      if plan.id !in t.locks || t.locks[plan.id].releasedAt.Some? {
        return Err(LockRequired);
      }
      var execution := t.locks[plan.id].executionId;
      var row := if plan.id in store.rows then Some(store.rows[plan.id]) else None;
      if expired != [] {
        var status := if row.Some? then Some(CheckpointStatus.ExecutionAbandoned) else None;
        r := Transit(plan.id, execution, worker,
          Transition(status, KEEP, Some("execution.abandoned"), None, true, false), Abandon, row);
        return;
      }
      var validated := ValidateExecutionIntegrity(plan, s.otherIssues);
      if validated.Err? {
        return Err(validated.error);
      }
      r := ChooseAction(plan, execution, worker, s.evidence);
    }
  }

  // ----- What reconciliation keeps -----

  function LastOf(d: Durable, plan: Id): int {
    if plan in d.checkpoints then d.checkpoints[plan].lastCompleted else -1
  }

  /** A step of the plan was completed by an attempt of the lock holder. */
  predicate CompletedByHolder(t: Tables, plan: ReconPlan, step: int) {
    && IsLocked(t, plan.id) && 0 <= step < |plan.steps|
    && exists a :: a in t.attempts && OfStep(a, plan.id, t.locks[plan.id].executionId, plan.steps[step].id)
                && a.status == AttemptStatus.Completed
  }

  lemma TransitionKeepsProgress(d: Durable, plan: Id, execution: Id, worker: Id, t: Transition)
    requires t.overrides.lastCompleted == None || t.overrides.lastCompleted == Some(LastOf(d, plan))
    ensures LastOf(FinalizeTransition(d, plan, execution, worker, t).durable, plan) == LastOf(d, plan)
  {
  }

  lemma QueueKeepsProgress(d: Durable, plan: Id, execution: Id, worker: Id, c: Checkpoint, step: Option<Id>, reason: string)
    requires plan in d.checkpoints && d.checkpoints[plan] == c
    ensures LastOf(QueueReview(d, plan, execution, worker, c, step, reason).durable, plan) == LastOf(d, plan)
  {
    hide FinalizeTransition;
    var queued := EnqueueRecovery(d.tables, plan, execution, step, reason, StatusName(c.status), OPERATOR_RECOVERY_TTL_MS);
    TransitionKeepsProgress(d.(tables := queued.tables), plan, execution, worker,
      Transition(Some(CheckpointStatus.PauseForOperatorRecovery), Indices(c), Some("recovery.ambiguous"), step, true, true));
  }

  /** What each diagnosis says about the latest attempt of the current step. */
  lemma DiagnosisFacts(t: Tables, plan: ReconPlan, execution: Id, c: Checkpoint, evidence: StepEvidence)
    requires 0 <= c.currentStep < |plan.steps|
    ensures var latest := LatestAttempt(t.attempts, plan.id, execution, plan.steps[c.currentStep].id);
            var diagnosis := Diagnose(t, plan, execution, c, evidence);
      && (diagnosis.Finished? ==> latest.Some? && latest.value.status == AttemptStatus.Completed)
      && (diagnosis.AfterFailure? ==> latest.Some? && latest.value.status == AttemptStatus.Failed)
      && (diagnosis.AfterFailure? ==>
            diagnosis.decision == DecideRecoveryAction(plan.steps[c.currentStep], Some(FactsOf(latest.value))))
      && (diagnosis.LeaseLive? ==> latest.Some? && latest.value.status == AttemptStatus.Running && latest.value.leaseExpiresAt > t.now)
      && (diagnosis.CancelAttempt? ==> latest == Some(diagnosis.attempt) && diagnosis.attempt.status == AttemptStatus.Running)
      && (diagnosis.Untouched? ==> latest.None?)
  {
    hide DecideRecoveryAction, TooLong, ExecutionRows, Blank, LatestAttempt, FactsOf;
  }

  lemma CancelKeepsProgress(d: Durable, plan: Id, execution: Id, worker: Id, c: Checkpoint, step: Option<Id>, a: Attempt)
    requires plan in d.checkpoints && d.checkpoints[plan] == c
    ensures var cancelled := FinalizeAttempt(d.tables, plan, execution, a.stepId, a.number, AttemptStatus.Cancelled);
      LastOf(CancelExecution(d.(tables := cancelled.tables), plan, execution, worker, c, step).durable, plan) == c.lastCompleted
    ensures LastOf(CancelExecution(d, plan, execution, worker, c, step).durable, plan) == c.lastCompleted
  {
    hide FinalizeTransition, FinalizeAttempt;
    var cancelled := FinalizeAttempt(d.tables, plan, execution, a.stepId, a.number, AttemptStatus.Cancelled);
    var cancel := Transition(Some(CheckpointStatus.Cancelled), Overrides(Some(c.currentStep), None), Some("execution.cancelled"), step, true, true);
    TransitionKeepsProgress(d, plan, execution, worker, cancel);
    TransitionKeepsProgress(d.(tables := cancelled.tables), plan, execution, worker, cancel);
  }

  lemma FinishedByHolder(t: Tables, plan: ReconPlan, execution: Id, c: Checkpoint, evidence: StepEvidence)
    requires HeldBy(t, plan.id, execution) && Diagnose(t, plan, execution, c, evidence).Finished?
    ensures CompletedByHolder(t, plan, c.currentStep)
  {
    if 0 <= c.currentStep < |plan.steps| {
      DiagnosisFacts(t, plan, execution, c, evidence);
    }
  }

  /** The running branch moves progress only over a completed attempt of the current step. */
  lemma RunningProgress(d: Durable, plan: ReconPlan, execution: Id, worker: Id, c: Checkpoint, evidence: StepEvidence)
    requires plan.id in d.checkpoints && d.checkpoints[plan.id] == c
    requires HeldBy(d.tables, plan.id, execution)
    ensures var r := ReconcileRunning(d, plan, execution, worker, c, evidence);
      && (r.result.Ok? ==> !r.result.value.action.ReportCompleted? && !r.result.value.action.Halt?)
      && (LastOf(r.durable, plan.id) == c.lastCompleted
          || (LastOf(r.durable, plan.id) == c.currentStep && CompletedByHolder(d.tables, plan, c.currentStep)
              && r.result.Ok? && r.result.value.action.Continue?))
  {
    hide FinalizeTransition, QueueReview, Diagnose, FinalizeAttempt, CompletedByHolder, UnsafeReason, CancelExecution;
    var step := CurrentStep(plan, c);
    var stepId := match step case Some(s) => Some(s.id) case None => None;
    match Diagnose(d.tables, plan, execution, c, evidence)
    case Overdue => QueueKeeps(d, plan.id, execution, worker, c, stepId, "execution_duration_exceeded");
    case Exhausted => TransitionKeepsProgress(d, plan.id, execution, worker,
      Transition(Some(CheckpointStatus.ExecutionAbandoned), KEEP, Some("execution.abandoned"), stepId, true, true));
    case SnapshotAhead => QueueKeeps(d, plan.id, execution, worker, c, stepId, "recovery_snapshot_ledger_mismatch");
    case Finished => FinishedByHolder(d.tables, plan, execution, c, evidence);
    case AfterFailure(_) => QueueKeeps(d, plan.id, execution, worker, c, stepId, UnsafeReason(d.tables, plan, execution, c));
    case CancelAttempt(a) =>
      CancelKeepsProgress(d, plan.id, execution, worker, c, stepId, a);
      CancelReports(d, plan.id, execution, worker, c, stepId, a);
    case CancelIdle =>
      var any := Attempt("", "", "", 0, AttemptStatus.Running, Unknown, None, "", 0, 0, 0, 0, None);
      CancelKeepsProgress(d, plan.id, execution, worker, c, stepId, any);
      CancelReports(d, plan.id, execution, worker, c, stepId, any);
    case Ambiguous => QueueKeeps(d, plan.id, execution, worker, c, stepId, "recovery_ambiguous");
    case _ =>
  }

  lemma CancelReports(d: Durable, plan: Id, execution: Id, worker: Id, c: Checkpoint, step: Option<Id>, a: Attempt)
    ensures var cancelled := FinalizeAttempt(d.tables, plan, execution, a.stepId, a.number, AttemptStatus.Cancelled);
            var r := CancelExecution(d.(tables := cancelled.tables), plan, execution, worker, c, step);
      r.result.Ok? ==> r.result.value.action.ReportCancelled?
    ensures var r := CancelExecution(d, plan, execution, worker, c, step);
      r.result.Ok? ==> r.result.value.action.ReportCancelled?
  {
    hide FinalizeTransition, FinalizeAttempt;
  }

  lemma QueueKeeps(d: Durable, plan: Id, execution: Id, worker: Id, c: Checkpoint, step: Option<Id>, reason: string)
    requires plan in d.checkpoints && d.checkpoints[plan] == c
    ensures var r := QueueReview(d, plan, execution, worker, c, step, reason);
      LastOf(r.durable, plan) == c.lastCompleted && (r.result.Ok? ==> r.result.value.action.PauseForOperator?)
  {
    QueueKeepsProgress(d, plan, execution, worker, c, step, reason);
    QueueNeverHalts(d, plan, execution, worker, c, step, reason);
  }

  lemma QueueNeverHalts(d: Durable, plan: Id, execution: Id, worker: Id, c: Checkpoint, step: Option<Id>, reason: string)
    ensures var r := QueueReview(d, plan, execution, worker, c, step, reason);
      r.result.Ok? ==> r.result.value.action.PauseForOperator?
  {
  }

  /** Reconciliation never lowers the progress of a plan, and moves it only to the current step, only when the lock
      holder completed an attempt of that step; and it never answers "completed" or "halt". */
  lemma ReconciliationIsMonotone(d: Durable, plan: ReconPlan, worker: Id, s: Surroundings)
    ensures var r := Reconcile(d, plan, worker, s);
            var before, after := LastOf(d, plan.id), LastOf(r.durable, plan.id);
      && after >= before
      && (after != before ==>
            plan.id in d.checkpoints && d.checkpoints[plan.id].status == CheckpointStatus.Running
            && after == d.checkpoints[plan.id].currentStep
            && CompletedByHolder(d.tables, plan, after)
            && r.result.Ok? && r.result.value.action.Continue?)
      && (r.result.Ok? ==> !r.result.value.action.ReportCompleted? && !r.result.value.action.Halt?)
  {
    hide FinalizeTransition, ReconcileRunning, ReconcileStopped, AttemptsConsistent, ExpiredItems, ResolveExpired;
    if plan.id != "" {
      var swept := Expire(d, plan.id);
      assert swept.checkpoints == d.checkpoints && swept.tables.locks == d.tables.locks && swept.tables.attempts == d.tables.attempts;
      if IsLocked(swept.tables, plan.id) {
        var execution := swept.tables.locks[plan.id].executionId;
        var status := if plan.id in swept.checkpoints then Some(CheckpointStatus.ExecutionAbandoned) else None;
        TransitionKeepsProgress(swept, plan.id, execution, worker,
          Transition(status, KEEP, Some("execution.abandoned"), None, true, false));
        var again := Expire(swept, plan.id);
        if !Blank(plan.id) && !Corrupt(again, plan, s.otherIssues) {
          ChoiceIsMonotone(again, plan, execution, worker, s);
        }
      }
    }
  }

  lemma ChoiceIsMonotone(d: Durable, plan: ReconPlan, execution: Id, worker: Id, s: Surroundings)
    requires !ViewsDisagree(d, plan) && HeldBy(d.tables, plan.id, execution)
    ensures var r := Choose(d, plan, execution, worker, s.evidence);
            var before, after := LastOf(d, plan.id), LastOf(r.durable, plan.id);
      && after >= before
      && (after != before ==>
            plan.id in d.checkpoints && d.checkpoints[plan.id].status == CheckpointStatus.Running
            && after == d.checkpoints[plan.id].currentStep
            && CompletedByHolder(d.tables, plan, after)
            && r.result.Ok? && r.result.value.action.Continue?)
      && (r.result.Ok? ==> !r.result.value.action.ReportCompleted? && !r.result.value.action.Halt?)
  {
    hide FinalizeTransition, ReconcileRunning, ReconcileStopped;
    if plan.id in d.checkpoints {
      var c := d.checkpoints[plan.id];
      var open := UnresolvedItems(d.tables.recovery, plan.id);
      if open != [] {
        TransitionKeepsProgress(d, plan.id, execution, worker,
          Transition(Some(CheckpointStatus.PauseForOperatorRecovery), Indices(c), Some("recovery.pending"), open[0].stepId, true, true));
      } else if c.status == CheckpointStatus.Running {
        RunningProgress(d, plan, execution, worker, c, s.evidence);
      } else if c.cancellationRequested {
        TransitionKeepsProgress(d, plan.id, execution, worker,
          Transition(Some(CheckpointStatus.Cancelled), Overrides(Some(c.currentStep), None), Some("execution.cancelled"), None, true, true));
      }
    }
  }

  /** A checkpoint in good order: progress and position within the plan, the position past the progress unless the plan is over,
      no lock once it is over, and an open item in the queue while it waits for an operator. */
  predicate InGoodOrder(d: Durable, plan: ReconPlan) {
    plan.id in d.checkpoints ==>
      var c := d.checkpoints[plan.id];
      var over := c.status in {CheckpointStatus.Completed, CheckpointStatus.Cancelled, CheckpointStatus.Failed,
                               CheckpointStatus.ExecutionAbandoned, CheckpointStatus.Corrupted};
      && -1 <= c.lastCompleted < |plan.steps| && 0 <= c.currentStep <= |plan.steps|
      && (!over ==> c.lastCompleted < c.currentStep)
      && (over ==> !(plan.id in d.tables.locks && d.tables.locks[plan.id].releasedAt.None?))
      && (c.status.PauseForOperatorRecovery? ==>
            exists item :: item in d.tables.recovery && item.planId == plan.id && item.resolvedAt.None? && item.expiresAtMs > d.tables.now)
  }

  /** A validation succeeds exactly when the checkpoint is in good order and no other check complains; otherwise it calls the
      checkpoint corrupted, where there is one, and leaves progress and position as they are. */
  lemma ValidatesGoodOrderExactly(d: Durable, plan: ReconPlan, otherIssues: bool)
    requires !Blank(plan.id)
    ensures var v := Validate(d, plan, otherIssues);
      && (v.result.Ok? <==> InGoodOrder(d, plan) && !otherIssues && AttemptsConsistent(Expire(d, plan.id).tables, plan.id))
      && (v.result.Ok? ==> v.durable.checkpoints == d.checkpoints)
      && (v.result.Err? && plan.id in d.checkpoints ==>
            v.durable.checkpoints == d.checkpoints[plan.id :=
              d.checkpoints[plan.id].(status := CheckpointStatus.Corrupted, updatedAt := d.tables.now)])
      && v.durable.tables.locks == d.tables.locks && v.durable.tables.attempts == d.tables.attempts
  {
    NothingOpenOnceExpired(d.tables.recovery, plan.id, d.tables.now);
    hide AttemptsConsistent, UnresolvedItems, ResolveExpired, ExpiredItems;
    assert AllExpired(d.tables.recovery, plan.id, d.tables.now) <==>
      !exists item :: item in d.tables.recovery && item.planId == plan.id && item.resolvedAt.None? && item.expiresAtMs > d.tables.now;
  }

  /** A validation calls a pause for an operator corrupted exactly when none of its items is still open in time, or when
      something else is wrong; it throws the expiry itself away. */
  lemma PauseIsCalledCorruptedExactly(d: Durable, plan: ReconPlan, otherIssues: bool)
    requires !Blank(plan.id) && plan.id in d.checkpoints
    requires d.checkpoints[plan.id].status == CheckpointStatus.PauseForOperatorRecovery
    ensures var v := Validate(d, plan, otherIssues);
      && (v.result.Err? <==>
            || AllExpired(d.tables.recovery, plan.id, d.tables.now)
            || otherIssues || !AttemptsConsistent(Expire(d, plan.id).tables, plan.id)
            || CheckpointIssues(d.checkpoints[plan.id], |plan.steps|))
      && (v.result.Err? ==>
            v.result == Err(ErrorCode.Corrupted) && v.durable.checkpoints[plan.id].status == CheckpointStatus.Corrupted)
  {
    hide AttemptsConsistent, CheckpointIssues;
    NothingOpenOnceExpired(d.tables.recovery, plan.id, d.tables.now);
  }

  /** Every unresolved item of the plan has run out of time. */
  predicate AllExpired(items: seq<RecoveryItem>, plan: Id, now: nat) {
    forall item :: item in items && Unresolved(item, plan) ==> item.expiresAtMs <= now
  }

  lemma {:induction false} NothingOpenOnceExpired(items: seq<RecoveryItem>, plan: Id, now: nat)
    ensures UnresolvedItems(ResolveExpired(items, Some(plan), now), plan) == [] <==> AllExpired(items, plan, now)
  {
    if items != [] {
      var resolved := ResolveExpired(items, Some(plan), now);
      assert items == Init(items) + [Last(items)] && Last(items) in items;
      assert Init(resolved) == ResolveExpired(Init(items), Some(plan), now);
      NothingOpenOnceExpired(Init(items), plan, now);
      assert Unresolved(Last(resolved), plan) <==> Unresolved(Last(items), plan) && Last(items).expiresAtMs > now;
    }
  }

  /** The state some time later, read by the next transaction. */
  function Later(d: Durable, ms: nat): Durable {
    d.(tables := d.tables.(now := d.tables.now + ms))
  }

  /** The time of an open item of the plan falls between two readings of the clock. */
  predicate RunsOutBetween(items: seq<RecoveryItem>, plan: Id, earlier: nat, later: nat) {
    exists item :: item in items && Unresolved(item, plan) && earlier < item.expiresAtMs <= later
  }

  /** A validation resolves what has expired by then, so a later reading finds expired exactly what ran out in between. */
  lemma ExpiredSinceValidationExactly(d: Durable, plan: ReconPlan, otherIssues: bool, ms: nat)
    requires Validate(d, plan, otherIssues).result.Ok?
    ensures ExpireRecovery(Later(Validate(d, plan, otherIssues).durable, ms).tables, Some(plan.id)).result.value != [] <==>
            RunsOutBetween(d.tables.recovery, plan.id, d.tables.now, d.tables.now + ms)
  {
    var items, now := d.tables.recovery, d.tables.now;
    var resolved := ResolveExpired(items, Some(plan.id), now);
    var found := ExpiredItems(resolved, Some(plan.id), now + ms);
    assert Validate(d, plan, otherIssues).durable.tables.recovery == resolved by { hide Corrupt; }
    if found != [] {
      assert found[0] in found;
      var i :| 0 <= i < |resolved| && resolved[i] == found[0];
      assert items[i] in items;
    }
    if item :| item in items && Unresolved(item, plan.id) && now < item.expiresAtMs <= now + ms {
      var i :| 0 <= i < |items| && items[i] == item;
      assert resolved[i] in resolved;
      assert resolved[i] in found;
    }
    hide Corrupt, ResolveExpired, ExpiredItems;
  }

  /** A pause for an operator that was just validated is abandoned by the reconciliation that follows exactly when the time of
      one of its open items runs out between the two transactions. */
  lemma ValidatedPauseIsAbandonedExactly(d: Durable, plan: ReconPlan, otherIssues: bool, ms: nat, worker: Id, s: Surroundings)
    requires plan.id in d.checkpoints && d.checkpoints[plan.id].status.PauseForOperatorRecovery? && IsLocked(d.tables, plan.id)
    requires Validate(d, plan, otherIssues).result.Ok?
    ensures var r := Reconcile(Later(Validate(d, plan, otherIssues).durable, ms), plan, worker, s).result;
      r.Ok? && r.value.action.Abandon? <==> RunsOutBetween(d.tables.recovery, plan.id, d.tables.now, d.tables.now + ms)
  {
    ExpiredSinceValidationExactly(d, plan, otherIssues, ms);
    hide RunsOutBetween;
    var d' := Later(Validate(d, plan, otherIssues).durable, ms);
    assert plan.id in d'.checkpoints && d'.checkpoints[plan.id] == d.checkpoints[plan.id] && d'.tables.locks == d.tables.locks;
    if ExpireRecovery(d'.tables, Some(plan.id)).result.value != [] {
      AbandonedUnderLock(d', plan, worker, s);
    } else {
      OpenPauseIsNotAbandoned(d', plan, worker, s);
    }
  }

  lemma OpenPauseIsNotAbandoned(d: Durable, plan: ReconPlan, worker: Id, s: Surroundings)
    requires plan.id in d.checkpoints && d.checkpoints[plan.id].status.PauseForOperatorRecovery?
    requires ExpireRecovery(d.tables, Some(plan.id)).result.value == []
    ensures var r := Reconcile(d, plan, worker, s).result; r.Ok? ==> !r.value.action.Abandon?
  {
    hide AttemptsConsistent, CheckpointIssues, FinalizeTransition, ExpiredItems, ResolveExpired;
  }

  lemma AbandonedUnderLock(d: Durable, plan: ReconPlan, worker: Id, s: Surroundings)
    requires plan.id != "" && plan.id in d.checkpoints && IsLocked(d.tables, plan.id)
    requires ExpireRecovery(d.tables, Some(plan.id)).result.value != []
    ensures var r := Reconcile(d, plan, worker, s);
      && r.result.Ok? && r.result.value.action.Abandon?
      && r.durable.checkpoints[plan.id].status == CheckpointStatus.ExecutionAbandoned
      && !IsLocked(r.durable.tables, plan.id)
  {
    hide ExpiredItems, ResolveExpired;
  }

  lemma ExpiredPauseIsAbandonedUnderLock(d: Durable, plan: ReconPlan, worker: Id, s: Surroundings)
    requires plan.id != "" && plan.id in d.checkpoints && IsLocked(d.tables, plan.id)
    requires exists item :: item in d.tables.recovery && Expired(item, Some(plan.id), d.tables.now)
    ensures var r := Reconcile(d, plan, worker, s);
      && r.result.Ok? && r.result.value.action.Abandon?
      && r.durable.checkpoints[plan.id].status == CheckpointStatus.ExecutionAbandoned
      && !IsLocked(r.durable.tables, plan.id)
  {
    var expired := ExpireRecovery(d.tables, Some(plan.id)).result.value;
    var item :| item in d.tables.recovery && Expired(item, Some(plan.id), d.tables.now);
    assert item in expired;
    AbandonedUnderLock(d, plan, worker, s);
  }
}
