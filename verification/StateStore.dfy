/** The checkpoint half of services/executionStateStore.js. */
module StateStore {
  import opened Common
  import opened ExecutionTables
  import opened Normalisers
  import IntegrityStore

  datatype CheckpointStatus =
    | Pending | Running | Paused | AwaitingReview | PauseForOperatorRecovery
    | Completed | Cancelled | Failed | ExecutionAbandoned | Corrupted

  /** A row of `execution_state`. */
  datatype Checkpoint = Checkpoint(
    currentStep: int, status: CheckpointStatus, lastCompleted: int, cancellationRequested: bool, updatedAt: nat)

  /** Everything that survives a crash: the tables of the integrity store and the checkpoint rows. */
  datatype Durable = Durable(tables: Tables, checkpoints: map<Id, Checkpoint>)

  datatype Outcome<T> = Outcome(durable: Durable, result: Result<T, ErrorCode>)

  predicate Terminal(status: CheckpointStatus) {
    status.Completed? || status.Cancelled? || status.Failed? || status.ExecutionAbandoned? || status.Corrupted?
  }

  // ----- What each operation does -----

  function Write(d: Durable, plan: Id, row: Checkpoint): Outcome<Checkpoint> {
    Outcome(d.(checkpoints := d.checkpoints[plan := row]), Ok(row))
  }

  /** Every update refuses a missing row and stamps the one it writes. */
  function Update(d: Durable, plan: Id, change: Checkpoint -> Checkpoint): Outcome<Checkpoint> {
    if plan !in d.checkpoints then Outcome(d, Err(NotFound))
    else Write(d, plan, change(d.checkpoints[plan]).(updatedAt := d.tables.now))
  }

  function Start(d: Durable, plan: Id): Outcome<Checkpoint> {
    if plan == "" then Outcome(d, Err(InvalidState))
    else if plan in d.checkpoints then Outcome(d, Err(ExecutionAlreadyExists))
    else Write(d, plan, Checkpoint(0, CheckpointStatus.Pending, -1, false, d.tables.now))
  }

  function BeforeStep(d: Durable, plan: Id, step: int): Outcome<Checkpoint> {
    Update(d, plan, (c: Checkpoint) => c.(currentStep := step, status := CheckpointStatus.Running))
  }

  function AfterStep(d: Durable, plan: Id, step: int, total: int): Outcome<Checkpoint> {
    var status := if step + 1 >= total then CheckpointStatus.Completed else CheckpointStatus.Running;
    Update(d, plan, (c: Checkpoint) => c.(currentStep := step + 1, lastCompleted := step, status := status))
  }

  function FailStep(d: Durable, plan: Id, step: int): Outcome<Checkpoint> {
    Update(d, plan, (c: Checkpoint) => c.(currentStep := step, status := CheckpointStatus.Failed))
  }

  function AwaitReview(d: Durable, plan: Id, step: int): Outcome<Checkpoint> {
    Update(d, plan, (c: Checkpoint) => c.(currentStep := step, status := CheckpointStatus.AwaitingReview))
  }

  function RequestCancellation(d: Durable, plan: Id): Outcome<Checkpoint> {
    Update(d, plan, (c: Checkpoint) => c.(cancellationRequested := true))
  }

  /** Index overrides; `None` keeps the stored value. */
  datatype Overrides = Overrides(currentStep: Option<int>, lastCompleted: Option<int>)

  const KEEP := Overrides(None, None)

  function Overridden(c: Checkpoint, o: Overrides, status: CheckpointStatus): Checkpoint {
    c.(currentStep := if o.currentStep.Some? then o.currentStep.value else c.currentStep,
       lastCompleted := if o.lastCompleted.Some? then o.lastCompleted.value else c.lastCompleted,
       status := status)
  }

  function SetStatus(d: Durable, plan: Id, status: CheckpointStatus, o: Overrides): Outcome<Checkpoint> {
    Update(d, plan, (c: Checkpoint) => Overridden(c, o, status))
  }

  datatype Transition = Transition(
    status: Option<CheckpointStatus>, overrides: Overrides, event: Option<string>, step: Option<Id>,
    releaseLock: bool, requireCheckpoint: bool)

  /** The writes of `finalizeExecutionTransition` up to the release of the lock. */
  function Transitioned(d: Durable, plan: Id, execution: Id, t: Transition): Durable {
    var rows :=
      if t.status.Some? && plan in d.checkpoints then
        d.checkpoints[plan := Overridden(d.checkpoints[plan], t.overrides, t.status.value).(updatedAt := d.tables.now)]
      else d.checkpoints;
    var tables :=
      if t.event.None? then d.tables
      else Append(d.tables, Event(plan, Some(execution), t.step, None, Lifecycle(t.event.value), d.tables.now));
    Durable(tables, rows)
  }

  function Row(d: Durable, plan: Id): Option<Checkpoint> {
    if plan in d.checkpoints then Some(d.checkpoints[plan]) else None
  }

  /** A missing checkpoint is a returned failure; a failed release is thrown and undoes everything. */
  function FinalizeTransition(d: Durable, plan: Id, execution: Id, worker: Id, t: Transition): Outcome<Option<Checkpoint>> {
    if plan !in d.checkpoints && t.requireCheckpoint then Outcome(d, Err(NotFound))
    else
      var written := Transitioned(d, plan, execution, t);
      if !t.releaseLock then Outcome(written, Ok(Row(written, plan)))
      else
        var released := ReleaseTx(written.tables, plan, execution, worker);
        if released.result.Err? then Outcome(d, Err(released.result.error))
        else Outcome(written.(tables := released.tables), Ok(Row(written, plan)))
  }

  datatype Recovered = Recovered(checkpoint: Checkpoint, nextStep: int, shouldExecute: bool, completed: bool, interrupted: bool)

  /** `recoverExecutionState`: where the loop may pick up again. */
  function RecoverState(d: Durable, plan: StatePlan): Outcome<Recovered> {
    if plan.id == "" then Outcome(d, Err(InvalidState))
    else if plan.id !in d.checkpoints then Outcome(d, Err(NotFound))
    else
      var c, total := d.checkpoints[plan.id], |plan.steps|;
      if c.lastCompleted >= total then Outcome(d, Err(CheckpointInvalid))
      else if total == 0 || c.lastCompleted + 1 >= total then
        var done := c.(status := CheckpointStatus.Completed, currentStep := total, updatedAt := d.tables.now);
        Outcome(Write(d, plan.id, done).durable, Ok(Recovered(done, total, false, true, false)))
      else if c.status.Completed? then Outcome(d, Ok(Recovered(c, total, false, true, false)))
      else if c.status.Failed? then Outcome(d, Err(InvalidState))
      else if c.status.Running? then
        if c.currentStep < 0 || c.currentStep >= total then Outcome(d, Err(CheckpointInvalid))
        else if plan.steps[c.currentStep].idempotent then Outcome(d, Ok(Recovered(c, c.currentStep, true, false, true)))
        else
          var review := c.(status := CheckpointStatus.AwaitingReview, updatedAt := d.tables.now);
          Outcome(Write(d, plan.id, review).durable, Err(ManualReviewRequired))
      else if c.lastCompleted + 1 < 0 then Outcome(d, Err(CheckpointInvalid))
      else Outcome(d, Ok(Recovered(c, c.lastCompleted + 1, true, false, false)))
  }

  // ----- The store -----

  class CheckpointStore {
    const integrity: IntegrityStore.Store
    var rows: map<Id, Checkpoint>

    ghost function View(): Durable
      reads this, integrity
    {
      Durable(integrity.View(), rows)
    }

    constructor (integrity: IntegrityStore.Store)
      ensures this.integrity == integrity && View() == Durable(integrity.View(), map[])
    {
      this.integrity := integrity;
      rows := map[];
    }

    method StartExecutionState(plan: StatePlan) returns (r: Result<Checkpoint, ErrorCode>)
      modifies `rows
      ensures Outcome(View(), r) == Start(old(View()), plan.id)
      ensures r.Ok? <==> plan.id != "" && plan.id !in old(rows)
      ensures if r.Ok? then rows == old(rows)[plan.id := Checkpoint(0, CheckpointStatus.Pending, -1, false, integrity.now)] else rows == old(rows)
    {
      if plan.id == "" {
        return Err(InvalidState);
      }
      if plan.id in rows {
        return Err(ExecutionAlreadyExists);
      }
      var row := Checkpoint(0, CheckpointStatus.Pending, -1, false, integrity.now);
      rows := rows[plan.id := row];
      r := Ok(row);
    }

    method CheckpointBeforeStep(plan: Id, step: int) returns (r: Result<Checkpoint, ErrorCode>)
      modifies `rows
      ensures Outcome(View(), r) == BeforeStep(old(View()), plan, step)
      ensures r.Ok? <==> plan in old(rows)
      ensures r.Err? ==> rows == old(rows)
      ensures r.Ok? ==> rows == old(rows)[plan := r.value] && r.value.status.Running? && r.value.currentStep == step
                        && r.value.lastCompleted == old(rows)[plan].lastCompleted
                        && r.value.cancellationRequested == old(rows)[plan].cancellationRequested
    {
      if plan !in rows {
        return Err(NotFound);
      }
      var row := rows[plan].(currentStep := step, status := CheckpointStatus.Running, updatedAt := integrity.now);
      rows := rows[plan := row];
      r := Ok(row);
    }

    method CheckpointAfterStep(plan: Id, step: int, total: int) returns (r: Result<Checkpoint, ErrorCode>)
      modifies `rows
      ensures Outcome(View(), r) == AfterStep(old(View()), plan, step, total)
      ensures r.Ok? <==> plan in old(rows)
      ensures r.Err? ==> rows == old(rows)
      ensures r.Ok? ==> rows == old(rows)[plan := r.value] && r.value.currentStep == step + 1 && r.value.lastCompleted == step
                        && r.value.cancellationRequested == old(rows)[plan].cancellationRequested
                        && if step + 1 < total then r.value.status.Running? else r.value.status.Completed?
    {
      if plan !in rows {
        return Err(NotFound);
      }
      var completed := step + 1 >= total;
      var row := rows[plan].(
        currentStep := step + 1, lastCompleted := step,
        status := if completed then CheckpointStatus.Completed else CheckpointStatus.Running,
        updatedAt := integrity.now);
      rows := rows[plan := row];
      r := Ok(row);
    }

    method FailExecutionCheckpoint(plan: Id, step: int) returns (r: Result<Checkpoint, ErrorCode>)
      modifies `rows
      ensures Outcome(View(), r) == FailStep(old(View()), plan, step)
      ensures r.Ok? <==> plan in old(rows)
      ensures r.Err? ==> rows == old(rows)
      ensures r.Ok? ==> rows == old(rows)[plan := r.value] && r.value.status.Failed? && r.value.currentStep == step
                        && r.value.lastCompleted == old(rows)[plan].lastCompleted
                        && r.value.cancellationRequested == old(rows)[plan].cancellationRequested
    {
      if plan !in rows {
        return Err(NotFound);
      }
      var row := rows[plan].(currentStep := step, status := CheckpointStatus.Failed, updatedAt := integrity.now);
      rows := rows[plan := row];
      r := Ok(row);
    }

    method MarkAwaitingReview(plan: Id, step: int) returns (r: Result<Checkpoint, ErrorCode>)
      modifies `rows
      ensures Outcome(View(), r) == AwaitReview(old(View()), plan, step)
      ensures r.Ok? <==> plan in old(rows)
      ensures r.Err? ==> rows == old(rows)
      ensures r.Ok? ==> rows == old(rows)[plan := r.value] && r.value.status.AwaitingReview? && r.value.currentStep == step
                        && r.value.lastCompleted == old(rows)[plan].lastCompleted
                        && r.value.cancellationRequested == old(rows)[plan].cancellationRequested
    {
      if plan !in rows {
        return Err(NotFound);
      }
      var row := rows[plan].(currentStep := step, status := CheckpointStatus.AwaitingReview, updatedAt := integrity.now);
      rows := rows[plan := row];
      r := Ok(row);
    }

    method SetExecutionCheckpointStatus(plan: Id, status: CheckpointStatus, overrides: Overrides)
      returns (r: Result<Checkpoint, ErrorCode>)
      modifies `rows
      ensures Outcome(View(), r) == SetStatus(old(View()), plan, status, overrides)
      ensures r.Ok? <==> plan in old(rows)
      ensures r.Err? ==> rows == old(rows)
      ensures r.Ok? ==> rows == old(rows)[plan := r.value] && r.value.status == status
                        && r.value.cancellationRequested == old(rows)[plan].cancellationRequested
                        && (overrides.currentStep.None? ==> r.value.currentStep == old(rows)[plan].currentStep)
                        && (overrides.currentStep.Some? ==> r.value.currentStep == overrides.currentStep.value)
                        && (overrides.lastCompleted.None? ==> r.value.lastCompleted == old(rows)[plan].lastCompleted)
                        && (overrides.lastCompleted.Some? ==> r.value.lastCompleted == overrides.lastCompleted.value)
    {
      if plan !in rows {
        return Err(NotFound);
      }
      var row := rows[plan].(status := status, updatedAt := integrity.now);
      if overrides.currentStep.Some? {
        row := row.(currentStep := overrides.currentStep.value);
      }
      if overrides.lastCompleted.Some? {
        row := row.(lastCompleted := overrides.lastCompleted.value);
      }
      rows := rows[plan := row];
      r := Ok(row);
    }

    method RequestExecutionCancellation(plan: Id) returns (r: Result<Checkpoint, ErrorCode>)
      modifies `rows
      ensures Outcome(View(), r) == RequestCancellation(old(View()), plan)
      ensures if plan in old(rows)
              then rows == old(rows)[plan := old(rows)[plan].(cancellationRequested := true, updatedAt := integrity.now)] else rows == old(rows)
    {
      if plan !in rows {
        return Err(NotFound);
      }
      var row := rows[plan].(cancellationRequested := true, updatedAt := integrity.now);
      rows := rows[plan := row];
      r := Ok(row);
    }

    /** One transaction: the checkpoint and the event are written first and rolled back if the release is refused. */
    method FinalizeExecutionTransition(plan: Id, execution: Id, worker: Id, t: Transition)
      returns (r: Result<Option<Checkpoint>, ErrorCode>)
      modifies `rows, integrity
      ensures Outcome(View(), r) == FinalizeTransition(old(View()), plan, execution, worker, t)
      ensures r.Ok? <==> (plan in old(rows) || !t.requireCheckpoint)
                         && (t.releaseLock ==> plan in old(integrity.locks) && old(integrity.locks)[plan].executionId == execution)
      ensures r.Err? ==> View() == old(View())
      ensures t.status.None? || plan !in old(rows) ==> rows == old(rows)
      ensures r.Ok? && t.status.Some? && plan in old(rows) ==>
        && rows == old(rows)[plan := rows[plan]] && rows[plan].status == t.status.value
        && rows[plan].cancellationRequested == old(rows)[plan].cancellationRequested
        && rows[plan].currentStep == (if t.overrides.currentStep.Some? then t.overrides.currentStep.value else old(rows)[plan].currentStep)
        && rows[plan].lastCompleted == (if t.overrides.lastCompleted.Some? then t.overrides.lastCompleted.value else old(rows)[plan].lastCompleted)
      ensures r.Ok? && t.releaseLock ==> plan in integrity.locks && integrity.locks[plan].releasedAt == Some(integrity.now)
      ensures r.Ok? && !t.releaseLock ==> integrity.locks == old(integrity.locks)
      ensures r.Ok? && t.event.Some? ==>
        |integrity.ledger| > |old(integrity.ledger)|
        && integrity.ledger[|old(integrity.ledger)|] == Event(plan, Some(execution), t.step, None, Lifecycle(t.event.value), integrity.now)
    {
      if plan !in rows && t.requireCheckpoint {
        return Err(NotFound);
      }
      var savedRows, savedLedger := rows, integrity.ledger;
      var next := if plan in rows then Some(rows[plan]) else None;
      if t.status.Some? && plan in rows {
        var written := SetExecutionCheckpointStatus(plan, t.status.value, t.overrides);
        next := Some(written.value);
      }
      if t.event.Some? {
        integrity.AppendLedgerEvent(Event(plan, Some(execution), t.step, None, Lifecycle(t.event.value), integrity.now));
      }
      if t.releaseLock {
        var released := integrity.ReleaseExecutionLockTx(plan, execution, worker);
        if released.Err? {
          rows, integrity.ledger := savedRows, savedLedger;
          return Err(released.error);
        }
      }
      r := Ok(next);
    }

    method RecoverExecutionState(plan: StatePlan) returns (r: Result<Recovered, ErrorCode>)
      modifies `rows
      ensures Outcome(View(), r) == RecoverState(old(View()), plan)
      ensures r.Ok? && r.value.completed ==> !r.value.shouldExecute && !r.value.interrupted && r.value.nextStep == |plan.steps|
      ensures r.Ok? && !r.value.completed ==>
        && r.value.shouldExecute && rows == old(rows) && r.value.checkpoint == rows[plan.id]
        && (r.value.interrupted <==> rows[plan.id].status.Running?)
        && r.value.nextStep == (if r.value.interrupted then rows[plan.id].currentStep else rows[plan.id].lastCompleted + 1)
        && 0 <= r.value.nextStep && rows[plan.id].lastCompleted + 1 < |plan.steps|
        && (r.value.interrupted ==> r.value.nextStep < |plan.steps| && plan.steps[r.value.nextStep].idempotent)
      ensures plan.id != "" && plan.id in old(rows) && old(rows)[plan.id].lastCompleted + 1 < |plan.steps| && plan.steps != [] ==>
        && (old(rows)[plan.id].status.Completed? ==> r.Ok? && r.value.completed && rows == old(rows))
        && (old(rows)[plan.id].status.Failed? ==> r == Err(InvalidState) && rows == old(rows))
        && (!old(rows)[plan.id].status.Running? && !old(rows)[plan.id].status.Failed? && -1 <= old(rows)[plan.id].lastCompleted ==> r.Ok?)
      ensures plan.id != "" && plan.id in old(rows) && old(rows)[plan.id].lastCompleted + 1 == |plan.steps| ==>
        r.Ok? && r.value.completed && rows[plan.id].status.Completed? && rows[plan.id].currentStep == |plan.steps|
      ensures r == Err(ManualReviewRequired) ==>
        plan.id in rows && rows[plan.id].status.AwaitingReview? && rows[plan.id].lastCompleted == old(rows)[plan.id].lastCompleted
    {
      if plan.id == "" {
        return Err(InvalidState);
      }
      if plan.id !in rows {
        return Err(NotFound);
      }
      var c, total := rows[plan.id], |plan.steps|;
      if c.lastCompleted >= total {
        return Err(CheckpointInvalid);
      }
      if total == 0 || c.lastCompleted + 1 >= total {
        var done := c.(status := CheckpointStatus.Completed, currentStep := total, updatedAt := integrity.now);
        rows := rows[plan.id := done];
        return Ok(Recovered(done, total, false, true, false));
      }
      if c.status.Completed? {
        return Ok(Recovered(c, total, false, true, false));
      }
      if c.status.Failed? {
        return Err(InvalidState);
      }
      if c.status.Running? {
        if c.currentStep < 0 || c.currentStep >= total {
          return Err(CheckpointInvalid);
        }
        if plan.steps[c.currentStep].idempotent {
          return Ok(Recovered(c, c.currentStep, true, false, true));
        }
        rows := rows[plan.id := c.(status := CheckpointStatus.AwaitingReview, updatedAt := integrity.now)];
        return Err(ManualReviewRequired);
      }
      if c.lastCompleted + 1 < 0 {
        return Err(CheckpointInvalid);
      }
      r := Ok(Recovered(c, c.lastCompleted + 1, true, false, false));
    }
  }
}
