/** `recoverExecution` and the opening of `execute` in services/executionEngine.js: what is asked, in which order,
    before a plan's steps may run. */
module Recovery {
  import opened Common
  import opened ExecutionTables
  import opened Normalisers
  import opened StateStore
  import opened Reconciliation
  import IntegrityStore

  /** What the gates outside the stores answer, and what the three validations see of the parts not modelled. */
  datatype Gates = Gates(
    refusedEarly: bool, refusedLate: bool, firstIssues: bool, secondIssues: bool, surroundings: Surroundings)

  /** Where the step loop takes over, if it does. */
  datatype Entry = Entry(durable: Durable, startAt: Option<int>)

  function ReconOf(p: EnginePlan): ReconPlan {
    ReconNormalize(EnginePlanAsSource(p))
  }

  function StateOf(p: EnginePlan): StatePlan {
    StateNormalize(EnginePlanAsSource(p))
  }

  function ReleaseFor(d: Durable, plan: Id, execution: Id, worker: Id): Durable {
    d.(tables := Release(d.tables, plan, execution, worker).tables)
  }

  /** The lock is active and an attempt of its execution still runs under a live lease. */
  predicate AttemptAlive(t: Tables, plan: Id) {
    && IsLocked(t, plan)
    && exists a :: a in t.attempts && a.planId == plan && a.executionId == t.locks[plan].executionId
                && a.status == AttemptStatus.Running && a.leaseExpiresAt > t.now
  }

  function ExecutionFor(t: Tables, plan: Id, execution: Id): Id {
    if IsLocked(t, plan) then t.locks[plan].executionId else execution
  }

  predicate NeedsOperator(status: CheckpointStatus) {
    status.AwaitingReview? || status.PauseForOperatorRecovery?
  }

  /** After a successful reconciliation: some actions end the call, the others go on to `recoverExecutionState`. */
  function ResumeAfter(d: Durable, p: EnginePlan, execution: Id, worker: Id, action: Action): Entry {
    match action
    case PauseForOperator => Entry(d, None)
    case Abandon => Entry(d, None)
    case Halt => Entry(d, None)
    case ReportCancelled => Entry(d, None)
    case Noop => Entry(d, None)
    case ReportCompleted => Entry(ReleaseFor(d, p.id, execution, worker), None)
    case _ =>
      var recovered := RecoverState(d, StateOf(p));
      if recovered.result.Err? || recovered.result.value.completed then
        Entry(ReleaseFor(recovered.durable, p.id, execution, worker), None)
      else Entry(recovered.durable, Some(recovered.result.value.checkpoint.lastCompleted + 1))
  }

  /** Under the lock: validate again, reconcile, resume. */
  ghost function RecoverLocked(d: Durable, p: EnginePlan, execution: Id, worker: Id, g: Gates): Entry {
    var validated := Validate(d, ReconOf(p), g.secondIssues);
    if validated.result.Err? then Entry(ReleaseFor(validated.durable, p.id, execution, worker), None)
    else
      var reconciled := Reconcile(validated.durable, ReconOf(p), worker, g.surroundings);
      if reconciled.result.Err? then Entry(ReleaseFor(reconciled.durable, p.id, execution, worker), None)
      else ResumeAfter(reconciled.durable, p, execution, worker, reconciled.result.value.action)
  }

  ghost function Recover(d: Durable, p: EnginePlan, execution: Id, worker: Id, g: Gates): Entry {
    if p.id !in d.checkpoints || g.refusedEarly || AttemptAlive(d.tables, p.id) then Entry(d, None)
    else
      var c, holder := d.checkpoints[p.id], ExecutionFor(d.tables, p.id, execution);
      var validated := Validate(d, ReconOf(p), g.firstIssues);
      if validated.result.Err? || Terminal(c.status) || NeedsOperator(c.status) || g.refusedLate then
        Entry(validated.durable, None)
      else
        var acquired := AcquireOrReuse(validated.durable.tables, p.id, holder, worker);
        var locked := validated.durable.(tables := acquired.tables);
        if acquired.result.Err? then Entry(locked, None) else RecoverLocked(locked, p, holder, worker, g)
  }

  /** `execute` up to the step loop: it takes a free lock, validates, reconciles and insists on a new checkpoint. */
  ghost function Launch(d: Durable, p: EnginePlan, execution: Id, worker: Id, g: Gates): Entry {
    var acquired := Acquire(d.tables, p.id, execution, worker);
    var locked := d.(tables := acquired.tables);
    if g.refusedEarly then Entry(d, None)
    else if acquired.result.Err? then Entry(locked, None)
    else
      var validated := Validate(locked, ReconOf(p), g.firstIssues);
      if validated.result.Err? then Entry(ReleaseFor(validated.durable, p.id, execution, worker), None)
      else
        var reconciled := Reconcile(validated.durable, ReconOf(p), worker, g.surroundings);
        if reconciled.result.Err? then Entry(ReleaseFor(reconciled.durable, p.id, execution, worker), None)
        else
          var started := Start(reconciled.durable, StateOf(p).id);
          if started.result.Err? then Entry(ReleaseFor(started.durable, p.id, execution, worker), None)
          else if g.refusedLate || p.steps == [] then Entry(started.durable, None)
          else Entry(started.durable, Some(0))
  }

  // ----- The imperative forms -----

  class Runner {
    const store: CheckpointStore
    const reconciler: Reconciler

    predicate Valid() {
      reconciler.store == store
    }

    constructor (store: CheckpointStore)
      ensures Valid() && this.store == store && fresh(reconciler)
    {
      this.store := store;
      this.reconciler := new Reconciler(store);
    }

    method ReleaseExecution(plan: Id, execution: Id, worker: Id)
      modifies store.integrity
      ensures store.View() == ReleaseFor(old(store.View()), plan, execution, worker)
    {
      var _ := store.integrity.ReleaseExecutionLock(plan, execution, worker);
    }

    method RecoverUnderLock(p: EnginePlan, execution: Id, worker: Id, g: Gates) returns (startAt: Option<int>)
      requires Valid()
      modifies store`rows, store.integrity
      ensures Entry(store.View(), startAt) == RecoverLocked(old(store.View()), p, execution, worker, g)
    {
      hide Validate, Reconcile, RecoverState, Release;
      var validated := reconciler.ValidateExecutionIntegrity(ReconOf(p), g.secondIssues);
      if validated.Err? {
        ReleaseExecution(p.id, execution, worker);
        return None;
      }
      var reconciled := reconciler.ReconcileExecutionState(ReconOf(p), worker, g.surroundings);
      if reconciled.Err? {
        ReleaseExecution(p.id, execution, worker);
        return None;
      }
      var action := reconciled.value.action;
      if action in {PauseForOperator, Abandon, Halt, ReportCancelled, Noop} {
        return None;
      }
      if action == ReportCompleted {
        ReleaseExecution(p.id, execution, worker);
        return None;
      }
      var recovered := store.RecoverExecutionState(StateOf(p));
      if recovered.Err? || recovered.value.completed {
        ReleaseExecution(p.id, execution, worker);
        return None;
      }
      startAt := Some(recovered.value.checkpoint.lastCompleted + 1);
    }

    method RecoverExecution(p: EnginePlan, execution: Id, worker: Id, g: Gates) returns (startAt: Option<int>)
      requires Valid()
      modifies store`rows, store.integrity
      ensures Entry(store.View(), startAt) == Recover(old(store.View()), p, execution, worker, g)
    {
      hide Validate, RecoverLocked, AcquireOrReuse;
      if p.id !in store.rows || g.refusedEarly {
        return None;
      }
      var t := store.integrity;
      var c := store.rows[p.id];
      var active := p.id in t.locks && t.locks[p.id].releasedAt.None?;
      var holder := if active then t.locks[p.id].executionId else execution;
      if active && exists a :: a in t.attempts && a.planId == p.id && a.executionId == holder
                          && a.status == AttemptStatus.Running && a.leaseExpiresAt > t.now {
        return None;
      }
      var validated := reconciler.ValidateExecutionIntegrity(ReconOf(p), g.firstIssues);
      if validated.Err? || Terminal(c.status) || NeedsOperator(c.status) || g.refusedLate {
        return None;
      }
      var acquired := t.AcquireOrReuseExecutionLock(p.id, holder, worker);
      if acquired.Err? {
        return None;
      }
      startAt := RecoverUnderLock(p, holder, worker, g);
    }

    method LaunchExecution(p: EnginePlan, execution: Id, worker: Id, g: Gates) returns (startAt: Option<int>)
      requires Valid()
      modifies store`rows, store.integrity
      ensures Entry(store.View(), startAt) == Launch(old(store.View()), p, execution, worker, g)
    {
      hide Validate, Reconcile, Start, Release, Acquire;
      if g.refusedEarly {
        return None;
      }
      var acquired := store.integrity.AcquireExecutionLock(p.id, execution, worker);
      if acquired.Err? {
        return None;
      }
      var validated := reconciler.ValidateExecutionIntegrity(ReconOf(p), g.firstIssues);
      if validated.Err? {
        ReleaseExecution(p.id, execution, worker);
        return None;
      }
      var reconciled := reconciler.ReconcileExecutionState(ReconOf(p), worker, g.surroundings);
      if reconciled.Err? {
        ReleaseExecution(p.id, execution, worker);
        return None;
      }
      var started := store.StartExecutionState(StateOf(p));
      if started.Err? {
        ReleaseExecution(p.id, execution, worker);
        return None;
      }
      startAt := if g.refusedLate || |p.steps| == 0 then None else Some(0);
    }
  }
}
