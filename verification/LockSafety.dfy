/** Mutual exclusion between executions, and fencing of a worker whose execution was taken over. */
module LockSafety {
  import opened Common
  import opened ExecutionTables
  import opened IntegrityStore

  predicate Releases(op: Op, plan: Id, execution: Id) {
    op.OpRelease? && op.plan == plan && op.execution == execution && !Blank(plan) && !Blank(execution)
  }

  /** One operation takes a held plan away from its execution exactly when it is a release naming that execution. */
  lemma OnlyReleaseFreesTheLock(t: Tables, op: Op, plan: Id, execution: Id)
    requires HeldBy(t, plan, execution)
    ensures HeldBy(Apply(t, op), plan, execution) <==> !Releases(op, plan, execution)
  {
  }

  /** Mutual exclusion over runs: whatever any worker does and however long the lease has been expired, the
      plan stays with the execution that holds it until a release names that execution. */
  lemma {:induction false} LockStaysWithExecution(t: Tables, plan: Id, execution: Id, ops: seq<Op>)
    requires HeldBy(t, plan, execution)
    requires forall i :: 0 <= i < |ops| ==> !Releases(ops[i], plan, execution)
    ensures HeldBy(Run(t, ops), plan, execution)
  {
    if ops != [] {
      LockStaysWithExecution(t, plan, execution, Init(ops));
      OnlyReleaseFreesTheLock(Run(t, Init(ops)), Last(ops), plan, execution);
    }
  }

  /** Until then no other execution gets in. */
  lemma OtherExecutionsAreRefused(t: Tables, plan: Id, execution: Id, ops: seq<Op>, other: Id, worker: Id)
    requires HeldBy(t, plan, execution) && other != execution && !Blank(plan) && !Blank(other)
    requires forall i :: 0 <= i < |ops| ==> !Releases(ops[i], plan, execution)
    ensures !HeldBy(Run(t, ops), plan, other)
    ensures Acquire(Run(t, ops), plan, other, worker).result == Err(LockConflict)
    ensures AcquireOrReuse(Run(t, ops), plan, other, worker).result == Err(LockConflict)
  {
    LockStaysWithExecution(t, plan, execution, ops);
  }

  /** An operation by which `worker` may come to own the plan's lock row. */
  predicate AcquiresFor(op: Op, plan: Id, worker: Id) {
    (op.OpAcquire? || op.OpAcquireOrReuse?) && op.plan == plan && op.worker == worker
  }

  ghost predicate LostTo(t: Tables, plan: Id, worker: Id) {
    plan in t.locks && t.locks[plan].workerId != worker
  }

  lemma OneOpKeepsOut(t: Tables, plan: Id, worker: Id, op: Op)
    requires LostTo(t, plan, worker) && !AcquiresFor(op, plan, worker)
    ensures LostTo(Apply(t, op), plan, worker)
  {
    hide Blank, SyncLease, HasRunning, ExpiredItems, ResolveExpired, ExpiryEvents, KeyTaken, ResolveKey, MaxAttempt;
  }

  lemma {:induction false} WorkerStaysOut(t: Tables, plan: Id, worker: Id, ops: seq<Op>)
    requires LostTo(t, plan, worker)
    requires forall i :: 0 <= i < |ops| ==> !AcquiresFor(ops[i], plan, worker)
    ensures LostTo(Run(t, ops), plan, worker)
  {
    if ops != [] {
      hide Apply, LostTo;
      WorkerStaysOut(t, plan, worker, Init(ops));
      OneOpKeepsOut(Run(t, Init(ops)), plan, worker, Last(ops));
    }
  }

  /** Fencing: once another worker has taken over the execution, every renewal and every heartbeat of the old
      worker is refused and its lease-loss check reports the loss, until the old worker acquires again. */
  lemma OldWorkerIsFenced(t: Tables, plan: Id, execution: Id, old_: Id, new_: Id, ops: seq<Op>, step: Id, number: nat)
    requires old_ != new_ && !Blank(plan) && !Blank(execution)
    requires AcquireOrReuse(t, plan, execution, new_).result.Ok?
    requires forall i :: 0 <= i < |ops| ==> !AcquiresFor(ops[i], plan, old_)
    ensures var t' := Run(AcquireOrReuse(t, plan, execution, new_).tables, ops);
      && Renew(t', plan, execution, old_).result.Err?
      && HeartbeatAttempt(t', plan, execution, step, number, old_).result.Err?
      && LeaseLostSpec(t', plan, execution, old_)
  {
    WorkerStaysOut(AcquireOrReuse(t, plan, execution, new_).tables, plan, old_, ops);
  }

  /** The takeover itself needs no expired lease: the same execution may always be re-entered by a new worker. */
  lemma TakeoverAlwaysSucceeds(t: Tables, plan: Id, execution: Id, worker: Id)
    requires HeldBy(t, plan, execution) && !Blank(plan) && !Blank(execution)
    ensures AcquireOrReuse(t, plan, execution, worker).result.Ok?
    ensures var t' := AcquireOrReuse(t, plan, execution, worker).tables;
      HeldBy(t', plan, execution) && t'.locks[plan].workerId == worker
      && Renew(t', plan, execution, worker).result.Ok?
  {
  }

  // ----- How long a lease lasts -----

  predicate Own(op: Op, plan: Id, execution: Id, worker: Id)
    requires op.OpAcquire? || op.OpAcquireOrReuse? || op.OpRenew? || op.OpHeartbeat?
  {
    op.plan == plan && op.execution == execution && op.worker == worker
  }

  /** An acquisition, a renewal or a heartbeat that succeeds. */
  predicate TakesLease(t: Tables, op: Op) {
    match op
    case OpAcquire(p, e, w) => Acquire(t, p, e, w).result.Ok?
    case OpAcquireOrReuse(p, e, w) => AcquireOrReuse(t, p, e, w).result.Ok?
    case OpRenew(p, e, w) => Renew(t, p, e, w).result.Ok?
    case OpHeartbeat(p, e, s, n, w) => HeartbeatAttempt(t, p, e, s, n, w).result.Ok?
    case _ => false
  }

  predicate Refreshes(t: Tables, op: Op, plan: Id, execution: Id, worker: Id) {
    TakesLease(t, op) && Own(op, plan, execution, worker)
  }

  /** Someone else takes a lease on the plan or for the execution, or a release names the execution. */
  predicate Interferes(t: Tables, op: Op, plan: Id, execution: Id, worker: Id) {
    || (TakesLease(t, op) && !Own(op, plan, execution, worker) && (op.plan == plan || op.execution == execution))
    || (op.OpRelease? && op.execution == execution)
  }

  /** When the worker last took or extended its lease; `at` if not in this run. */
  function LastRefresh(t: Tables, at: nat, ops: seq<Op>, plan: Id, execution: Id, worker: Id): nat {
    if ops == [] then at
    else
      var before := Run(t, Init(ops));
      if Refreshes(before, Last(ops), plan, execution, worker) then before.now
      else LastRefresh(t, at, Init(ops), plan, execution, worker)
  }

  ghost predicate Undisturbed(t: Tables, ops: seq<Op>, plan: Id, execution: Id, worker: Id) {
    forall i :: 0 <= i < |ops| ==> !Interferes(Run(t, ops[..i]), ops[i], plan, execution, worker)
  }

  /** The worker holds the plan for the execution by a lease taken at `at`, and the execution row, if there is one, says so. */
  predicate Leased(t: Tables, plan: Id, execution: Id, worker: Id, at: nat) {
    && !Blank(plan) && !Blank(execution) && HeldBy(t, plan, execution) && t.locks[plan].workerId == worker
    && (execution in t.executions ==>
          t.executions[execution].leaseOwner == Some(worker) && t.executions[execution].leaseExpiresAt == Some(at + LEASE_DURATION_MS))
  }

  lemma RefreshLeases(t: Tables, op: Op, plan: Id, execution: Id, worker: Id)
    requires Refreshes(t, op, plan, execution, worker)
    ensures Leased(Apply(t, op), plan, execution, worker, t.now)
    ensures execution in Apply(t, op).executions <==> execution in t.executions
  {
    hide HasRunning, TouchRows;
  }

  lemma OthersLeaveLease(t: Tables, op: Op, plan: Id, execution: Id, worker: Id, at: nat)
    requires Leased(t, plan, execution, worker, at) && !Refreshes(t, op, plan, execution, worker)
    requires !Interferes(t, op, plan, execution, worker)
    ensures Leased(Apply(t, op), plan, execution, worker, at)
    ensures execution in Apply(t, op).executions <==> execution in t.executions
  {
    hide HasRunning, TouchRows, ResolveExpired, ExpiredItems, ExpiryEvents, KeyTaken, NewAttempt, FinalizeRows, HasAttempt;
  }

  lemma {:induction false} LeaseIsKept(t: Tables, at: nat, ops: seq<Op>, plan: Id, execution: Id, worker: Id)
    requires Leased(t, plan, execution, worker, at) && Undisturbed(t, ops, plan, execution, worker)
    ensures Leased(Run(t, ops), plan, execution, worker, LastRefresh(t, at, ops, plan, execution, worker))
    ensures execution in Run(t, ops).executions <==> execution in t.executions
  {
    hide Apply, Leased, Interferes, Refreshes;
    if ops != [] {
      assert forall i :: 0 <= i < |ops| - 1 ==> Init(ops)[..i] == ops[..i] && Init(ops)[i] == ops[i];
      LeaseIsKept(t, at, Init(ops), plan, execution, worker);
      var before := Run(t, Init(ops));
      assert Init(ops) == ops[..|ops| - 1];
      assert !Interferes(before, Last(ops), plan, execution, worker);
      if Refreshes(before, Last(ops), plan, execution, worker) {
        RefreshLeases(before, Last(ops), plan, execution, worker);
      } else {
        OthersLeaveLease(before, Last(ops), plan, execution, worker, LastRefresh(t, at, Init(ops), plan, execution, worker));
      }
    }
  }

  /** A healthy holder keeps its lease: as long as nobody else takes the plan or the execution and neither is released, the
      lease check reports a loss exactly when the execution has a row and the full duration has gone by since the worker
      last took or extended the lease. */
  lemma LeaseRunsOutExactly(t: Tables, first: Op, ops: seq<Op>, plan: Id, execution: Id, worker: Id)
    requires Refreshes(t, first, plan, execution, worker) && Undisturbed(Apply(t, first), ops, plan, execution, worker)
    ensures var t' := Run(Apply(t, first), ops);
      LeaseLostSpec(t', plan, execution, worker) <==>
        && execution in t.executions && !Blank(worker)
        && t'.now >= LastRefresh(Apply(t, first), t.now, ops, plan, execution, worker) + LEASE_DURATION_MS
  {
    RefreshLeases(t, first, plan, execution, worker);
    LeaseIsKept(Apply(t, first), t.now, ops, plan, execution, worker);
    hide Apply, Run, Refreshes, Undisturbed, LastRefresh, Blank;
  }
}
