/** services/executionIntegrityStore.js: the store object whose operations read and then update the tables. */
module IntegrityStore {
  import opened Common
  import opened ExecutionTables

  lemma ExpiryStep(queue: seq<RecoveryItem>, k: nat, plan: Option<Id>, now: nat)
    requires k < |queue|
    ensures ResolveExpired(queue[..k + 1], plan, now)
         == ResolveExpired(queue[..k], plan, now)
            + [if Expired(queue[k], plan, now) then queue[k].(resolvedAt := Some(now)) else queue[k]]
    ensures ExpiredItems(queue[..k + 1], plan, now)
         == ExpiredItems(queue[..k], plan, now) + if Expired(queue[k], plan, now) then [queue[k]] else []
    ensures ExpiryEvents(ExpiredItems(queue[..k], plan, now) + [queue[k]], now)
         == ExpiryEvents(ExpiredItems(queue[..k], plan, now), now)
            + [Event(queue[k].planId, Some(queue[k].executionId), queue[k].stepId, None,
                     RecoveryExpired(queue[k].id, queue[k].expiresAtMs), now)]
  {
    assert queue[..k + 1] == queue[..k] + [queue[k]];
  }

  /** A lock just taken, with its whole lease ahead. */
  predicate FreshLease(lock: Lock, execution: Id, worker: Id, now: nat) {
    && lock.executionId == execution && lock.workerId == worker && lock.releasedAt.None?
    && lock.acquiredAt == lock.heartbeatAt == now && lock.leaseExpiresAt == now + LEASE_DURATION_MS
  }

  class Store {
    var locks: map<Id, Lock>
    var attempts: seq<Attempt>
    var ledger: seq<Event>
    var executions: map<Id, Execution>
    var recovery: seq<RecoveryItem>
    var now: nat

    ghost function View(): Tables
      reads this
    {
      Tables(locks, attempts, ledger, executions, recovery, now)
    }

    constructor ()
      ensures View() == Empty
    {
      locks, attempts, ledger, executions, recovery, now := map[], [], [], map[], [], 0;
    }

    method Tick(ms: nat)
      modifies `now
      ensures View() == Apply(old(View()), OpTick(ms))
    {
      now := now + ms;
    }

    method AppendLedgerEvent(event: Event)
      modifies `ledger
      ensures View() == Append(old(View()), event)
    {
      ledger := ledger + [event];
    }

    method SyncExecutionLease(execution: Id, owner: Option<Id>, expires: Option<nat>)
      modifies `executions
      ensures executions == SyncLease(old(executions), execution, owner, expires)
    {
      if Blank(execution) {
        return;
      }
      if execution in executions {
        executions := executions[execution := executions[execution].(leaseOwner := owner, leaseExpiresAt := expires)];
      }
    }

    method AcquireExecutionLock(plan: Id, execution: Id, worker: Id) returns (r: Result<Lock, ErrorCode>)
      modifies this
      ensures Effect(View(), r) == Acquire(old(View()), plan, execution, worker)
      ensures r.Ok? <==> !Blank(plan) && !Blank(execution) && !(plan in old(locks) && old(locks)[plan].releasedAt.None?)
      ensures r.Ok? ==> locks == old(locks)[plan := r.value] && FreshLease(r.value, execution, worker, now)
                        && r.value.createdAt == (if plan in old(locks) then old(locks)[plan].createdAt else now)
      ensures r.Err? ==> locks == old(locks) && executions == old(executions)
      ensures attempts == old(attempts) && recovery == old(recovery)
      ensures r == Err(LockConflict) ==> ledger == old(ledger) + [
        Event(plan, Some(execution), None, None,
          LeaseConflict(worker, old(locks)[plan].executionId, old(locks)[plan].workerId, old(locks)[plan].leaseExpiresAt), now)]
    {
      if Blank(plan) || Blank(execution) {
        return Err(InvalidState);
      }
      if plan in locks && locks[plan].releasedAt.None? {
        var held := locks[plan];
        AppendLedgerEvent(Event(plan, Some(execution), None, None,
          LeaseConflict(worker, held.executionId, held.workerId, held.leaseExpiresAt), now));
        return Err(LockConflict);
      }
      var expires := now + LEASE_DURATION_MS;
      var created := if plan in locks then locks[plan].createdAt else now;
      var lock := Lock(execution, worker, now, now, expires, None, created);
      locks := locks[plan := lock];
      SyncExecutionLease(execution, Some(worker), Some(expires));
      AppendLedgerEvent(Event(plan, Some(execution), None, None, LeaseAcquired(worker, expires), now));
      r := Ok(lock);
    }

    method AcquireOrReuseExecutionLock(plan: Id, execution: Id, worker: Id) returns (r: Result<Lock, ErrorCode>)
      modifies this
      ensures Effect(View(), r) == AcquireOrReuse(old(View()), plan, execution, worker)
      ensures r.Ok? <==> !Blank(plan) && !Blank(execution)
                         && (plan in old(locks) && old(locks)[plan].releasedAt.None? ==> old(locks)[plan].executionId == execution)
      ensures r.Ok? ==> locks == old(locks)[plan := r.value] && FreshLease(r.value, execution, worker, now)
                        && r.value.createdAt == (if plan in old(locks) then old(locks)[plan].createdAt else now)
      ensures r.Err? ==> locks == old(locks) && executions == old(executions)
      ensures attempts == old(attempts) && recovery == old(recovery)
      ensures r == Err(LockConflict) ==> ledger == old(ledger) + [
        Event(plan, Some(execution), None, None,
          LeaseConflict(worker, old(locks)[plan].executionId, old(locks)[plan].workerId, old(locks)[plan].leaseExpiresAt), now)]
    {
      if Blank(plan) || Blank(execution) {
        return Err(InvalidState);
      }
      var active := plan in locks && locks[plan].releasedAt.None?;
      if active && locks[plan].executionId != execution {
        var held := locks[plan];
        AppendLedgerEvent(Event(plan, Some(execution), None, None,
          LeaseConflict(worker, held.executionId, held.workerId, held.leaseExpiresAt), now));
        return Err(LockConflict);
      }
      var expires := now + LEASE_DURATION_MS;
      var created := if plan in locks then locks[plan].createdAt else now;
      var lock := Lock(execution, worker, now, now, expires, None, created);
      locks := locks[plan := lock];
      SyncExecutionLease(execution, Some(worker), Some(expires));
      var kind := if active then LeaseRenewed(worker, expires) else LeaseAcquired(worker, expires);
      AppendLedgerEvent(Event(plan, Some(execution), None, None, kind, now));
      r := Ok(lock);
    }

    method RenewExecutionLockTx(plan: Id, execution: Id, worker: Id) returns (r: Result<(), ErrorCode>)
      modifies this
      ensures Effect(View(), r) == RenewTx(old(View()), plan, execution, worker)
      ensures r.Ok? <==> plan in old(locks) && old(locks)[plan].releasedAt.None?
                         && old(locks)[plan].executionId == execution && old(locks)[plan].workerId == worker
      ensures r.Ok? ==> locks == old(locks)[plan := old(locks)[plan].(heartbeatAt := now, leaseExpiresAt := now + LEASE_DURATION_MS)]
      ensures r.Err? ==> locks == old(locks) && executions == old(executions)
      ensures attempts == old(attempts) && recovery == old(recovery)
      ensures r == Err(LockConflict) ==> ledger == old(ledger) + [
        Event(plan, Some(execution), None, None,
          LeaseConflict(worker, old(locks)[plan].executionId, old(locks)[plan].workerId, old(locks)[plan].leaseExpiresAt), now)]
    {
      if plan !in locks {
        return Err(NotFound);
      }
      var held := locks[plan];
      if held.executionId == execution && held.releasedAt.Some? {
        return Err(LockReleased);
      }
      if held.executionId != execution || held.workerId != worker {
        AppendLedgerEvent(Event(plan, Some(execution), None, None,
          LeaseConflict(worker, held.executionId, held.workerId, held.leaseExpiresAt), now));
        return Err(LockConflict);
      }
      var expires := now + LEASE_DURATION_MS;
      locks := locks[plan := held.(heartbeatAt := now, leaseExpiresAt := expires)];
      SyncExecutionLease(execution, Some(worker), Some(expires));
      AppendLedgerEvent(Event(plan, Some(execution), None, None, LeaseRenewed(worker, expires), now));
      r := Ok(());
    }

    method RenewExecutionLock(plan: Id, execution: Id, worker: Id) returns (r: Result<(), ErrorCode>)
      modifies this
      ensures Effect(View(), r) == Renew(old(View()), plan, execution, worker)
    {
      if Blank(plan) || Blank(execution) {
        return Err(InvalidState);
      }
      r := RenewExecutionLockTx(plan, execution, worker);
    }

    method ReleaseExecutionLockTx(plan: Id, execution: Id, worker: Id) returns (r: Result<nat, ErrorCode>)
      modifies this
      ensures Effect(View(), r) == ReleaseTx(old(View()), plan, execution, worker)
      ensures r.Ok? <==> plan in old(locks) && old(locks)[plan].executionId == execution
      ensures r.Ok? ==> locks == old(locks)[plan := old(locks)[plan].(heartbeatAt := now, leaseExpiresAt := now, releasedAt := Some(now))]
      ensures r.Err? ==> View() == old(View())
      ensures attempts == old(attempts) && recovery == old(recovery)
    {
      if plan !in locks {
        return Err(NotFound);
      }
      var held := locks[plan];
      if held.executionId != execution {
        return Err(LockConflict);
      }
      locks := locks[plan := held.(heartbeatAt := now, leaseExpiresAt := now, releasedAt := Some(now))];
      SyncExecutionLease(execution, None, None);
      AppendLedgerEvent(Event(plan, Some(execution), None, None, LeaseReleased(held.workerId, worker, now), now));
      r := Ok(now);
    }

    method ReleaseExecutionLock(plan: Id, execution: Id, worker: Id) returns (r: Result<nat, ErrorCode>)
      modifies this
      ensures Effect(View(), r) == Release(old(View()), plan, execution, worker)
    {
      if Blank(plan) || Blank(execution) {
        return Err(InvalidState);
      }
      r := ReleaseExecutionLockTx(plan, execution, worker);
    }

    method CreateExecutionAttempt(plan: Id, execution: Id, step: Id, effect: SideEffect, key: Option<string>, worker: Id)
      returns (r: Result<Attempt, ErrorCode>)
      modifies this
      ensures Effect(View(), r) == CreateAttempt(old(View()), plan, execution, step, effect, key, worker)
      ensures r.Ok? ==>
        && attempts == old(attempts) + [r.value] && locks == old(locks) && recovery == old(recovery)
        && IsAttempt(r.value, plan, execution, step, MaxAttempt(old(attempts), plan, execution, step) + 1)
        && r.value.status.Running? && r.value.sideEffect == effect && r.value.workerId == worker && r.value.completedAt.None?
        && r.value.leaseExpiresAt == now + LEASE_DURATION_MS && r.value.heartbeatAt == r.value.createdAt == r.value.updatedAt == now
        && (key.Some? || !effect.ExternalWrite? ==> r.value.idempotencyKey == key)
      ensures r.Ok? ==> forall a :: a in old(attempts) && a.idempotencyKey.Some? ==> a.idempotencyKey != r.value.idempotencyKey
      ensures r.Ok? ==> executions.Keys == old(executions).Keys && forall x :: x in executions ==>
        var row := old(executions)[x];
        executions[x] == if x == execution then row.(totalAttempts := row.totalAttempts + 1) else row
      ensures r.Err? ==> View() == old(View())
    {
      if Blank(plan) || Blank(execution) || Blank(step) {
        return Err(InvalidState);
      }
      var number := MaxAttempt(attempts, plan, execution, step) + 1;
      var expires := now + LEASE_DURATION_MS;
      var resolved := ResolveKey(plan, execution, step, number, effect, key);
      if KeyTaken(attempts, resolved) {
        return Err(DbWriteFailed);
      }
      var attempt := Attempt(plan, execution, step, number, Running, effect, resolved, worker, now, expires, now, now, None);
      attempts := attempts + [attempt];
      if execution in executions {
        var row := executions[execution];
        executions := executions[execution := row.(totalAttempts := row.totalAttempts + 1)];
      }
      AppendLedgerEvent(Event(plan, Some(execution), Some(step), Some(number),
        AttemptStarted(worker, effect, resolved, expires), now));
      r := Ok(attempt);
    }

    method HeartbeatExecutionAttempt(plan: Id, execution: Id, step: Id, number: nat, worker: Id)
      returns (r: Result<nat, ErrorCode>)
      modifies this
      ensures Effect(View(), r) == HeartbeatAttempt(old(View()), plan, execution, step, number, worker)
      ensures |attempts| == |old(attempts)| && recovery == old(recovery)
      ensures forall i :: 0 <= i < |attempts| ==>
        var a := old(attempts)[i];
        attempts[i] == if !Blank(plan) && !Blank(execution) && IsAttempt(a, plan, execution, step, number) && a.status.Running?
                       then a.(heartbeatAt := now, leaseExpiresAt := now + LEASE_DURATION_MS, updatedAt := now) else a
    {
      if Blank(plan) || Blank(execution) {
        return Err(InvalidState);
      }
      if !HasRunning(attempts, plan, execution, step, number) {
        return Err(NotFound);
      }
      attempts := TouchRows(attempts, plan, execution, step, number, now);
      var renewal := RenewExecutionLockTx(plan, execution, worker);
      if renewal.Err? {
        return Err(renewal.error);
      }
      var expires := now + LEASE_DURATION_MS;
      AppendLedgerEvent(Event(plan, Some(execution), Some(step), Some(number), AttemptHeartbeat(now, expires), now));
      r := Ok(expires);
    }

    method FinalizeExecutionAttempt(plan: Id, execution: Id, step: Id, number: nat, status: AttemptStatus)
      returns (r: Result<(), ErrorCode>)
      modifies this
      ensures Effect(View(), r) == FinalizeAttempt(old(View()), plan, execution, step, number, status)
      ensures r.Ok? <==> !Blank(plan) && !Blank(execution) && exists a :: a in old(attempts) && IsAttempt(a, plan, execution, step, number)
      ensures r.Err? ==> View() == old(View())
      ensures |attempts| == |old(attempts)| && locks == old(locks) && recovery == old(recovery)
      ensures r.Ok? ==> forall i :: 0 <= i < |attempts| ==>
        var a := old(attempts)[i];
        attempts[i] == if IsAttempt(a, plan, execution, step, number)
                       then a.(status := status, updatedAt := now, completedAt := Some(now), leaseExpiresAt := now, heartbeatAt := now) else a
      ensures executions.Keys == old(executions).Keys && forall x :: x in executions ==>
        var row := old(executions)[x];
        executions[x] ==
          if x != execution || r.Err? then row
          else if status == Completed then row.(consecutiveFailures := 0, noProgressAttempts := 0, lastProgressAt := Some(now))
          else if status == Failed
          then row.(consecutiveFailures := row.consecutiveFailures + 1, noProgressAttempts := row.noProgressAttempts + 1) else row
    {
      if Blank(plan) || Blank(execution) {
        return Err(InvalidState);
      }
      if !HasAttempt(attempts, plan, execution, step, number) {
        return Err(NotFound);
      }
      attempts := FinalizeRows(attempts, plan, execution, step, number, status, now);
      if execution in executions {
        var row := executions[execution];
        if status == Completed {
          row := row.(consecutiveFailures := 0, noProgressAttempts := 0, lastProgressAt := Some(now));
        } else if status == Failed {
          row := row.(consecutiveFailures := row.consecutiveFailures + 1, noProgressAttempts := row.noProgressAttempts + 1);
        }
        executions := executions[execution := row];
      }
      AppendLedgerEvent(Event(plan, Some(execution), Some(step), Some(number), AttemptFinalized(status), now));
      r := Ok(());
    }

    method EnqueueOperatorRecovery(plan: Id, execution: Id, step: Option<Id>, reason: string, lastState: string, ttlMs: nat)
      returns (r: Result<RecoveryItem, ErrorCode>)
      modifies this
      ensures Effect(View(), r) == EnqueueRecovery(old(View()), plan, execution, step, reason, lastState, ttlMs)
      ensures r.Ok? <==> !Blank(plan) && !Blank(execution) && !Blank(reason) && !Blank(lastState)
      ensures r.Ok? ==>
        && recovery == old(recovery) + [r.value] && locks == old(locks) && attempts == old(attempts)
        && r.value.planId == plan && r.value.executionId == execution && r.value.stepId == step && r.value.reason == reason
        && r.value.lastState == lastState && r.value.resolvedAt.None?
        && r.value.expiresAtMs == now + (if ttlMs == 0 then OPERATOR_RECOVERY_TTL_MS else ttlMs)
      ensures r.Err? ==> View() == old(View())
    {
      if Blank(plan) || Blank(execution) || Blank(reason) || Blank(lastState) {
        return Err(InvalidState);
      }
      var ttl := if ttlMs == 0 then OPERATOR_RECOVERY_TTL_MS else ttlMs;
      var item := RecoveryItem(|recovery| + 1, plan, execution, step, reason, lastState, now, now + ttl, None);
      recovery := recovery + [item];
      AppendLedgerEvent(Event(plan, Some(execution), step, None, RecoveryEnqueued(now + ttl), now));
      r := Ok(item);
    }

    /** Walks the queue once, resolving each expired row and logging it. */
    method ExpireOperatorRecoveryItems(plan: Option<Id>) returns (expired: seq<RecoveryItem>)
      modifies `recovery, `ledger
      ensures Effect(View(), Ok(expired)) == ExpireRecovery(old(View()), plan)
      ensures |recovery| == |old(recovery)| && forall i :: 0 <= i < |recovery| ==>
        var item := old(recovery)[i];
        recovery[i] == if (plan.None? || item.planId == plan.value) && item.resolvedAt.None? && item.expiresAtMs <= now
                       then item.(resolvedAt := Some(now)) else item
    {
      expired := [];
      var queue, resolved := recovery, [];
      for k := 0 to |queue|
        invariant queue == old(recovery)
        invariant resolved == ResolveExpired(queue[..k], plan, now)
        invariant expired == ExpiredItems(queue[..k], plan, now)
        invariant ledger == old(ledger) + ExpiryEvents(expired, now)
      {
        var item := queue[k];
        ExpiryStep(queue, k, plan, now);
        if Expired(item, plan, now) {
          resolved := resolved + [item.(resolvedAt := Some(now))];
          AppendLedgerEvent(Event(item.planId, Some(item.executionId), item.stepId, None,
            RecoveryExpired(item.id, item.expiresAtMs), now));
          expired := expired + [item];
        } else {
          resolved := resolved + [item];
        }
      }
      recovery := resolved;
      assert queue[..|queue|] == queue;
    }

    /** `getLeaseLossSignal`, given whether the heartbeat has already reported a loss: true means the lease is lost. */
    method LeaseLost(plan: Id, execution: Id, worker: Id, heartbeatLost: bool) returns (lost: bool)
      ensures lost == (!Blank(plan) && !Blank(execution) && (heartbeatLost || LeaseLostSpec(View(), plan, execution, worker)))
    {
      if Blank(plan) || Blank(execution) {
        return false;
      }
      if heartbeatLost {
        return true;
      }
      if plan !in locks || locks[plan].releasedAt.Some? {
        return true;
      }
      if locks[plan].executionId != execution || locks[plan].workerId != worker {
        return true;
      }
      if execution in executions {
        var row := executions[execution];
        if row.leaseOwner.Some? && !Blank(row.leaseOwner.value) {
          var expires := match row.leaseExpiresAt case Some(at) => at case None => 0;
          return row.leaseOwner.value != worker || expires <= now;
        }
      }
      lost := false;
    }
  }

  predicate LeaseLostSpec(t: Tables, plan: Id, execution: Id, worker: Id) {
    && !Blank(plan) && !Blank(execution)
    && (!HeldBy(t, plan, execution)
        || t.locks[plan].workerId != worker
        || (execution in t.executions && t.executions[execution].leaseOwner.Some?
            && !Blank(t.executions[execution].leaseOwner.value)
            && (t.executions[execution].leaseOwner.value != worker
                || t.executions[execution].leaseExpiresAt.None?
                || t.executions[execution].leaseExpiresAt.value <= t.now)))
  }
}
