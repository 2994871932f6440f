/** The durable tables behind services/executionIntegrityStore.js, and what each of its operations does to them.
    A table is a map keyed by its primary key, or a sequence in insertion order; time is milliseconds.
    The clock does not move inside a transaction. */
module ExecutionTables {
  import opened Common

  const LEASE_DURATION_MS: nat := 30000
  const OPERATOR_RECOVERY_TTL_MS: nat := 86400000

  type Id = string

  datatype ErrorCode =
    | InvalidState | NotFound | LockConflict | LockReleased | LockRequired | DbWriteFailed
    | ExecutionAlreadyExists | CheckpointInvalid | ManualReviewRequired | Corrupted

  datatype Lock = Lock(
    executionId: Id, workerId: Id, acquiredAt: nat, heartbeatAt: nat, leaseExpiresAt: nat,
    releasedAt: Option<nat>, createdAt: nat)

  datatype AttemptStatus = Running | Completed | Failed | Cancelled | Abandoned

  datatype SideEffect =
    PureRead | LocalWrite | ExternalWrite | Destructive | NetworkCall | HumanReview | Unknown | OtherEffect

  datatype Attempt = Attempt(
    planId: Id, executionId: Id, stepId: Id, number: nat, status: AttemptStatus, sideEffect: SideEffect,
    idempotencyKey: Option<string>, workerId: Id, heartbeatAt: nat, leaseExpiresAt: nat,
    createdAt: nat, updatedAt: nat, completedAt: Option<nat>)

  /** The event types with the part of their payload that matters for the state. */
  datatype EventKind =
    | LeaseAcquired(workerId: Id, leaseExpiresAt: nat)
    | LeaseRenewed(workerId: Id, leaseExpiresAt: nat)
    | LeaseReleased(workerId: Id, releasedByWorkerId: Id, lockReleasedAt: nat)
    | LeaseConflict(workerId: Id, existingExecutionId: Id, existingWorkerId: Id, leaseExpiresAt: nat)
    | AttemptStarted(workerId: Id, sideEffect: SideEffect, idempotencyKey: Option<string>, leaseExpiresAt: nat)
    | AttemptHeartbeat(heartbeatAt: nat, leaseExpiresAt: nat)
    | AttemptFinalized(status: AttemptStatus)
    | RecoveryEnqueued(expiresAtMs: nat)
    | RecoveryExpired(recoveryId: nat, expiresAtMs: nat)
    | Lifecycle(name: string)

  datatype Event = Event(
    planId: Id, executionId: Option<Id>, stepId: Option<Id>, attemptNumber: Option<nat>, kind: EventKind, createdAt: nat)

  /** The lease and counter columns of a row of `executions`. */
  datatype Execution = Execution(
    leaseOwner: Option<Id>, leaseExpiresAt: Option<nat>,
    totalAttempts: nat, consecutiveFailures: nat, noProgressAttempts: nat, lastProgressAt: Option<nat>)

  datatype RecoveryItem = RecoveryItem(
    id: nat, planId: Id, executionId: Id, stepId: Option<Id>, reason: string, lastState: string,
    createdAt: nat, expiresAtMs: nat, resolvedAt: Option<nat>)

  datatype Tables = Tables(
    locks: map<Id, Lock>, attempts: seq<Attempt>, ledger: seq<Event>, executions: map<Id, Execution>,
    recovery: seq<RecoveryItem>, now: nat)

  /** What an operation leaves behind and what it returns. */
  datatype Effect<T> = Effect(tables: Tables, result: Result<T, ErrorCode>)

  // ----- Shared pieces -----

  predicate IsSpace(c: char) {
    c in {' ', '\t', '\n', '\r'}
  }

  predicate Blank(s: string) {
    forall c :: c in s ==> IsSpace(c)
  }

  function Append(t: Tables, e: Event): Tables {
    t.(ledger := t.ledger + [e])
  }

  function LeaseEvent(t: Tables, plan: Id, execution: Id, kind: EventKind): Event {
    Event(plan, Some(execution), None, None, kind, t.now)
  }

  function AttemptEvent(t: Tables, plan: Id, execution: Id, step: Id, number: nat, kind: EventKind): Event {
    Event(plan, Some(execution), Some(step), Some(number), kind, t.now)
  }

  function SyncLease(executions: map<Id, Execution>, execution: Id, owner: Option<Id>, expires: Option<nat>)
    : map<Id, Execution>
  {
    if Blank(execution) || execution !in executions then executions
    else executions[execution := executions[execution].(leaseOwner := owner, leaseExpiresAt := expires)]
  }

  predicate HeldBy(t: Tables, plan: Id, execution: Id) {
    plan in t.locks && t.locks[plan].releasedAt.None? && t.locks[plan].executionId == execution
  }

  predicate IsLocked(t: Tables, plan: Id) {
    plan in t.locks && t.locks[plan].releasedAt.None?
  }

  // ----- Locks -----

  function ConflictEvent(t: Tables, plan: Id, execution: Id, worker: Id): Event
    requires plan in t.locks
  {
    LeaseEvent(t, plan, execution,
      LeaseConflict(worker, t.locks[plan].executionId, t.locks[plan].workerId, t.locks[plan].leaseExpiresAt))
  }

  /** The row both acquire operations write. */
  function FreshLock(t: Tables, plan: Id, execution: Id, worker: Id): Lock {
    Lock(execution, worker, t.now, t.now, t.now + LEASE_DURATION_MS, None,
         if plan in t.locks then t.locks[plan].createdAt else t.now)
  }

  function WriteLock(t: Tables, plan: Id, execution: Id, worker: Id, kind: EventKind): Effect<Lock> {
    var lock := FreshLock(t, plan, execution, worker);
    var t' := t.(locks := t.locks[plan := lock],
                 executions := SyncLease(t.executions, execution, Some(worker), Some(lock.leaseExpiresAt)));
    Effect(Append(t', LeaseEvent(t, plan, execution, kind)), Ok(lock))
  }

  function Acquire(t: Tables, plan: Id, execution: Id, worker: Id): Effect<Lock> {
    if Blank(plan) || Blank(execution) then Effect(t, Err(InvalidState))
    else if IsLocked(t, plan) then
      Effect(Append(t, ConflictEvent(t, plan, execution, worker)), Err(LockConflict))
    else WriteLock(t, plan, execution, worker, LeaseAcquired(worker, t.now + LEASE_DURATION_MS))
  }

  function AcquireOrReuse(t: Tables, plan: Id, execution: Id, worker: Id): Effect<Lock> {
    if Blank(plan) || Blank(execution) then Effect(t, Err(InvalidState))
    else if IsLocked(t, plan) && t.locks[plan].executionId != execution then
      Effect(Append(t, ConflictEvent(t, plan, execution, worker)), Err(LockConflict))
    else WriteLock(t, plan, execution, worker,
      if IsLocked(t, plan) then LeaseRenewed(worker, t.now + LEASE_DURATION_MS)
      else LeaseAcquired(worker, t.now + LEASE_DURATION_MS))
  }

  function RenewTx(t: Tables, plan: Id, execution: Id, worker: Id): Effect<()> {
    if plan !in t.locks then Effect(t, Err(NotFound))
    else if t.locks[plan].executionId != execution then
      Effect(Append(t, ConflictEvent(t, plan, execution, worker)), Err(LockConflict))
    else if t.locks[plan].releasedAt.Some? then Effect(t, Err(LockReleased))
    else if t.locks[plan].workerId != worker then
      Effect(Append(t, ConflictEvent(t, plan, execution, worker)), Err(LockConflict))
    else
      var expires := t.now + LEASE_DURATION_MS;
      var t' := t.(locks := t.locks[plan := t.locks[plan].(heartbeatAt := t.now, leaseExpiresAt := expires)],
                   executions := SyncLease(t.executions, execution, Some(worker), Some(expires)));
      Effect(Append(t', LeaseEvent(t, plan, execution, LeaseRenewed(worker, expires))), Ok(()))
  }

  function Renew(t: Tables, plan: Id, execution: Id, worker: Id): Effect<()> {
    if Blank(plan) || Blank(execution) then Effect(t, Err(InvalidState)) else RenewTx(t, plan, execution, worker)
  }

  /** Release does not ask who the worker is, nor whether the lock was released before. */
  function ReleaseTx(t: Tables, plan: Id, execution: Id, worker: Id): Effect<nat> {
    if plan !in t.locks then Effect(t, Err(NotFound))
    else if t.locks[plan].executionId != execution then Effect(t, Err(LockConflict))
    else
      var lock := t.locks[plan];
      var t' := t.(locks := t.locks[plan := lock.(heartbeatAt := t.now, leaseExpiresAt := t.now, releasedAt := Some(t.now))],
                   executions := SyncLease(t.executions, execution, None, None));
      Effect(Append(t', LeaseEvent(t, plan, execution, LeaseReleased(lock.workerId, worker, t.now))), Ok(t.now))
  }

  function Release(t: Tables, plan: Id, execution: Id, worker: Id): Effect<nat> {
    if Blank(plan) || Blank(execution) then Effect(t, Err(InvalidState)) else ReleaseTx(t, plan, execution, worker)
  }

  // ----- Attempts -----

  predicate OfStep(a: Attempt, plan: Id, execution: Id, step: Id) {
    a.planId == plan && a.executionId == execution && a.stepId == step
  }

  predicate IsAttempt(a: Attempt, plan: Id, execution: Id, step: Id, number: nat) {
    OfStep(a, plan, execution, step) && a.number == number
  }

  /** `COALESCE(MAX(attempt_number), 0)` over the attempts of one step. */
  function MaxAttempt(attempts: seq<Attempt>, plan: Id, execution: Id, step: Id): (n: nat)
    ensures forall a :: a in attempts && OfStep(a, plan, execution, step) ==> a.number <= n
    ensures n == 0 || exists a :: a in attempts && OfStep(a, plan, execution, step) && a.number == n
  {
    if attempts == [] then 0
    else
      var m := MaxAttempt(Init(attempts), plan, execution, step);
      var a := Last(attempts);
      assert attempts == Init(attempts) + [a];
      if OfStep(a, plan, execution, step) && a.number > m then a.number else m
  }

  function AutoKey(plan: Id, execution: Id, step: Id, number: nat): string {
    plan + ":" + execution + ":" + step + ":" + Decimal(number)
  }

  function ResolveKey(plan: Id, execution: Id, step: Id, number: nat, effect: SideEffect, key: Option<string>)
    : Option<string>
  {
    if key.None? && effect.ExternalWrite? then Some(AutoKey(plan, execution, step, number)) else key
  }

  predicate KeyTaken(attempts: seq<Attempt>, key: Option<string>) {
    key.Some? && exists a :: a in attempts && a.idempotencyKey == key
  }

  function NewAttempt(t: Tables, plan: Id, execution: Id, step: Id, effect: SideEffect, key: Option<string>, worker: Id)
    : Attempt
  {
    var number := MaxAttempt(t.attempts, plan, execution, step) + 1;
    Attempt(plan, execution, step, number, Running, effect, ResolveKey(plan, execution, step, number, effect, key),
            worker, t.now, t.now + LEASE_DURATION_MS, t.now, t.now, None)
  }

  /** `touchExecutionAttemptMetricsTx`: a missing execution row is left missing. */
  function CountStarted(executions: map<Id, Execution>, execution: Id): map<Id, Execution> {
    if execution !in executions then executions
    else executions[execution := executions[execution].(totalAttempts := executions[execution].totalAttempts + 1)]
  }

  function CountFinalized(executions: map<Id, Execution>, execution: Id, status: AttemptStatus, now: nat)
    : map<Id, Execution>
  {
    if execution !in executions then executions
    else
      var row := executions[execution];
      match status
      case Completed =>
        executions[execution := row.(consecutiveFailures := 0, noProgressAttempts := 0, lastProgressAt := Some(now))]
      case Failed =>
        executions[execution := row.(consecutiveFailures := row.consecutiveFailures + 1,
                                     noProgressAttempts := row.noProgressAttempts + 1)]
      case _ => executions
  }

  /** The table refuses a second attempt with the same idempotency key (`UNIQUE (idempotency_key)`). */
  function CreateAttempt(t: Tables, plan: Id, execution: Id, step: Id, effect: SideEffect, key: Option<string>, worker: Id)
    : Effect<Attempt>
  {
    if Blank(plan) || Blank(execution) || Blank(step) then Effect(t, Err(InvalidState))
    else
      var a := NewAttempt(t, plan, execution, step, effect, key, worker);
      if KeyTaken(t.attempts, a.idempotencyKey) then Effect(t, Err(DbWriteFailed))
      else
        var t' := t.(attempts := t.attempts + [a], executions := CountStarted(t.executions, execution));
        Effect(
          Append(t', AttemptEvent(t, plan, execution, step, a.number,
                                  AttemptStarted(worker, effect, a.idempotencyKey, a.leaseExpiresAt))),
          Ok(a))
  }

  function TouchRows(attempts: seq<Attempt>, plan: Id, execution: Id, step: Id, number: nat, now: nat): (r: seq<Attempt>)
    ensures |r| == |attempts|
  {
    seq(|attempts|, i requires 0 <= i < |attempts| =>
      if IsAttempt(attempts[i], plan, execution, step, number) && attempts[i].status.Running?
      then attempts[i].(heartbeatAt := now, leaseExpiresAt := now + LEASE_DURATION_MS, updatedAt := now)
      else attempts[i])
  }

  predicate HasRunning(attempts: seq<Attempt>, plan: Id, execution: Id, step: Id, number: nat) {
    exists a :: a in attempts && IsAttempt(a, plan, execution, step, number) && a.status.Running?
  }

  /** The attempt row is touched before the lock is renewed, and a refused renewal is returned, not thrown. */
  function HeartbeatAttempt(t: Tables, plan: Id, execution: Id, step: Id, number: nat, worker: Id): Effect<nat> {
    if Blank(plan) || Blank(execution) then Effect(t, Err(InvalidState))
    else if !HasRunning(t.attempts, plan, execution, step, number) then Effect(t, Err(NotFound))
    else
      var touched := t.(attempts := TouchRows(t.attempts, plan, execution, step, number, t.now));
      var renewed := RenewTx(touched, plan, execution, worker);
      if renewed.result.Err? then Effect(renewed.tables, Err(renewed.result.error))
      else
        var expires := t.now + LEASE_DURATION_MS;
        Effect(Append(renewed.tables, AttemptEvent(t, plan, execution, step, number, AttemptHeartbeat(t.now, expires))),
               Ok(expires))
  }

  function FinalizeRows(attempts: seq<Attempt>, plan: Id, execution: Id, step: Id, number: nat, status: AttemptStatus, now: nat)
    : (r: seq<Attempt>)
    ensures |r| == |attempts|
  {
    seq(|attempts|, i requires 0 <= i < |attempts| =>
      if IsAttempt(attempts[i], plan, execution, step, number)
      then attempts[i].(status := status, updatedAt := now, completedAt := Some(now), leaseExpiresAt := now, heartbeatAt := now)
      else attempts[i])
  }

  predicate HasAttempt(attempts: seq<Attempt>, plan: Id, execution: Id, step: Id, number: nat) {
    exists a :: a in attempts && IsAttempt(a, plan, execution, step, number)
  }

  /** Any attempt can be finalised, running or not. */
  function FinalizeAttempt(t: Tables, plan: Id, execution: Id, step: Id, number: nat, status: AttemptStatus): Effect<()> {
    if Blank(plan) || Blank(execution) then Effect(t, Err(InvalidState))
    else if !HasAttempt(t.attempts, plan, execution, step, number) then Effect(t, Err(NotFound))
    else
      var t' := t.(attempts := FinalizeRows(t.attempts, plan, execution, step, number, status, t.now),
                   executions := CountFinalized(t.executions, execution, status, t.now));
      Effect(Append(t', AttemptEvent(t, plan, execution, step, number, AttemptFinalized(status))), Ok(()))
  }

  // ----- Operator recovery queue -----

  function EnqueueRecovery(t: Tables, plan: Id, execution: Id, step: Option<Id>, reason: string, lastState: string, ttlMs: nat)
    : Effect<RecoveryItem>
  {
    if Blank(plan) || Blank(execution) || Blank(reason) || Blank(lastState) then Effect(t, Err(InvalidState))
    else
      var expires := t.now + if ttlMs == 0 then OPERATOR_RECOVERY_TTL_MS else ttlMs;
      var item := RecoveryItem(|t.recovery| + 1, plan, execution, step, reason, lastState, t.now, expires, None);
      Effect(Append(t.(recovery := t.recovery + [item]),
                    Event(plan, Some(execution), step, None, RecoveryEnqueued(expires), t.now)),
             Ok(item))
  }

  predicate Expired(item: RecoveryItem, plan: Option<Id>, now: nat) {
    (plan.None? || item.planId == plan.value) && item.resolvedAt.None? && item.expiresAtMs <= now
  }

  function ExpiredItems(items: seq<RecoveryItem>, plan: Option<Id>, now: nat): (r: seq<RecoveryItem>)
    ensures forall item :: item in r <==> item in items && Expired(item, plan, now)
  {
    if items == [] then []
    else
      assert items == Init(items) + [Last(items)];
      ExpiredItems(Init(items), plan, now) + if Expired(Last(items), plan, now) then [Last(items)] else []
  }

  function ResolveExpired(items: seq<RecoveryItem>, plan: Option<Id>, now: nat): (r: seq<RecoveryItem>)
    ensures |r| == |items|
  {
    seq(|items|, i requires 0 <= i < |items| =>
      if Expired(items[i], plan, now) then items[i].(resolvedAt := Some(now)) else items[i])
  }

  function ExpiryEvents(items: seq<RecoveryItem>, now: nat): (r: seq<Event>)
    ensures |r| == |items|
    ensures forall e :: e in r ==> e.kind.RecoveryExpired?
  {
    seq(|items|, i requires 0 <= i < |items| =>
      Event(items[i].planId, Some(items[i].executionId), items[i].stepId, None,
            RecoveryExpired(items[i].id, items[i].expiresAtMs), now))
  }

  function ExpireRecovery(t: Tables, plan: Option<Id>): Effect<seq<RecoveryItem>> {
    var items := ExpiredItems(t.recovery, plan, t.now);
    Effect(t.(recovery := ResolveExpired(t.recovery, plan, t.now), ledger := t.ledger + ExpiryEvents(items, t.now)),
           Ok(items))
  }

  /** `appendLedgerEvent` as the other modules use it: execution, stage, step, review and operator events. */
  function AppendLifecycle(t: Tables, plan: Id, execution: Option<Id>, step: Option<Id>, name: string): Effect<()> {
    if Blank(plan) || Blank(name) then Effect(t, Err(InvalidState))
    else Effect(Append(t, Event(plan, execution, step, None, Lifecycle(name), t.now)), Ok(()))
  }

  // ----- Runs -----

  datatype Op =
    | OpAcquire(plan: Id, execution: Id, worker: Id)
    | OpAcquireOrReuse(plan: Id, execution: Id, worker: Id)
    | OpRenew(plan: Id, execution: Id, worker: Id)
    | OpRelease(plan: Id, execution: Id, worker: Id)
    | OpCreate(plan: Id, execution: Id, step: Id, effect: SideEffect, key: Option<string>, worker: Id)
    | OpHeartbeat(plan: Id, execution: Id, step: Id, number: nat, worker: Id)
    | OpFinalize(plan: Id, execution: Id, step: Id, number: nat, status: AttemptStatus)
    | OpEnqueue(plan: Id, execution: Id, stepOpt: Option<Id>, reason: string, lastState: string, ttlMs: nat)
    | OpExpire(planOpt: Option<Id>)
    | OpLifecycle(plan: Id, executionOpt: Option<Id>, stepOpt: Option<Id>, name: string)
    | OpTick(ms: nat)

  function Apply(t: Tables, op: Op): Tables {
    match op
    case OpAcquire(p, e, w) => Acquire(t, p, e, w).tables
    case OpAcquireOrReuse(p, e, w) => AcquireOrReuse(t, p, e, w).tables
    case OpRenew(p, e, w) => Renew(t, p, e, w).tables
    case OpRelease(p, e, w) => Release(t, p, e, w).tables
    case OpCreate(p, e, s, effect, key, w) => CreateAttempt(t, p, e, s, effect, key, w).tables
    case OpHeartbeat(p, e, s, n, w) => HeartbeatAttempt(t, p, e, s, n, w).tables
    case OpFinalize(p, e, s, n, status) => FinalizeAttempt(t, p, e, s, n, status).tables
    case OpEnqueue(p, e, s, reason, lastState, ttl) => EnqueueRecovery(t, p, e, s, reason, lastState, ttl).tables
    case OpExpire(p) => ExpireRecovery(t, p).tables
    case OpLifecycle(p, e, s, name) => AppendLifecycle(t, p, e, s, name).tables
    case OpTick(ms) => t.(now := t.now + ms)
  }

  /** The tables after any sequence of operations by any workers; a crash is simply where a sequence stops. */
  function Run(t: Tables, ops: seq<Op>): Tables {
    if ops == [] then t else Apply(Run(t, Init(ops)), Last(ops))
  }

  const Empty := Tables(map[], [], [], map[], [], 0)
}
