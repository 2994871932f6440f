/** Event sourcing: lock rows, attempt statuses and execution rows can be recomputed from the ledger alone. */
module LedgerReplay {
  import opened Common
  import opened ExecutionTables

  datatype Lease = Lease(executionId: Id, workerId: Id, leaseExpiresAt: nat, released: bool)

  /** The last acquired, renewed or released event of a plan decides its lease. */
  function LeaseOf(ledger: seq<Event>, plan: Id): Option<Lease> {
    if ledger == [] then None
    else
      var e := Last(ledger);
      if e.planId != plan || e.executionId.None? then LeaseOf(Init(ledger), plan)
      else match e.kind
        case LeaseAcquired(w, expires) => Some(Lease(e.executionId.value, w, expires, false))
        case LeaseRenewed(w, expires) => Some(Lease(e.executionId.value, w, expires, false))
        case LeaseReleased(w, _, at) => Some(Lease(e.executionId.value, w, at, true))
        case _ => LeaseOf(Init(ledger), plan)
  }

  predicate Concerns(e: Event, plan: Id, execution: Id, step: Id, number: nat) {
    e.planId == plan && e.executionId == Some(execution) && e.stepId == Some(step) && e.attemptNumber == Some(number)
  }

  /** The last started or finalised event of an attempt decides its status. */
  function StatusOf(ledger: seq<Event>, plan: Id, execution: Id, step: Id, number: nat): Option<AttemptStatus> {
    if ledger == [] then None
    else
      var e := Last(ledger);
      if !Concerns(e, plan, execution, step, number) then StatusOf(Init(ledger), plan, execution, step, number)
      else match e.kind
        case AttemptStarted(_, _, _, _) => Some(Running)
        case AttemptFinalized(status) => Some(status)
        case _ => StatusOf(Init(ledger), plan, execution, step, number)
  }

  function StartedCount(ledger: seq<Event>, execution: Id): nat {
    if ledger == [] then 0
    else
      var here := if Last(ledger).executionId == Some(execution) && Last(ledger).kind.AttemptStarted? then 1 else 0;
      StartedCount(Init(ledger), execution) + here
  }

  /** Failures recorded since the execution last completed an attempt. */
  function FailureStreak(ledger: seq<Event>, execution: Id): nat {
    if ledger == [] then 0
    else
      var e := Last(ledger);
      if e.executionId != Some(execution) then FailureStreak(Init(ledger), execution)
      else if e.kind == AttemptFinalized(Completed) then 0
      else if e.kind == AttemptFinalized(Failed) then FailureStreak(Init(ledger), execution) + 1
      else FailureStreak(Init(ledger), execution)
  }

  ghost predicate LocksAgree(t: Tables) {
    forall p :: match LeaseOf(t.ledger, p)
      case None => p !in t.locks
      case Some(l) =>
        && p in t.locks && t.locks[p].executionId == l.executionId && t.locks[p].workerId == l.workerId
        && t.locks[p].leaseExpiresAt == l.leaseExpiresAt && t.locks[p].releasedAt.Some? == l.released
  }

  ghost predicate AttemptsAgree(t: Tables) {
    && (forall a :: a in t.attempts ==> StatusOf(t.ledger, a.planId, a.executionId, a.stepId, a.number) == Some(a.status))
    && (forall p, e, s, n :: StatusOf(t.ledger, p, e, s, n).Some? ==> HasAttempt(t.attempts, p, e, s, n))
  }

  ghost predicate CountersAgree(t: Tables) {
    forall x :: x in t.executions ==>
      && t.executions[x].totalAttempts == StartedCount(t.ledger, x)
      && t.executions[x].consecutiveFailures == FailureStreak(t.ledger, x)
      && t.executions[x].noProgressAttempts == FailureStreak(t.ledger, x)
  }

  /** The tables say what the ledger says. */
  ghost predicate Agrees(t: Tables) {
    LocksAgree(t) && AttemptsAgree(t) && CountersAgree(t)
  }

  /** Events that no fold looks at. */
  predicate IsSilent(e: Event) {
    e.kind.LeaseConflict? || e.kind.AttemptHeartbeat? || e.kind.RecoveryEnqueued? || e.kind.RecoveryExpired? || e.kind.Lifecycle?
  }

  /** A lease conflict, a heartbeat, or a recovery or lifecycle event changes nothing that is replayed. */
  lemma SilentEventChangesNothing(t: Tables, e: Event)
    requires Agrees(t) && IsSilent(e)
    ensures Agrees(Append(t, e))
  {
    var ledger' := t.ledger + [e];
    assert Init(ledger') == t.ledger;
    assert forall p :: LeaseOf(ledger', p) == LeaseOf(t.ledger, p);
    assert forall p, x, s, n :: StatusOf(ledger', p, x, s, n) == StatusOf(t.ledger, p, x, s, n);
  }

  lemma {:induction false} SilentEventsChangeNothing(t: Tables, es: seq<Event>)
    requires Agrees(t) && forall e :: e in es ==> IsSilent(e)
    ensures Agrees(t.(ledger := t.ledger + es))
  {
    if es == [] {
      assert t.ledger + es == t.ledger;
    } else {
      SilentEventsChangeNothing(t, Init(es));
      SilentEventChangesNothing(t.(ledger := t.ledger + Init(es)), Last(es));
      assert t.ledger + es == t.ledger + Init(es) + [Last(es)];
    }
  }

  /** Writing one lock row together with its lease event. */
  lemma LeaseEventAgrees(t: Tables, t': Tables, plan: Id, execution: Id, kind: EventKind)
    requires Agrees(t)
    requires kind.LeaseAcquired? || kind.LeaseRenewed? || kind.LeaseReleased?
    requires plan in t'.locks && t'.locks == t.locks[plan := t'.locks[plan]]
    requires t'.locks[plan].executionId == execution
    requires t'.locks[plan].releasedAt.Some? <==> kind.LeaseReleased?
    requires t'.locks[plan].workerId == kind.workerId
    requires t'.locks[plan].leaseExpiresAt == if kind.LeaseReleased? then kind.lockReleasedAt else kind.leaseExpiresAt
    requires t'.attempts == t.attempts && t'.ledger == t.ledger + [LeaseEvent(t, plan, execution, kind)]
    requires exists o, x :: t'.executions == SyncLease(t.executions, execution, o, x)
    ensures Agrees(t')
  {
    assert Init(t'.ledger) == t.ledger;
    assert forall p :: p != plan ==> LeaseOf(t'.ledger, p) == LeaseOf(t.ledger, p);
    assert forall p, e, s, n :: StatusOf(t'.ledger, p, e, s, n) == StatusOf(t.ledger, p, e, s, n);
  }

  lemma AttemptEventKeepsLocks(t: Tables, t': Tables)
    requires LocksAgree(t) && t'.locks == t.locks && t'.ledger != [] && Init(t'.ledger) == t.ledger
    requires Last(t'.ledger).kind.AttemptStarted? || Last(t'.ledger).kind.AttemptFinalized?
    ensures LocksAgree(t')
  {
    assert forall p :: LeaseOf(t'.ledger, p) == LeaseOf(t.ledger, p);
  }

  lemma StartCounted(t: Tables, t': Tables, execution: Id)
    requires CountersAgree(t) && t'.executions == CountStarted(t.executions, execution)
    requires t'.ledger != [] && Init(t'.ledger) == t.ledger
    requires Last(t'.ledger).executionId == Some(execution) && Last(t'.ledger).kind.AttemptStarted?
    ensures CountersAgree(t')
  {
  }

  lemma CreateAgrees(t: Tables, plan: Id, execution: Id, step: Id, effect: SideEffect, key: Option<string>, worker: Id)
    requires Agrees(t)
    ensures Agrees(CreateAttempt(t, plan, execution, step, effect, key, worker).tables)
  {
    hide LocksAgree, AttemptsAgree, CountersAgree, CountStarted, KeyTaken, Blank;
    var r := CreateAttempt(t, plan, execution, step, effect, key, worker);
    if r.result.Ok? {
      assert Init(r.tables.ledger) == t.ledger;
      CreatedStatusAgrees(t, r.tables, r.result.value);
      AttemptEventKeepsLocks(t, r.tables);
      StartCounted(t, r.tables, execution);
    }
  }

  lemma CreatedStatusAgrees(t: Tables, t': Tables, a: Attempt)
    requires AttemptsAgree(t) && a.status.Running?
    requires a.number > MaxAttempt(t.attempts, a.planId, a.executionId, a.stepId)
    requires t'.attempts == t.attempts + [a] && t'.ledger != [] && Init(t'.ledger) == t.ledger
    requires Concerns(Last(t'.ledger), a.planId, a.executionId, a.stepId, a.number) && Last(t'.ledger).kind.AttemptStarted?
    ensures AttemptsAgree(t')
  {
    forall b | b in t'.attempts
      ensures StatusOf(t'.ledger, b.planId, b.executionId, b.stepId, b.number) == Some(b.status)
    {
      if b in t.attempts {
        assert StatusOf(t.ledger, b.planId, b.executionId, b.stepId, b.number) == Some(b.status);
      }
    }
    forall p, e, s, n | StatusOf(t'.ledger, p, e, s, n).Some?
      ensures HasAttempt(t'.attempts, p, e, s, n)
    {
      if IsAttempt(a, p, e, s, n) {
        assert a in t'.attempts;
      } else {
        assert StatusOf(t.ledger, p, e, s, n).Some?;
        var b :| b in t.attempts && IsAttempt(b, p, e, s, n);
        assert b in t'.attempts;
      }
    }
  }

  lemma EndCounted(t: Tables, t': Tables, execution: Id, status: AttemptStatus)
    requires CountersAgree(t) && t'.executions == CountFinalized(t.executions, execution, status, t.now)
    requires t'.ledger != [] && Init(t'.ledger) == t.ledger
    requires Last(t'.ledger).executionId == Some(execution) && Last(t'.ledger).kind == AttemptFinalized(status)
    ensures CountersAgree(t')
  {
  }

  lemma FinalizedStatusAgrees(t: Tables, t': Tables, plan: Id, execution: Id, step: Id, number: nat, status: AttemptStatus)
    requires AttemptsAgree(t) && HasAttempt(t.attempts, plan, execution, step, number)
    requires t'.attempts == FinalizeRows(t.attempts, plan, execution, step, number, status, t.now)
    requires t'.ledger != [] && Init(t'.ledger) == t.ledger
    requires Concerns(Last(t'.ledger), plan, execution, step, number) && Last(t'.ledger).kind == AttemptFinalized(status)
    ensures AttemptsAgree(t')
  {
    forall a | a in t'.attempts
      ensures StatusOf(t'.ledger, a.planId, a.executionId, a.stepId, a.number) == Some(a.status)
    {
      var i :| 0 <= i < |t'.attempts| && t'.attempts[i] == a;
      assert t.attempts[i] in t.attempts;
    }
    forall p, e, s, n | StatusOf(t'.ledger, p, e, s, n).Some?
      ensures HasAttempt(t'.attempts, p, e, s, n)
    {
      assert HasAttempt(t.attempts, p, e, s, n);
      var i :| 0 <= i < |t.attempts| && IsAttempt(t.attempts[i], p, e, s, n);
      assert t'.attempts[i] in t'.attempts;
    }
  }

  lemma FinalizeAgrees(t: Tables, plan: Id, execution: Id, step: Id, number: nat, status: AttemptStatus)
    requires Agrees(t)
    ensures Agrees(FinalizeAttempt(t, plan, execution, step, number, status).tables)
  {
    hide LocksAgree, AttemptsAgree, CountersAgree, CountFinalized, FinalizeRows, HasAttempt, Blank;
    var r := FinalizeAttempt(t, plan, execution, step, number, status);
    if r.result.Ok? {
      assert Init(r.tables.ledger) == t.ledger;
      AttemptEventKeepsLocks(t, r.tables);
      FinalizedStatusAgrees(t, r.tables, plan, execution, step, number, status);
      EndCounted(t, r.tables, execution, status);
    }
  }

  lemma TouchAgrees(t: Tables, plan: Id, execution: Id, step: Id, number: nat)
    requires Agrees(t)
    ensures Agrees(t.(attempts := TouchRows(t.attempts, plan, execution, step, number, t.now)))
  {
    var rows := TouchRows(t.attempts, plan, execution, step, number, t.now);
    forall a | a in rows
      ensures StatusOf(t.ledger, a.planId, a.executionId, a.stepId, a.number) == Some(a.status)
    {
      var i :| 0 <= i < |rows| && rows[i] == a;
      assert t.attempts[i] in t.attempts;
    }
    forall p, e, s, n | StatusOf(t.ledger, p, e, s, n).Some?
      ensures HasAttempt(rows, p, e, s, n)
    {
      assert HasAttempt(t.attempts, p, e, s, n);
      var i :| 0 <= i < |t.attempts| && IsAttempt(t.attempts[i], p, e, s, n);
      assert rows[i] in rows;
    }
  }

  lemma RenewAgrees(t: Tables, plan: Id, execution: Id, worker: Id)
    requires Agrees(t)
    ensures Agrees(RenewTx(t, plan, execution, worker).tables)
  {
    var r := RenewTx(t, plan, execution, worker);
    if r.result.Ok? {
      LeaseEventAgrees(t, r.tables, plan, execution, LeaseRenewed(worker, t.now + LEASE_DURATION_MS));
    } else if r.tables != t {
      SilentEventChangesNothing(t, ConflictEvent(t, plan, execution, worker));
    }
  }

  lemma WriteLockAgrees(t: Tables, plan: Id, execution: Id, worker: Id, kind: EventKind)
    requires Agrees(t)
    requires kind == LeaseAcquired(worker, t.now + LEASE_DURATION_MS) || kind == LeaseRenewed(worker, t.now + LEASE_DURATION_MS)
    ensures Agrees(WriteLock(t, plan, execution, worker, kind).tables)
  {
    LeaseEventAgrees(t, WriteLock(t, plan, execution, worker, kind).tables, plan, execution, kind);
  }

  lemma ReleaseAgrees(t: Tables, plan: Id, execution: Id, worker: Id)
    requires Agrees(t)
    ensures Agrees(ReleaseTx(t, plan, execution, worker).tables)
  {
    var r := ReleaseTx(t, plan, execution, worker);
    if r.result.Ok? {
      LeaseEventAgrees(t, r.tables, plan, execution, LeaseReleased(t.locks[plan].workerId, worker, t.now));
    }
  }

  lemma AcquireAgrees(t: Tables, plan: Id, execution: Id, worker: Id)
    requires Agrees(t)
    ensures Agrees(Acquire(t, plan, execution, worker).tables)
    ensures Agrees(AcquireOrReuse(t, plan, execution, worker).tables)
  {
    hide Agrees;
    if IsLocked(t, plan) {
      SilentEventChangesNothing(t, ConflictEvent(t, plan, execution, worker));
    }
    WriteLockAgrees(t, plan, execution, worker, LeaseRenewed(worker, t.now + LEASE_DURATION_MS));
    WriteLockAgrees(t, plan, execution, worker, LeaseAcquired(worker, t.now + LEASE_DURATION_MS));
  }

  lemma HeartbeatAgrees(t: Tables, plan: Id, execution: Id, step: Id, number: nat, worker: Id)
    requires Agrees(t)
    ensures Agrees(HeartbeatAttempt(t, plan, execution, step, number, worker).tables)
  {
    hide Agrees;
    var touched := t.(attempts := TouchRows(t.attempts, plan, execution, step, number, t.now));
    TouchAgrees(t, plan, execution, step, number);
    RenewAgrees(touched, plan, execution, worker);
    SilentEventChangesNothing(RenewTx(touched, plan, execution, worker).tables,
      AttemptEvent(t, plan, execution, step, number, AttemptHeartbeat(t.now, t.now + LEASE_DURATION_MS)));
  }

  lemma QueueAgrees(t: Tables, op: Op)
    requires Agrees(t) && (op.OpEnqueue? || op.OpExpire? || op.OpLifecycle? || op.OpTick?)
    ensures Agrees(Apply(t, op))
  {
    match op
    case OpEnqueue(p, e, s, reason, lastState, ttl) =>
      var t' := Apply(t, op);
      if t' != t {
        SilentEventChangesNothing(t, Last(t'.ledger));
      }
    case OpExpire(p) =>
      SilentEventsChangeNothing(t, ExpiryEvents(ExpiredItems(t.recovery, p, t.now), t.now));
    case OpLifecycle(p, e, s, name) =>
      SilentEventChangesNothing(t, Event(p, e, s, None, Lifecycle(name), t.now));
    case OpTick(ms) =>
  }

  /** Every operation, whether it succeeds or is refused, keeps tables and ledger in agreement. */
  lemma ApplyAgrees(t: Tables, op: Op)
    requires Agrees(t)
    ensures Agrees(Apply(t, op))
  {
    match op
    case OpAcquire(p, e, w) => AcquireAgrees(t, p, e, w);
    case OpAcquireOrReuse(p, e, w) => AcquireAgrees(t, p, e, w);
    case OpRenew(p, e, w) => RenewAgrees(t, p, e, w);
    case OpRelease(p, e, w) => ReleaseAgrees(t, p, e, w);
    case OpCreate(p, e, s, effect, key, w) => CreateAgrees(t, p, e, s, effect, key, w);
    case OpHeartbeat(p, e, s, n, w) => HeartbeatAgrees(t, p, e, s, n, w);
    case OpFinalize(p, e, s, n, status) => FinalizeAgrees(t, p, e, s, n, status);
    case _ => QueueAgrees(t, op);
  }

  /** Event-sourcing refinement over whole runs, from any agreeing state. */
  lemma {:induction false} RunAgrees(t: Tables, ops: seq<Op>)
    requires Agrees(t)
    ensures Agrees(Run(t, ops))
  {
    if ops != [] {
      RunAgrees(t, Init(ops));
      ApplyAgrees(Run(t, Init(ops)), Last(ops));
    }
  }

  /** In particular from empty tables beside execution rows whose counters are still zero. */
  lemma ReplayFromScratch(rows: map<Id, Execution>, ops: seq<Op>)
    requires forall x :: x in rows ==>
               rows[x].totalAttempts == 0 && rows[x].consecutiveFailures == 0 && rows[x].noProgressAttempts == 0
    ensures Agrees(Run(Empty.(executions := rows), ops))
  {
    RunAgrees(Empty.(executions := rows), ops);
  }

  predicate HeldByWorker(t: Tables, plan: Id, execution: Id, worker: Id) {
    plan in t.locks && t.locks[plan].executionId == execution && t.locks[plan].releasedAt.None? && t.locks[plan].workerId == worker
  }

  /** The attempt's own lease column is not event-sourced: whoever the lock belongs to, a heartbeat of a running attempt
      moves it; if the renewal is refused, which is exactly when the worker does not hold the lock, the locks stay as they
      are and the ledger gets no attempt event, at most a conflict. */
  lemma RefusedHeartbeatStillExtendsAttemptLease(t: Tables, plan: Id, execution: Id, step: Id, number: nat, worker: Id, i: nat)
    requires !Blank(plan) && !Blank(execution)
    requires i < |t.attempts| && IsAttempt(t.attempts[i], plan, execution, step, number) && t.attempts[i].status.Running?
    ensures var r := HeartbeatAttempt(t, plan, execution, step, number, worker);
      && r.tables.attempts[i].leaseExpiresAt == t.now + LEASE_DURATION_MS
      && (r.result.Err? <==> !HeldByWorker(t, plan, execution, worker))
      && (r.result.Err? ==>
            && r.tables.locks == t.locks
            && (r.tables.ledger == t.ledger || r.tables.ledger == t.ledger + [ConflictEvent(t, plan, execution, worker)]))
  {
    assert t.attempts[i] in t.attempts;
    hide Blank, SyncLease;
  }
}
