/** Which runs of the store keep the attempt check of `collectIntegrityIssues` silent. */
module CleanRuns {
  import opened Common
  import opened ExecutionTables
  import opened AttemptIdentity
  import opened IntegrityChecker

  function Starts(ledger: seq<Event>, plan: Id, execution: Id, step: Id, number: nat): nat {
    StartedIn(EventsOf(ledger, plan, execution, step, number))
  }

  function Finals(ledger: seq<Event>, plan: Id, execution: Id, step: Id, number: nat, status: AttemptStatus): nat {
    FinalizedIn(EventsOf(ledger, plan, execution, step, number), status)
  }

  ghost predicate Unrecorded(ledger: seq<Event>, plan: Id, execution: Id, step: Id, number: nat) {
    Starts(ledger, plan, execution, step, number) == 0
    && forall st :: Finals(ledger, plan, execution, step, number, st) == 0
  }

  /** No events for attempts that do not exist yet. */
  ghost predicate NothingAhead(t: Tables) {
    forall p, e, s, n: nat :: n > MaxAttempt(t.attempts, p, e, s) ==> Unrecorded(t.ledger, p, e, s, n)
  }

  ghost predicate AllAttemptsClean(t: Tables) {
    forall a :: a in t.attempts ==> AttemptClean(a, t.ledger)
  }

  ghost predicate OneRunningPerStep(attempts: seq<Attempt>) {
    forall p, e, s :: RunningCount(RowsOf(attempts, p, e, s)) <= 1
  }

  /** Every attempt of every plan is numbered and recorded properly, and nothing is recorded ahead of time. */
  ghost predicate Recorded(t: Tables) {
    NumberedInOrder(t.attempts) && NothingAhead(t) && AllAttemptsClean(t)
  }

  /** The tables of every plan deserve no complaint. */
  ghost predicate Clean(t: Tables) {
    Recorded(t) && OneRunningPerStep(t.attempts)
  }

  /** The check passes after the operation exactly if this holds before it. */
  predicate Allowed(t: Tables, op: Op) {
    match op
    case OpCreate(p, e, s, effect, key, w) =>
      CreateAttempt(t, p, e, s, effect, key, w).result.Ok? ==>
        RunningCount(RowsOf(t.attempts, p, e, s)) == 0 && !(effect.ExternalWrite? && key == Some(""))
    case OpFinalize(p, e, s, n, status) =>
      FinalizeAttempt(t, p, e, s, n, status).result.Ok? ==> Finals(t.ledger, p, e, s, n, status) == 0
    case _ => true
  }

  /** The four finalisers the store exports end an attempt; none sets it running again. */
  predicate Terminating(op: Op) {
    op.OpFinalize? ==> !op.status.Running?
  }

  // ----- Counting events -----

  lemma OneMoreCount(ledger: seq<Event>, ev: Event, plan: Id, execution: Id, step: Id, number: nat)
    ensures var hit := Names(ev, plan, execution, step, number);
      && Starts(ledger + [ev], plan, execution, step, number)
         == Starts(ledger, plan, execution, step, number) + (if hit && ev.kind.AttemptStarted? then 1 else 0)
      && (forall st :: Finals(ledger + [ev], plan, execution, step, number, st)
                    == Finals(ledger, plan, execution, step, number, st)
                     + (if hit && ev.kind == AttemptFinalized(st) then 1 else 0))
  {
    var events := EventsOf(ledger, plan, execution, step, number);
    assert Init(ledger + [ev]) == ledger;
    assert EventsOf(ledger + [ev], plan, execution, step, number)
        == if Names(ev, plan, execution, step, number) then events + [ev] else events;
    OneMoreEvent(events, ev);
    assert StartedIn([ev]) == if ev.kind.AttemptStarted? then 1 else 0;
    assert forall st :: FinalizedIn([ev], st) == if ev.kind == AttemptFinalized(st) then 1 else 0;
  }

  ghost predicate Silent(events: seq<Event>) {
    forall ev :: ev in events ==> !ev.kind.AttemptStarted? && !ev.kind.AttemptFinalized?
  }

  ghost predicate SameTallyAt(before: seq<Event>, after: seq<Event>, plan: Id, execution: Id, step: Id, number: nat) {
    && Starts(after, plan, execution, step, number) == Starts(before, plan, execution, step, number)
    && forall st :: Finals(after, plan, execution, step, number, st) == Finals(before, plan, execution, step, number, st)
  }

  lemma {:induction false} SilentEventsCountNothing(ledger: seq<Event>, extra: seq<Event>, plan: Id, execution: Id, step: Id, number: nat)
    requires Silent(extra)
    ensures SameTallyAt(ledger, ledger + extra, plan, execution, step, number)
  {
    hide Starts, Finals;
    if extra == [] {
      assert ledger + extra == ledger;
    } else {
      assert extra == Init(extra) + [Last(extra)];
      SilentEventsCountNothing(ledger, Init(extra), plan, execution, step, number);
      assert ledger + extra == ledger + Init(extra) + [Last(extra)];
      OneMoreCount(ledger + Init(extra), Last(extra), plan, execution, step, number);
    }
  }

  // ----- Operations that neither create nor finalise -----

  /** Rows with the same identity and class; `ending` says that no row started running again. */
  ghost predicate SameRows(before: seq<Attempt>, after: seq<Attempt>) {
    |after| == |before| && forall i :: 0 <= i < |before| ==>
      var a, b := before[i], after[i];
      IsAttempt(b, a.planId, a.executionId, a.stepId, a.number)
      && b.sideEffect == a.sideEffect && b.idempotencyKey == a.idempotencyKey && (b.status.Running? ==> a.status.Running?)
  }

  lemma {:induction false} RunningOnlyDrops(before: seq<Attempt>, after: seq<Attempt>, plan: Id, execution: Id, step: Id)
    requires SameRows(before, after)
    ensures RunningCount(RowsOf(after, plan, execution, step)) <= RunningCount(RowsOf(before, plan, execution, step))
  {
    if before != [] {
      RunningOnlyDrops(Init(before), Init(after), plan, execution, step);
      RunningOneMore(before, plan, execution, step);
      RunningOneMore(after, plan, execution, step);
    }
  }

  lemma RunningOneMore(attempts: seq<Attempt>, plan: Id, execution: Id, step: Id)
    requires attempts != []
    ensures RunningCount(RowsOf(attempts, plan, execution, step))
         == RunningCount(RowsOf(Init(attempts), plan, execution, step))
          + (if OfStep(Last(attempts), plan, execution, step) && Last(attempts).status.Running? then 1 else 0)
  {
    var a, rows := Last(attempts), RowsOf(Init(attempts), plan, execution, step);
    if OfStep(a, plan, execution, step) {
      RunningCountSplits(rows, [a]);
      assert Init([a]) == [] && Last([a]) == a;
    } else {
      assert RowsOf(attempts, plan, execution, step) == rows;
    }
  }

  lemma {:induction false} SameRowsSameMax(before: seq<Attempt>, after: seq<Attempt>, plan: Id, execution: Id, step: Id)
    requires SameRows(before, after)
    ensures MaxAttempt(after, plan, execution, step) == MaxAttempt(before, plan, execution, step)
  {
    if before != [] {
      SameRowsSameMax(Init(before), Init(after), plan, execution, step);
    }
  }

  lemma QuietRows(t: Tables, op: Op)
    requires !op.OpCreate? && !op.OpFinalize?
    ensures SameRows(t.attempts, Apply(t, op).attempts)
    ensures forall i :: 0 <= i < |t.attempts| ==> Apply(t, op).attempts[i].status == t.attempts[i].status
  {
    hide HasRunning, Blank, IsLocked, SyncLease, ExpiredItems, ResolveExpired, ExpiryEvents;
    match op
    case OpHeartbeat(p, e, s, n, w) =>
      var touched := t.(attempts := TouchRows(t.attempts, p, e, s, n, t.now));
      assert RenewTx(touched, p, e, w).tables.attempts == touched.attempts;
    case _ =>
  }

  ghost predicate GrowsSilently(before: seq<Event>, after: seq<Event>) {
    |before| <= |after| && after[..|before|] == before && Silent(after[|before|..])
  }

  lemma OneSilentEvent(ledger: seq<Event>, e: Event)
    requires !e.kind.AttemptStarted? && !e.kind.AttemptFinalized?
    ensures GrowsSilently(ledger, ledger) && GrowsSilently(ledger, ledger + [e])
  {
    assert (ledger + [e])[|ledger|..] == [e];
    assert ledger[|ledger|..] == [];
  }

  lemma RenewGrows(t: Tables, plan: Id, execution: Id, worker: Id)
    ensures GrowsSilently(t.ledger, RenewTx(t, plan, execution, worker).tables.ledger)
  {
    hide GrowsSilently, SyncLease;
    OneSilentEvent(t.ledger, LeaseEvent(t, plan, execution, LeaseRenewed(worker, t.now + LEASE_DURATION_MS)));
    if plan in t.locks {
      OneSilentEvent(t.ledger, ConflictEvent(t, plan, execution, worker));
    }
  }

  lemma HeartbeatGrows(t: Tables, plan: Id, execution: Id, step: Id, number: nat, worker: Id)
    ensures GrowsSilently(t.ledger, HeartbeatAttempt(t, plan, execution, step, number, worker).tables.ledger)
  {
    hide TouchRows, HasRunning, Blank, RenewTx;
    var touched := t.(attempts := TouchRows(t.attempts, plan, execution, step, number, t.now));
    RenewGrows(touched, plan, execution, worker);
    var renewed := RenewTx(touched, plan, execution, worker).tables;
    var e := AttemptEvent(t, plan, execution, step, number, AttemptHeartbeat(t.now, t.now + LEASE_DURATION_MS));
    assert Append(renewed, e).ledger[|t.ledger|..] == renewed.ledger[|t.ledger|..] + [e];
    assert t.ledger[|t.ledger|..] == [];
  }

  lemma LockGrows(t: Tables, plan: Id, execution: Id, worker: Id)
    ensures GrowsSilently(t.ledger, Acquire(t, plan, execution, worker).tables.ledger)
    ensures GrowsSilently(t.ledger, AcquireOrReuse(t, plan, execution, worker).tables.ledger)
    ensures GrowsSilently(t.ledger, Release(t, plan, execution, worker).tables.ledger)
  {
    hide GrowsSilently, SyncLease, Blank;
    OneSilentEvent(t.ledger, LeaseEvent(t, plan, execution, LeaseAcquired(worker, t.now + LEASE_DURATION_MS)));
    OneSilentEvent(t.ledger, LeaseEvent(t, plan, execution, LeaseRenewed(worker, t.now + LEASE_DURATION_MS)));
    if plan in t.locks {
      OneSilentEvent(t.ledger, ConflictEvent(t, plan, execution, worker));
      OneSilentEvent(t.ledger, LeaseEvent(t, plan, execution, LeaseReleased(t.locks[plan].workerId, worker, t.now)));
    }
  }

  lemma QuietLedger(t: Tables, op: Op)
    requires !op.OpCreate? && !op.OpFinalize?
    ensures GrowsSilently(t.ledger, Apply(t, op).ledger)
  {
    hide Acquire, AcquireOrReuse, Release, RenewTx, HeartbeatAttempt, ResolveExpired, ExpiredItems, Blank;
    assert t.ledger[|t.ledger|..] == [];
    match op
    case OpAcquire(p, e, w) => LockGrows(t, p, e, w);
    case OpAcquireOrReuse(p, e, w) => LockGrows(t, p, e, w);
    case OpRelease(p, e, w) => LockGrows(t, p, e, w);
    case OpRenew(p, e, w) => RenewGrows(t, p, e, w);
    case OpHeartbeat(p, e, s, n, w) => HeartbeatGrows(t, p, e, s, n, w);
    case OpExpire(p) =>
      var events := ExpiryEvents(ExpiredItems(t.recovery, p, t.now), t.now);
      assert (t.ledger + events)[|t.ledger|..] == events;
    case OpEnqueue(p, e, s, reason, lastState, ttl) =>
      var expires := t.now + if ttl == 0 then OPERATOR_RECOVERY_TTL_MS else ttl;
      OneSilentEvent(t.ledger, Event(p, Some(e), s, None, RecoveryEnqueued(expires), t.now));
    case OpLifecycle(p, e, s, name) => OneSilentEvent(t.ledger, Event(p, e, s, None, Lifecycle(name), t.now));
    case OpTick(_) =>
  }

  /** The rows keep their identity and their status, and the ledger grows by events that are not counted. */
  ghost predicate Quiet(t: Tables, t': Tables) {
    && SameRows(t.attempts, t'.attempts)
    && (forall i :: 0 <= i < |t.attempts| ==> t'.attempts[i].status == t.attempts[i].status)
    && GrowsSilently(t.ledger, t'.ledger)
  }

  lemma QuietOp(t: Tables, op: Op)
    requires !op.OpCreate? && !op.OpFinalize?
    ensures Quiet(t, Apply(t, op))
  {
    hide Apply, SameRows, GrowsSilently;
    QuietRows(t, op);
    QuietLedger(t, op);
  }

  lemma SameRowsNumbered(before: seq<Attempt>, after: seq<Attempt>)
    requires SameRows(before, after) && NumberedInOrder(before)
    ensures NumberedInOrder(after)
  {
    forall p, e, s
      ensures CountsFromOne(Numbers(after, p, e, s))
    {
      SameIdentitiesSameNumbers(before, after, p, e, s);
      assert CountsFromOne(Numbers(before, p, e, s));
    }
  }

  lemma QuietNothingAhead(t: Tables, t': Tables, extra: seq<Event>)
    requires NothingAhead(t) && SameRows(t.attempts, t'.attempts) && Silent(extra) && t'.ledger == t.ledger + extra
    ensures NothingAhead(t')
  {
    hide Starts, Finals;
    forall p, e, s, n: nat | n > MaxAttempt(t'.attempts, p, e, s)
      ensures Unrecorded(t'.ledger, p, e, s, n)
    {
      SameRowsSameMax(t.attempts, t'.attempts, p, e, s);
      SilentEventsCountNothing(t.ledger, extra, p, e, s, n);
      assert Unrecorded(t.ledger, p, e, s, n);
    }
  }

  lemma QuietStaysRecorded(t: Tables, t': Tables)
    requires Recorded(t) && Quiet(t, t')
    ensures Recorded(t')
  {
    SameRowsNumbered(t.attempts, t'.attempts);
    hide Starts, Finals, NumberedInOrder;
    var extra := t'.ledger[|t.ledger|..];
    assert t'.ledger == t.ledger + extra;
    QuietNothingAhead(t, t', extra);
    forall a | a in t'.attempts
      ensures AttemptClean(a, t'.ledger)
    {
      var i :| 0 <= i < |t'.attempts| && t'.attempts[i] == a;
      assert AttemptClean(t.attempts[i], t.ledger);
      SilentEventsCountNothing(t.ledger, extra, a.planId, a.executionId, a.stepId, a.number);
      StillClean(t.attempts[i], t.ledger, a, t'.ledger);
    }
  }

  lemma SameRowsRunOnce(before: seq<Attempt>, after: seq<Attempt>)
    requires OneRunningPerStep(before) && SameRows(before, after)
    ensures OneRunningPerStep(after)
  {
    forall p, e, s
      ensures RunningCount(RowsOf(after, p, e, s)) <= 1
    {
      RunningOnlyDrops(before, after, p, e, s);
      assert RunningCount(RowsOf(before, p, e, s)) <= 1;
    }
  }

  lemma QuietKeepsClean(t: Tables, op: Op)
    requires Clean(t) && !op.OpCreate? && !op.OpFinalize?
    ensures Clean(Apply(t, op))
  {
    hide Apply, OneRunningPerStep, Recorded;
    QuietOp(t, op);
    QuietStaysRecorded(t, Apply(t, op));
    SameRowsRunOnce(t.attempts, Apply(t, op).attempts);
  }

  lemma StillClean(a: Attempt, before: seq<Event>, b: Attempt, after: seq<Event>)
    requires IsAttempt(b, a.planId, a.executionId, a.stepId, a.number) && b.status == a.status
    requires b.sideEffect == a.sideEffect && b.idempotencyKey == a.idempotencyKey
    requires SameTallyAt(before, after, a.planId, a.executionId, a.stepId, a.number)
    ensures AttemptClean(b, after) <==> AttemptClean(a, before)
  {
    assert Finals(after, a.planId, a.executionId, a.stepId, a.number, a.status)
        == Finals(before, a.planId, a.executionId, a.stepId, a.number, a.status);
  }

  // ----- Creating an attempt -----

  lemma CreateKeepsRecorded(t: Tables, op: Op)
    requires Recorded(t) && op.OpCreate?
    requires CreateAttempt(t, op.plan, op.execution, op.step, op.effect, op.key, op.worker).result.Ok?
    ensures Recorded(Apply(t, op)) <==> !(op.effect.ExternalWrite? && op.key == Some(""))
  {
    var made := CreateAttempt(t, op.plan, op.execution, op.step, op.effect, op.key, op.worker);
    var a := made.result.value;
    var ev := AttemptEvent(t, a.planId, a.executionId, a.stepId, a.number,
                           AttemptStarted(a.workerId, a.sideEffect, a.idempotencyKey, a.leaseExpiresAt));
    ApplyKeepsNumbering(t, op);
    assert Apply(t, op) == made.tables;
    assert made.tables.attempts == t.attempts + [a] && made.tables.ledger == t.ledger + [ev];
    assert HasKeyIfNeeded(a) <==> !(op.effect.ExternalWrite? && op.key == Some("")) by {
      AutoKeyIsNotEmpty(a);
    }
    CreatedRowIsRecorded(t, made.tables, a, ev);
  }

  lemma AutoKeyIsNotEmpty(a: Attempt)
    ensures AutoKey(a.planId, a.executionId, a.stepId, a.number) != ""
  {
    assert |Decimal(a.number)| > 0;
  }

  lemma CreatedRowIsRecorded(t: Tables, t': Tables, a: Attempt, ev: Event)
    requires Recorded(t) && NumberedInOrder(t'.attempts) && a.status.Running?
    requires t'.attempts == t.attempts + [a] && t'.ledger == t.ledger + [ev]
    requires a.number == MaxAttempt(t.attempts, a.planId, a.executionId, a.stepId) + 1
    requires Names(ev, a.planId, a.executionId, a.stepId, a.number) && ev.kind.AttemptStarted?
    ensures Recorded(t') <==> HasKeyIfNeeded(a)
  {
    hide NumberedInOrder;
    assert Last(t'.attempts) == a && a in t'.attempts;
    assert Unrecorded(t.ledger, a.planId, a.executionId, a.stepId, a.number);
    OneMoreCount(t.ledger, ev, a.planId, a.executionId, a.stepId, a.number);
    assert AttemptClean(a, t'.ledger) <==> HasKeyIfNeeded(a);
    CreatedRowLeavesOthers(t, t', a, ev);
    forall b | b in t.attempts
      ensures AttemptClean(b, t'.ledger)
    {
      StillClean(b, t.ledger, b, t'.ledger);
    }
  }

  lemma CreatedRowLeavesOthers(t: Tables, t': Tables, a: Attempt, ev: Event)
    requires NothingAhead(t)
    requires t'.attempts == t.attempts + [a] && t'.ledger == t.ledger + [ev]
    requires a.number == MaxAttempt(t.attempts, a.planId, a.executionId, a.stepId) + 1
    requires Names(ev, a.planId, a.executionId, a.stepId, a.number)
    ensures NothingAhead(t')
    ensures forall b :: b in t.attempts ==> SameTallyAt(t.ledger, t'.ledger, b.planId, b.executionId, b.stepId, b.number)
  {
    hide Starts, Finals, StartedIn, FinalizedIn, EventsOf;
    assert Init(t'.attempts) == t.attempts && Last(t'.attempts) == a;
    forall p, e, s, n: nat | n > MaxAttempt(t'.attempts, p, e, s)
      ensures Unrecorded(t'.ledger, p, e, s, n)
    {
      OneMoreCount(t.ledger, ev, p, e, s, n);
      assert Unrecorded(t.ledger, p, e, s, n);
    }
    forall b | b in t.attempts
      ensures SameTallyAt(t.ledger, t'.ledger, b.planId, b.executionId, b.stepId, b.number)
    {
      OneMoreCount(t.ledger, ev, b.planId, b.executionId, b.stepId, b.number);
    }
  }

  /** One more running attempt keeps the limit exactly when its step had none. */
  lemma CreatedRowRunsOnce(before: seq<Attempt>, a: Attempt)
    requires OneRunningPerStep(before) && a.status.Running?
    ensures OneRunningPerStep(before + [a]) <==> RunningCount(RowsOf(before, a.planId, a.executionId, a.stepId)) == 0
  {
    var after := before + [a];
    assert Init(after) == before && Last(after) == a;
    RunningOneMore(after, a.planId, a.executionId, a.stepId);
    if RunningCount(RowsOf(before, a.planId, a.executionId, a.stepId)) == 0 {
      forall p, e, s
        ensures RunningCount(RowsOf(after, p, e, s)) <= 1
      {
        RunningOneMore(after, p, e, s);
        assert RunningCount(RowsOf(before, p, e, s)) <= 1;
      }
    }
  }

  lemma CreateKeepsClean(t: Tables, op: Op)
    requires Clean(t) && op.OpCreate?
    ensures Clean(Apply(t, op)) <==> Allowed(t, op)
  {
    hide Recorded, OneRunningPerStep, RunningCount, RowsOf;
    var made := CreateAttempt(t, op.plan, op.execution, op.step, op.effect, op.key, op.worker);
    if made.result.Ok? {
      CreateKeepsRecorded(t, op);
      CreatedRowRunsOnce(t.attempts, made.result.value);
      assert Apply(t, op) == made.tables && made.tables.attempts == t.attempts + [made.result.value];
    }
  }

  // ----- Finalising an attempt -----

  lemma FinalizeKeepsRecorded(t: Tables, op: Op)
    requires Recorded(t) && op.OpFinalize? && !op.status.Running?
    requires FinalizeAttempt(t, op.plan, op.execution, op.step, op.number, op.status).result.Ok?
    ensures SameRows(t.attempts, Apply(t, op).attempts)
    ensures Recorded(Apply(t, op)) <==> Finals(t.ledger, op.plan, op.execution, op.step, op.number, op.status) == 0
  {
    var t' := FinalizeAttempt(t, op.plan, op.execution, op.step, op.number, op.status).tables;
    var ev := AttemptEvent(t, op.plan, op.execution, op.step, op.number, AttemptFinalized(op.status));
    assert Apply(t, op) == t' && t'.ledger == t.ledger + [ev];
    ApplyKeepsNumbering(t, op);
    FinalizedRowsStayOrdered(t, t', op, ev);
    assert Recorded(t') <==> AllAttemptsClean(t');
    OneMoreCount(t.ledger, ev, op.plan, op.execution, op.step, op.number);
    forall i | 0 <= i < |t.attempts|
      ensures AttemptClean(t'.attempts[i], t'.ledger) <==>
        (IsAttempt(t.attempts[i], op.plan, op.execution, op.step, op.number) ==>
           Finals(t.ledger, op.plan, op.execution, op.step, op.number, op.status) == 0)
    {
      FinalizedRow(t, t', op, ev, i);
    }
    var a :| a in t.attempts && IsAttempt(a, op.plan, op.execution, op.step, op.number);
    var k :| 0 <= k < |t.attempts| && t.attempts[k] == a;
    assert t'.attempts[k] in t'.attempts;
  }

  lemma FinalizedRowsStayOrdered(t: Tables, t': Tables, op: Op, ev: Event)
    requires NothingAhead(t) && op.OpFinalize? && !op.status.Running?
    requires t' == FinalizeAttempt(t, op.plan, op.execution, op.step, op.number, op.status).tables
    requires HasAttempt(t.attempts, op.plan, op.execution, op.step, op.number)
    requires t'.ledger == t.ledger + [ev] && Names(ev, op.plan, op.execution, op.step, op.number)
    ensures NothingAhead(t') && SameRows(t.attempts, t'.attempts)
  {
    hide Starts, Finals, EventsOf;
    assert SameRows(t.attempts, t'.attempts);
    forall p, e, s, n: nat | n > MaxAttempt(t'.attempts, p, e, s)
      ensures Unrecorded(t'.ledger, p, e, s, n)
    {
      SameRowsSameMax(t.attempts, t'.attempts, p, e, s);
      OneMoreCount(t.ledger, ev, p, e, s, n);
      assert Unrecorded(t.ledger, p, e, s, n);
    }
  }

  lemma FinalizedRow(t: Tables, t': Tables, op: Op, ev: Event, i: nat)
    requires AllAttemptsClean(t) && op.OpFinalize? && !op.status.Running? && i < |t.attempts|
    requires t'.attempts == FinalizeRows(t.attempts, op.plan, op.execution, op.step, op.number, op.status, t.now)
    requires t'.ledger == t.ledger + [ev] && Names(ev, op.plan, op.execution, op.step, op.number)
    requires ev.kind == AttemptFinalized(op.status)
    ensures AttemptClean(t'.attempts[i], t'.ledger) <==>
      (IsAttempt(t.attempts[i], op.plan, op.execution, op.step, op.number) ==>
         Finals(t.ledger, op.plan, op.execution, op.step, op.number, op.status) == 0)
  {
    var a, b := t.attempts[i], t'.attempts[i];
    assert AttemptClean(a, t.ledger);
    OneMoreCount(t.ledger, ev, a.planId, a.executionId, a.stepId, a.number);
    if !IsAttempt(a, op.plan, op.execution, op.step, op.number) {
      StillClean(a, t.ledger, b, t'.ledger);
    }
  }

  lemma FinalizeKeepsClean(t: Tables, op: Op)
    requires Clean(t) && op.OpFinalize? && !op.status.Running?
    ensures Clean(Apply(t, op)) <==> Allowed(t, op)
  {
    hide Recorded, OneRunningPerStep, Finals;
    var ended := FinalizeAttempt(t, op.plan, op.execution, op.step, op.number, op.status);
    if ended.result.Ok? {
      FinalizeKeepsRecorded(t, op);
      SameRowsRunOnce(t.attempts, ended.tables.attempts);
    }
  }

  // ----- Main results -----

  /** One operation on tables that pass the check leaves tables that pass it if and only if the operation is allowed. */
  lemma AllowedExactlyKeepsClean(t: Tables, op: Op)
    requires Clean(t) && Terminating(op)
    ensures Clean(Apply(t, op)) <==> Allowed(t, op)
  {
    if op.OpCreate? {
      CreateKeepsClean(t, op);
    } else if op.OpFinalize? {
      FinalizeKeepsClean(t, op);
    } else {
      QuietKeepsClean(t, op);
    }
  }

  /** An attempt is finalised only while it runs, and none starts with an unusable key. */
  predicate Orderly(t: Tables, op: Op) {
    match op
    case OpCreate(p, e, s, effect, key, w) => !(effect.ExternalWrite? && key == Some(""))
    case OpFinalize(p, e, s, n, status) => !status.Running? && HasRunning(t.attempts, p, e, s, n)
    case _ => true
  }

  /** Moreover an attempt starts only while none of its step runs. */
  predicate Disciplined(t: Tables, op: Op) {
    Orderly(t, op) && (op.OpCreate? ==> RunningCount(RowsOf(t.attempts, op.plan, op.execution, op.step)) == 0)
  }

  /** Every operation of the run was orderly, or disciplined, where it happened. */
  ghost predicate OrderlyRun(t: Tables, ops: seq<Op>) {
    ops == [] || (OrderlyRun(t, Init(ops)) && Orderly(Run(t, Init(ops)), Last(ops)))
  }

  ghost predicate DisciplinedRun(t: Tables, ops: seq<Op>) {
    ops == [] || (DisciplinedRun(t, Init(ops)) && Disciplined(Run(t, Init(ops)), Last(ops)))
  }

  ghost predicate Unended(ledger: seq<Event>, a: Attempt) {
    forall st :: Finals(ledger, a.planId, a.executionId, a.stepId, a.number, st) == 0
  }

  ghost predicate RunningUnended(t: Tables) {
    forall a :: a in t.attempts && a.status.Running? ==> Unended(t.ledger, a)
  }

  /** What orderly operations keep: proper records, no end on record for a running attempt, no record without its row. */
  ghost predicate InOrder(t: Tables) {
    Recorded(t) && RunningUnended(t) && EventsNameRows(t.attempts, t.ledger)
  }

  lemma QuietKeepsOrder(t: Tables, t': Tables)
    requires InOrder(t) && Quiet(t, t')
    ensures InOrder(t')
  {
    var extra := t'.ledger[|t.ledger|..];
    assert t'.ledger == t.ledger + extra;
    QuietStaysRecorded(t, t');
    SilentKeepsNames(t.attempts, t'.attempts, t.ledger, extra);
    forall b | b in t'.attempts && b.status.Running?
      ensures Unended(t'.ledger, b)
    {
      SilentEventsCountNothing(t.ledger, extra, b.planId, b.executionId, b.stepId, b.number);
      var i :| 0 <= i < |t'.attempts| && t'.attempts[i] == b;
      assert Unended(t.ledger, t.attempts[i]);
    }
  }

  lemma OrderlyKeepsOrder(t: Tables, op: Op)
    requires InOrder(t) && Orderly(t, op)
    ensures InOrder(Apply(t, op))
  {
    hide Apply, Recorded, EventsNameRows, Quiet;
    if op.OpCreate? {
      CreateKeepsOrder(t, op);
    } else if op.OpFinalize? {
      FinalizeKeepsOrder(t, op);
    } else {
      QuietOp(t, op);
      QuietKeepsOrder(t, Apply(t, op));
    }
  }

  lemma CreateKeepsOrder(t: Tables, op: Op)
    requires InOrder(t) && Orderly(t, op) && op.OpCreate?
    ensures InOrder(Apply(t, op))
  {
    hide NumberedInOrder, NothingAhead, AllAttemptsClean, EventsNameRows;
    CreateNamesItsRow(t, op);
    if CreateAttempt(t, op.plan, op.execution, op.step, op.effect, op.key, op.worker).result.Ok? {
      CreateKeepsRecorded(t, op);
    }
    forall b | b in Apply(t, op).attempts && b.status.Running?
      ensures Unended(Apply(t, op).ledger, b)
    {
      CreatedUnended(t, op, b);
    }
  }

  lemma FinalizeKeepsOrder(t: Tables, op: Op)
    requires InOrder(t) && Orderly(t, op) && op.OpFinalize?
    ensures InOrder(Apply(t, op))
  {
    hide Recorded, EventsNameRows;
    FinalizeNamesItsRow(t, op);
    var a :| a in t.attempts && IsAttempt(a, op.plan, op.execution, op.step, op.number) && a.status.Running?;
    assert Unended(t.ledger, a);
    if FinalizeAttempt(t, op.plan, op.execution, op.step, op.number, op.status).result.Ok? {
      FinalizeKeepsRecorded(t, op);
    }
    forall b | b in Apply(t, op).attempts && b.status.Running?
      ensures Unended(Apply(t, op).ledger, b)
    {
      FinalizedUnended(t, op, b);
    }
  }

  lemma CreatedUnended(t: Tables, op: Op, b: Attempt)
    requires NothingAhead(t) && RunningUnended(t) && op.OpCreate?
    requires b in Apply(t, op).attempts && b.status.Running?
    ensures Unended(Apply(t, op).ledger, b)
  {
    hide Starts, Finals;
    var made := CreateAttempt(t, op.plan, op.execution, op.step, op.effect, op.key, op.worker);
    assert Apply(t, op) == made.tables;
    if made.result.Ok? {
      var a := made.result.value;
      var ev := AttemptEvent(t, a.planId, a.executionId, a.stepId, a.number,
                             AttemptStarted(a.workerId, a.sideEffect, a.idempotencyKey, a.leaseExpiresAt));
      assert made.tables.attempts == t.attempts + [a] && made.tables.ledger == t.ledger + [ev];
      OneMoreCount(t.ledger, ev, b.planId, b.executionId, b.stepId, b.number);
      if b in t.attempts {
        assert Unended(t.ledger, b);
      } else {
        assert Unrecorded(t.ledger, b.planId, b.executionId, b.stepId, b.number);
      }
    } else {
      assert Unended(t.ledger, b);
    }
  }

  lemma FinalizedUnended(t: Tables, op: Op, b: Attempt)
    requires RunningUnended(t) && op.OpFinalize? && !op.status.Running?
    requires b in Apply(t, op).attempts && b.status.Running?
    ensures Unended(Apply(t, op).ledger, b)
  {
    hide Starts, Finals;
    var t' := Apply(t, op);
    var i :| 0 <= i < |t'.attempts| && t'.attempts[i] == b;
    assert t.attempts[i] == b && b in t.attempts;
    assert Unended(t.ledger, b);
    var ev := AttemptEvent(t, op.plan, op.execution, op.step, op.number, AttemptFinalized(op.status));
    OneMoreCount(t.ledger, ev, b.planId, b.executionId, b.stepId, b.number);
  }

  lemma {:induction false} OrderlyRunsStayInOrder(t: Tables, ops: seq<Op>)
    requires InOrder(t) && OrderlyRun(t, ops)
    ensures InOrder(Run(t, ops))
  {
    if ops != [] {
      OrderlyRunsStayInOrder(t, Init(ops));
      OrderlyKeepsOrder(Run(t, Init(ops)), Last(ops));
    }
  }

  // ----- What every run keeps -----

  /** Every finaliser ends an attempt, and none starts with an unusable key. */
  predicate Usable(op: Op) {
    match op
    case OpCreate(p, e, s, effect, key, w) => !(effect.ExternalWrite? && key == Some(""))
    case OpFinalize(p, e, s, n, status) => !status.Running?
    case _ => true
  }

  ghost predicate AllStartedOnce(t: Tables) {
    forall a :: a in t.attempts ==> HasKeyIfNeeded(a) && Started(t.ledger, a) == 1
  }

  /** Numbers, starts and keys as they should be, no end on record for a running attempt, no record without its row. */
  ghost predicate Tracked(t: Tables) {
    NumberedInOrder(t.attempts) && NothingAhead(t) && AllStartedOnce(t) && RunningUnended(t) && EventsNameRows(t.attempts, t.ledger)
  }

  /** Every attempt of the plan that has ended has one end on record with the status it has. */
  ghost predicate EndedOnce(t: Tables, plan: Id) {
    forall a :: a in t.attempts && a.planId == plan && !a.status.Running? ==> Finalized(t.ledger, a, a.status) == 1
  }

  lemma InOrderIsTracked(t: Tables)
    ensures InOrder(t) ==> Tracked(t) && forall plan :: EndedOnce(t, plan)
    ensures Tracked(t) && (forall a :: a in t.attempts ==> EndedOnce(t, a.planId)) ==> InOrder(t)
  {
    hide NumberedInOrder, NothingAhead, EventsNameRows, RunningUnended, Started, Finalized;
    if Tracked(t) && forall a :: a in t.attempts ==> EndedOnce(t, a.planId) {
      forall a | a in t.attempts
        ensures AttemptClean(a, t.ledger)
      {
        assert EndedOnce(t, a.planId);
      }
    }
  }

  lemma QuietKeepsTracked(t: Tables, t': Tables)
    requires Tracked(t) && Quiet(t, t')
    ensures Tracked(t')
  {
    var extra := t'.ledger[|t.ledger|..];
    assert t'.ledger == t.ledger + extra;
    SameRowsNumbered(t.attempts, t'.attempts);
    SilentKeepsNames(t.attempts, t'.attempts, t.ledger, extra);
    QuietNothingAhead(t, t', extra);
    hide NumberedInOrder, EventsNameRows, NothingAhead;
    forall b | b in t'.attempts
      ensures HasKeyIfNeeded(b) && Started(t'.ledger, b) == 1 && (b.status.Running? ==> Unended(t'.ledger, b))
    {
      var i :| 0 <= i < |t'.attempts| && t'.attempts[i] == b;
      SilentEventsCountNothing(t.ledger, extra, b.planId, b.executionId, b.stepId, b.number);
      assert t.attempts[i] in t.attempts;
      assert b.status.Running? ==> Unended(t.ledger, t.attempts[i]);
    }
  }

  lemma UsableKeepsTracked(t: Tables, op: Op)
    requires Tracked(t) && Usable(op)
    ensures Tracked(Apply(t, op))
  {
    hide Apply, Tracked, Quiet;
    if op.OpCreate? {
      CreateKeepsTracked(t, op);
    } else if op.OpFinalize? {
      FinalizeKeepsTracked(t, op);
    } else {
      QuietOp(t, op);
      QuietKeepsTracked(t, Apply(t, op));
    }
  }

  lemma CreateKeepsTracked(t: Tables, op: Op)
    requires Tracked(t) && Usable(op) && op.OpCreate?
    ensures Tracked(Apply(t, op))
  {
    hide NumberedInOrder, EventsNameRows, NothingAhead, Unended, AllStartedOnce;
    ApplyKeepsNumbering(t, op);
    CreateNamesItsRow(t, op);
    CreateKeepsStarts(t, op);
    forall b | b in Apply(t, op).attempts && b.status.Running?
      ensures Unended(Apply(t, op).ledger, b)
    {
      CreatedUnended(t, op, b);
    }
  }

  lemma CreateKeepsStarts(t: Tables, op: Op)
    requires AllStartedOnce(t) && NothingAhead(t) && Usable(op) && op.OpCreate?
    ensures AllStartedOnce(Apply(t, op)) && NothingAhead(Apply(t, op))
  {
    hide NothingAhead, Started, AutoKey, MaxAttempt;
    var made := CreateAttempt(t, op.plan, op.execution, op.step, op.effect, op.key, op.worker);
    if made.result.Ok? {
      var a := made.result.value;
      var ev := AttemptEvent(t, a.planId, a.executionId, a.stepId, a.number,
                             AttemptStarted(a.workerId, a.sideEffect, a.idempotencyKey, a.leaseExpiresAt));
      assert Apply(t, op) == made.tables && made.tables.attempts == t.attempts + [a] && made.tables.ledger == t.ledger + [ev];
      CreatedRowLeavesOthers(t, made.tables, a, ev);
      CreatedStartsOnce(t, made.tables, a, ev);
      AutoKeyIsNotEmpty(a);
      forall b | b in t.attempts
        ensures Started(made.tables.ledger, b) == 1
      {
        SameTallySameStarts(t.ledger, made.tables.ledger, b);
      }
    }
  }

  lemma SameTallySameStarts(before: seq<Event>, after: seq<Event>, a: Attempt)
    requires SameTallyAt(before, after, a.planId, a.executionId, a.stepId, a.number)
    ensures Started(after, a) == Started(before, a)
  {
  }

  lemma CreatedStartsOnce(t: Tables, t': Tables, a: Attempt, ev: Event)
    requires NothingAhead(t) && t'.ledger == t.ledger + [ev]
    requires a.number == MaxAttempt(t.attempts, a.planId, a.executionId, a.stepId) + 1
    requires Names(ev, a.planId, a.executionId, a.stepId, a.number) && ev.kind.AttemptStarted?
    ensures Started(t'.ledger, a) == 1
  {
    hide Finals;
    assert Unrecorded(t.ledger, a.planId, a.executionId, a.stepId, a.number);
    OneMoreCount(t.ledger, ev, a.planId, a.executionId, a.stepId, a.number);
  }

  lemma FinalizeKeepsTracked(t: Tables, op: Op)
    requires Tracked(t) && Usable(op) && op.OpFinalize?
    ensures Tracked(Apply(t, op))
  {
    var ended := FinalizeAttempt(t, op.plan, op.execution, op.step, op.number, op.status);
    ApplyKeepsNumbering(t, op);
    FinalizeNamesItsRow(t, op);
    forall b | b in Apply(t, op).attempts && b.status.Running?
      ensures Unended(Apply(t, op).ledger, b)
    {
      FinalizedUnended(t, op, b);
    }
    if ended.result.Ok? {
      var ev := AttemptEvent(t, op.plan, op.execution, op.step, op.number, AttemptFinalized(op.status));
      assert Apply(t, op) == ended.tables && ended.tables.ledger == t.ledger + [ev];
      FinalizedRowsStayOrdered(t, ended.tables, op, ev);
      hide NumberedInOrder, EventsNameRows, NothingAhead, Unended;
      forall b | b in ended.tables.attempts
        ensures HasKeyIfNeeded(b) && Started(ended.tables.ledger, b) == 1
      {
        var i :| 0 <= i < |ended.tables.attempts| && ended.tables.attempts[i] == b;
        assert t.attempts[i] in t.attempts;
        OneMoreCount(t.ledger, ev, b.planId, b.executionId, b.stepId, b.number);
      }
    }
  }

  ghost predicate UsableRun(ops: seq<Op>) {
    forall i :: 0 <= i < |ops| ==> Usable(ops[i])
  }

  lemma {:induction false} UsableRunsStayTracked(t: Tables, ops: seq<Op>)
    requires Tracked(t) && UsableRun(ops)
    ensures Tracked(Run(t, ops))
  {
    hide Tracked, Apply;
    if ops != [] {
      UsableRunsStayTracked(t, Init(ops));
      UsableKeepsTracked(Run(t, Init(ops)), Last(ops));
    }
  }

  lemma DisciplineIsAllowed(t: Tables, op: Op)
    requires InOrder(t) && Disciplined(t, op)
    ensures Allowed(t, op) && Terminating(op)
  {
    if op.OpFinalize? {
      var a :| a in t.attempts && IsAttempt(a, op.plan, op.execution, op.step, op.number) && a.status.Running?;
      assert Unended(t.ledger, a);
    }
  }

  lemma {:induction false} DisciplinedRunsStayClean(t: Tables, ops: seq<Op>)
    requires Clean(t) && InOrder(t) && DisciplinedRun(t, ops)
    ensures Clean(Run(t, ops)) && InOrder(Run(t, ops)) && OrderlyRun(t, ops)
  {
    hide Clean, InOrder, Apply;
    if ops != [] {
      DisciplinedRunsStayClean(t, Init(ops));
      var before := Run(t, Init(ops));
      DisciplineIsAllowed(before, Last(ops));
      AllowedExactlyKeepsClean(before, Last(ops));
      OrderlyKeepsOrder(before, Last(ops));
    }
  }

  // ----- From clean tables to a silent check -----

  lemma {:induction false} RowsCarryTheNumbers(attempts: seq<Attempt>, plan: Id, execution: Id, step: Id)
    ensures NumbersOf(RowsOf(attempts, plan, execution, step)) == Numbers(attempts, plan, execution, step)
  {
    if attempts != [] {
      RowsCarryTheNumbers(Init(attempts), plan, execution, step);
    }
  }

  lemma NumberedPlans(t: Tables, plan: Id)
    requires NumberedInOrder(t.attempts)
    ensures PlanNumbered(t.attempts, plan)
  {
    forall e, s
      ensures CompleteNumbering(RowsOf(t.attempts, plan, e, s))
    {
      RowsCarryTheNumbers(t.attempts, plan, e, s);
      assert CountsFromOne(Numbers(t.attempts, plan, e, s));
      var rows := RowsOf(t.attempts, plan, e, s);
      assert NumbersOf(rows) == UpTo(|rows|);
    }
  }

  /** What can be wrong with tracked tables. */
  lemma TrackedConsistent(t: Tables, plan: Id)
    requires Tracked(t)
    ensures PlanConsistent(t.attempts, t.ledger, plan) <==> OneRunning(t.attempts, plan) && EndedOnce(t, plan)
  {
    NumberedPlans(t, plan);
    hide NumberedInOrder, EventsNameRows, NothingAhead, RunningUnended, CompleteNumbering, RunningCount, Started, Finalized;
    if PlanConsistent(t.attempts, t.ledger, plan) {
      forall a | a in t.attempts && a.planId == plan && !a.status.Running?
        ensures Finalized(t.ledger, a, a.status) == 1
      {
        assert StepClean(t.attempts, t.ledger, plan, a.executionId, a.stepId);
        assert a in RowsOf(t.attempts, plan, a.executionId, a.stepId);
      }
      forall e, s
        ensures RunningCount(RowsOf(t.attempts, plan, e, s)) <= 1
      {
        assert StepClean(t.attempts, t.ledger, plan, e, s);
      }
    }
  }

  lemma TrackedCheck(t: Tables, plan: Id)
    requires Tracked(t)
    ensures KeyedConsistent(PlanRows(t.attempts, plan), PlanEvents(t.ledger, plan))
       <==> JoinsDistinct(t.attempts, plan) && OneRunning(t.attempts, plan) && EndedOnce(t, plan)
  {
    TrackedConsistent(t, plan);
    NumberedPlans(t, plan);
    hide NothingAhead, AllStartedOnce, RunningUnended, NumberedInOrder, EventsNameRows, KeyedConsistent, PlanConsistent, PlanNumbered,
         JoinsDistinct, OneRunning, EndedOnce;
    CheckSilentExactly(t.attempts, t.ledger, plan);
  }

  lemma SilentKeepsNames(attempts: seq<Attempt>, after: seq<Attempt>, ledger: seq<Event>, extra: seq<Event>)
    requires EventsNameRows(attempts, ledger) && SameRows(attempts, after) && Silent(extra)
    ensures EventsNameRows(after, ledger + extra)
  {
    forall e | e in ledger && Counted(e)
      ensures NamesRow(e, after)
    {
      assert NamesRow(e, attempts);
      var a :| a in attempts && Names(e, a.planId, a.executionId, a.stepId, a.number);
      var i :| 0 <= i < |attempts| && attempts[i] == a;
      assert after[i] in after;
    }
  }

  lemma CreateNamesItsRow(t: Tables, op: Op)
    requires EventsNameRows(t.attempts, t.ledger) && op.OpCreate?
    ensures EventsNameRows(Apply(t, op).attempts, Apply(t, op).ledger)
  {
    var made := CreateAttempt(t, op.plan, op.execution, op.step, op.effect, op.key, op.worker);
    if made.result.Ok? {
      var a := made.result.value;
      assert made.tables.attempts == t.attempts + [a] && a in made.tables.attempts;
      forall e | e in t.ledger && Counted(e)
        ensures NamesRow(e, made.tables.attempts)
      {
        assert NamesRow(e, t.attempts);
      }
      assert NamesRow(Last(made.tables.ledger), made.tables.attempts);
    }
  }

  lemma FinalizeNamesItsRow(t: Tables, op: Op)
    requires EventsNameRows(t.attempts, t.ledger) && op.OpFinalize?
    ensures EventsNameRows(Apply(t, op).attempts, Apply(t, op).ledger)
  {
    var ended := FinalizeAttempt(t, op.plan, op.execution, op.step, op.number, op.status);
    if ended.result.Ok? {
      var after := ended.tables.attempts;
      forall e | e in ended.tables.ledger && Counted(e)
        ensures NamesRow(e, after)
      {
        if e in t.ledger {
          assert NamesRow(e, t.attempts);
        } else {
          assert e == Last(ended.tables.ledger);
        }
        var a :| a in t.attempts && Names(e, a.planId, a.executionId, a.stepId, a.number);
        var i :| 0 <= i < |t.attempts| && t.attempts[i] == a;
        assert IsAttempt(after[i], a.planId, a.executionId, a.stepId, a.number) && after[i] in after;
      }
    }
  }

  lemma EmptyIsClean()
    ensures Clean(Empty) && InOrder(Empty) && Tracked(Empty)
  {
  }

  /** After any run from empty tables the check, as coded, is silent about a plan exactly when no two of its steps with
      attempts have ids that join to the same text, no step has two attempts running, and no attempt ended twice alike. */
  lemma RunsPassTheCheckExactly(ops: seq<Op>, plan: Id)
    requires UsableRun(ops)
    ensures var t := Run(Empty, ops);
      KeyedConsistent(PlanRows(t.attempts, plan), PlanEvents(t.ledger, plan))
      <==> JoinsDistinct(t.attempts, plan) && OneRunning(t.attempts, plan) && EndedOnce(t, plan)
  {
    hide Apply, Tracked, KeyedConsistent, JoinsDistinct, OneRunning, EndedOnce, Clean, InOrder;
    EmptyIsClean();
    UsableRunsStayTracked(Empty, ops);
    TrackedCheck(Run(Empty, ops), plan);
  }

  /** Where only running attempts are finalised, none ends twice. */
  lemma OrderlyRunsPassTheCheckExactly(ops: seq<Op>, plan: Id)
    requires OrderlyRun(Empty, ops)
    ensures var t := Run(Empty, ops);
      KeyedConsistent(PlanRows(t.attempts, plan), PlanEvents(t.ledger, plan))
      <==> JoinsDistinct(t.attempts, plan) && OneRunning(t.attempts, plan)
  {
    hide Apply, Tracked, InOrder, KeyedConsistent, JoinsDistinct, OneRunning, Clean;
    EmptyIsClean();
    OrderlyRunsStayInOrder(Empty, ops);
    InOrderIsTracked(Run(Empty, ops));
    TrackedCheck(Run(Empty, ops), plan);
  }

  lemma OneRunningOfAll(attempts: seq<Attempt>, plan: Id)
    requires OneRunningPerStep(attempts)
    ensures OneRunning(attempts, plan)
  {
  }

  /** After any disciplined run from empty tables nothing deserves a complaint, and the check, as coded, is silent about a
      plan exactly when no two of its steps with attempts have ids that join to the same text. */
  lemma DisciplinedRunsPassTheCheck(ops: seq<Op>, plan: Id)
    requires DisciplinedRun(Empty, ops)
    ensures var t := Run(Empty, ops);
      && PlanConsistent(t.attempts, t.ledger, plan)
      && (KeyedConsistent(PlanRows(t.attempts, plan), PlanEvents(t.ledger, plan)) <==> JoinsDistinct(t.attempts, plan))
  {
    hide Apply, Recorded, InOrder, Tracked, PlanConsistent, KeyedConsistent, JoinsDistinct, OneRunning, OneRunningPerStep, EndedOnce;
    EmptyIsClean();
    DisciplinedRunsStayClean(Empty, ops);
    OrderlyRunsPassTheCheckExactly(ops, plan);
    var t := Run(Empty, ops);
    InOrderIsTracked(t);
    OneRunningOfAll(t.attempts, plan);
    TrackedConsistent(t, plan);
  }

  predicate NamesColonFree(op: Op) {
    op.OpCreate? ==> ColonFree(op.execution)
  }

  lemma ApplyKeepsColonFree(t: Tables, op: Op)
    requires NamesColonFree(op) && forall a :: a in t.attempts ==> ColonFree(a.executionId)
    ensures forall a :: a in Apply(t, op).attempts ==> ColonFree(a.executionId)
  {
    hide ColonFree;
    if !op.OpCreate? {
      RowsKeepIdentity(t, op);
    }
  }

  lemma {:induction false} RunKeepsColonFree(t: Tables, ops: seq<Op>)
    requires forall a :: a in t.attempts ==> ColonFree(a.executionId)
    requires forall i :: 0 <= i < |ops| ==> NamesColonFree(ops[i])
    ensures forall a :: a in Run(t, ops).attempts ==> ColonFree(a.executionId)
  {
    if ops != [] {
      RunKeepsColonFree(t, Init(ops));
      ApplyKeepsColonFree(Run(t, Init(ops)), Last(ops));
    }
  }

  /** In particular it is silent when no execution id holds a colon. */
  lemma ColonFreeRunsPassTheCheck(ops: seq<Op>, plan: Id)
    requires DisciplinedRun(Empty, ops) && forall i :: 0 <= i < |ops| ==> NamesColonFree(ops[i])
    ensures KeyedConsistent(PlanRows(Run(Empty, ops).attempts, plan), PlanEvents(Run(Empty, ops).ledger, plan))
  {
    hide ColonFree, KeyedConsistent, DisciplinedRun, JoinsDistinct;
    DisciplinedRunsPassTheCheck(ops, plan);
    RunKeepsColonFree(Empty, ops);
    ColonFreeJoins(Run(Empty, ops).attempts, plan);
  }

  // ----- A healthy run that is reported -----

  /** Two attempts of one plan: step `y:z` of execution `x`, and step `z` of execution `x:y`. */
  function ConfusedRun(plan: Id, x: Id, y: Id, z: Id): seq<Op> {
    [OpCreate(plan, x, y + ":" + z, PureRead, None, "w"), OpCreate(plan, x + ":" + y, z, PureRead, None, "w")]
  }

  lemma SomeRow(rows: seq<Attempt>)
    ensures rows == [] || exists a :: a in rows
  {
    if rows != [] {
      assert rows[0] in rows;
    }
  }

  lemma FirstOf(plan: Id, execution: Id, step: Id, t: Tables)
    requires !Blank(plan) && !Blank(execution) && !Blank(step)
    requires forall a :: a in t.attempts ==> !OfStep(a, plan, execution, step)
    ensures var op := OpCreate(plan, execution, step, PureRead, None, "w");
      && Disciplined(t, op)
      && |Apply(t, op).attempts| == |t.attempts| + 1 && Apply(t, op).attempts[..|t.attempts|] == t.attempts
      && IsAttempt(Last(Apply(t, op).attempts), plan, execution, step, 1)
  {
    hide Blank;
    SomeRow(RowsOf(t.attempts, plan, execution, step));
  }

  /** The run is disciplined and its tables deserve no complaint, yet the check complains. */
  lemma ColonsConfuseTheCheck(plan: Id, x: Id, y: Id, z: Id)
    requires !Blank(plan) && !Blank(x) && !Blank(z)
    ensures var ops := ConfusedRun(plan, x, y, z); var t := Run(Empty, ops);
      && DisciplinedRun(Empty, ops) && Clean(t) && PlanConsistent(t.attempts, t.ledger, plan)
      && !KeyedConsistent(PlanRows(t.attempts, plan), PlanEvents(t.ledger, plan))
  {
    hide Apply, Blank, Clean, InOrder, PlanConsistent, KeyedConsistent, Disciplined;
    var ops := ConfusedRun(plan, x, y, z);
    ColonIsNotBlank(x, y);
    ColonIsNotBlank(y, z);
    assert Init(ops) == [ops[0]] && Init([ops[0]]) == [];
    var one := Run(Empty, [ops[0]]);
    FirstOf(plan, x, y + ":" + z, Empty);
    assert |x + ":" + y| > |x|;
    assert Run(Empty, Init([ops[0]])) == Empty;
    assert one == Apply(Empty, ops[0]) && one.attempts == [Last(one.attempts)];
    FirstOf(plan, x + ":" + y, z, one);
    var t := Run(Empty, ops);
    assert t == Apply(one, ops[1]);
    assert DisciplinedRun(Empty, []) && DisciplinedRun(Empty, [ops[0]]);
    EmptyIsClean();
    DisciplinedRunsStayClean(Empty, ops);
    DisciplinedRunsPassTheCheck(ops, plan);
    var a, b := t.attempts[0], t.attempts[1];
    assert x + ":" + (y + ":" + z) == (x + ":" + y) + ":" + z;
    assert a in t.attempts && b in t.attempts && GroupKey(a) == GroupKey(b) && a.executionId != b.executionId;
    assert !JoinsDistinct(t.attempts, plan);
  }
}
