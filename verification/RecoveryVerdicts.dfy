/** What a recovery makes of an interrupted step, or of a plan that waits to be taken up: for every answer of the gates, every
    state of the records and of the operators' queue, and every state the step's last attempt can be in. */
module RecoveryVerdicts {
  import opened Common
  import opened ExecutionTables
  import opened Normalisers
  import opened StateStore
  import opened Reconciliation
  import opened Recovery
  import opened CrashRecovery
  import opened CrashModel
  import opened CrashInvariant
  import opened CrashSafety
  import CleanRuns
  import IntegrityChecker

  ghost predicate Interrupted(s: Setup, d: Durable) {
    s.plan.id in d.checkpoints && d.checkpoints[s.plan.id].status.Running?
  }

  /** The checkpoint is pending, or paused for a retry of an open step. */
  ghost predicate Waiting(s: Setup, d: Durable) {
    s.plan.id in d.checkpoints &&
    var c := d.checkpoints[s.plan.id];
    Restartable(c.status) && c.lastCompleted + 1 <= c.currentStep < |s.plan.steps|
  }

  ghost predicate Open(s: Setup, d: Durable) {
    Interrupted(s, d) || Waiting(s, d)
  }

  // ----- Outcomes -----

  /** The call ends without running a step, the lock is free, and the checkpoint has this status and progress. */
  predicate Stopped(s: Setup, e: Entry, status: CheckpointStatus, lastCompleted: int) {
    && e.startAt.None? && !IsLocked(e.durable.tables, s.plan.id)
    && s.plan.id in e.durable.checkpoints
    && e.durable.checkpoints[s.plan.id].status == status && e.durable.checkpoints[s.plan.id].lastCompleted == lastCompleted
  }

  /** A step flagged idempotent runs, under the lock; any other waits for a review. */
  predicate TakenUp(s: Setup, e: Entry, k: nat)
    requires k < |s.plan.steps|
  {
    if s.plan.steps[k].idempotent then
      && e.startAt == Some(k) && IsLocked(e.durable.tables, s.plan.id)
      && s.plan.id in e.durable.checkpoints
      && e.durable.checkpoints[s.plan.id].status.Running? && e.durable.checkpoints[s.plan.id].lastCompleted == k - 1
    else Stopped(s, e, CheckpointStatus.AwaitingReview, k - 1)
  }

  /** The plan is paused, and the operators' queue ends with an open item that names the step, says why, and stays for a day. */
  predicate LeftToOperator(s: Setup, e: Entry, k: nat, reason: string)
    requires k < |s.plan.steps|
  {
    && Stopped(s, e, CheckpointStatus.PauseForOperatorRecovery, k - 1)
    && e.durable.tables.recovery != []
    && var item := Last(e.durable.tables.recovery);
       && item.planId == s.plan.id && item.executionId == s.execution && item.stepId == Some(s.plan.steps[k].id) && item.reason == reason
       && item.lastState == "running" && item.resolvedAt.None? && item.expiresAtMs == e.durable.tables.now + OPERATOR_RECOVERY_TTL_MS
  }

  /** A step that its own flags keep from being repeated by itself. */
  predicate ManualOnly(step: EngineStep) {
    step.retryStrategy == "manual_only" || (step.retryStrategy != "safe" && !step.idempotent)
  }

  /** Why a failed attempt is not repeated: by its class of side effect, an unheard-of one being unknown unless the step is
      manual-only anyway. */
  function FailureReason(step: EngineStep, effect: SideEffect): string {
    "unsafe_recovery_" + if effect == OtherEffect && !ManualOnly(step) then "unknown" else ClassName(effect)
  }

  /** The call ends with the checkpoint called corrupted. */
  predicate CalledCorrupted(s: Setup, e: Entry, lastCompleted: int) {
    && e.startAt.None? && s.plan.id in e.durable.checkpoints
    && e.durable.checkpoints[s.plan.id].status.Corrupted? && e.durable.checkpoints[s.plan.id].lastCompleted == lastCompleted
  }

  /** The call ends with checkpoint and lock as they were. */
  predicate LeftAlone(d: Durable, e: Entry) {
    e.startAt.None? && e.durable.checkpoints == d.checkpoints && e.durable.tables.locks == d.tables.locks
  }

  // ----- Silent events do not touch the check -----

  lemma OneSilentEvent(attempts: seq<Attempt>, events: seq<Event>, e: Event)
    requires !IntegrityChecker.Counted(e)
    ensures IntegrityChecker.KeyedConsistent(attempts, events + [e]) <==> IntegrityChecker.KeyedConsistent(attempts, events)
  {
    forall a
      ensures IntegrityChecker.KeyedClean(a, events + [e]) <==> IntegrityChecker.KeyedClean(a, events)
    {
      var key := IntegrityChecker.AttemptKey(a);
      var mine := IntegrityChecker.Select(events, IntegrityChecker.EventKey, key);
      assert Init(events + [e]) == events && Last(events + [e]) == e;
      assert IntegrityChecker.Select(events + [e], IntegrityChecker.EventKey, key)
          == if IntegrityChecker.EventKey(e) == key then mine + [e] else mine;
      IntegrityChecker.OneMoreEvent(mine, e);
    }
    hide IntegrityChecker.KeyedClean, IntegrityChecker.CompleteNumbering, IntegrityChecker.RunningCount, IntegrityChecker.Select;
    assert forall k :: IntegrityChecker.KeyedGroupClean(IntegrityChecker.Select(attempts, IntegrityChecker.GroupKey, k), events + [e])
                  <==> IntegrityChecker.KeyedGroupClean(IntegrityChecker.Select(attempts, IntegrityChecker.GroupKey, k), events);
  }

  lemma {:induction false} SilentEvents(attempts: seq<Attempt>, ledger: seq<Event>, extra: seq<Event>, plan: Id)
    requires CleanRuns.Silent(extra)
    ensures IntegrityChecker.KeyedConsistent(attempts, IntegrityChecker.PlanEvents(ledger + extra, plan))
       <==> IntegrityChecker.KeyedConsistent(attempts, IntegrityChecker.PlanEvents(ledger, plan))
  {
    hide IntegrityChecker.KeyedConsistent;
    if extra == [] {
      assert ledger + extra == ledger;
    } else {
      var e := Last(extra);
      assert extra == Init(extra) + [e];
      SilentEvents(attempts, ledger, Init(extra), plan);
      assert Init(ledger + extra) == ledger + Init(extra) && Last(ledger + extra) == e;
      OneSilentEvent(attempts, IntegrityChecker.PlanEvents(ledger + Init(extra), plan), e);
      var before := IntegrityChecker.PlanEvents(ledger + Init(extra), plan);
      assert IntegrityChecker.PlanEvents(ledger + extra, plan) == if e.planId == plan then before + [e] else before;
    }
  }

  /** Nothing but events of other kinds was added. */
  lemma SameCheck(t: Tables, t': Tables, plan: Id)
    requires t'.attempts == t.attempts && CleanRuns.GrowsSilently(t.ledger, t'.ledger)
    ensures AttemptsConsistent(t', plan) <==> AttemptsConsistent(t, plan)
  {
    hide IntegrityChecker.KeyedConsistent, IntegrityChecker.PlanEvents, IntegrityChecker.PlanRows;
    var extra := t'.ledger[|t.ledger|..];
    assert t'.ledger == t.ledger + extra;
    SilentEvents(IntegrityChecker.PlanRows(t.attempts, plan), t.ledger, extra, plan);
  }

  // ----- The queue -----

  predicate StillOpen(item: RecoveryItem, plan: Id, now: nat) {
    Unresolved(item, plan) && item.expiresAtMs > now
  }

  /** An item of the plan waits for an operator and its time is not up. */
  predicate OperatorAwaited(s: Setup, t: Tables) {
    exists item :: item in t.recovery && StillOpen(item, s.plan.id, t.now)
  }

  predicate Swept(s: Setup, t: Tables) {
    forall item :: item in t.recovery ==> !Expired(item, Some(s.plan.id), t.now)
  }

  lemma ExpirySweeps(s: Setup, d: Durable)
    ensures var d' := Expire(d, s.plan.id);
      && Swept(s, d'.tables) && (OperatorAwaited(s, d'.tables) <==> OperatorAwaited(s, d.tables))
      && d'.checkpoints == d.checkpoints && d'.tables.attempts == d.tables.attempts && d'.tables.locks == d.tables.locks
      && d'.tables.now == d.tables.now
      && (AttemptsConsistent(d'.tables, s.plan.id) <==> AttemptsConsistent(d.tables, s.plan.id))
  {
    var d' := Expire(d, s.plan.id);
    ResolvedNotExpired(d.tables.recovery, s.plan.id, d.tables.now);
    CleanRuns.QuietLedger(d.tables, OpExpire(Some(s.plan.id)));
    hide ExpiredItems, ResolveExpired, ExpiryEvents, AttemptsConsistent, CleanRuns.GrowsSilently;
    SameCheck(d.tables, d'.tables, s.plan.id);
  }

  lemma ResolvedNotExpired(items: seq<RecoveryItem>, plan: Id, now: nat)
    ensures var after := ResolveExpired(items, Some(plan), now);
      && (forall item :: item in after ==> !Expired(item, Some(plan), now))
      && ((exists item :: item in after && StillOpen(item, plan, now)) <==> (exists item :: item in items && StillOpen(item, plan, now)))
  {
    var after := ResolveExpired(items, Some(plan), now);
    forall item | item in items && StillOpen(item, plan, now)
      ensures item in after
    {
      var i :| 0 <= i < |items| && items[i] == item;
      assert after[i] == item;
    }
    forall item | item in after && StillOpen(item, plan, now)
      ensures item in items
    {
      var i :| 0 <= i < |after| && after[i] == item;
      assert items[i] == item;
    }
  }

  /** A second sweep in the same moment finds nothing. */
  lemma SweptStays(s: Setup, d: Durable)
    requires Swept(s, d.tables)
    ensures Expire(d, s.plan.id) == d
    ensures ExpireRecovery(d.tables, Some(s.plan.id)).result.value == []
    ensures UnresolvedItems(d.tables.recovery, s.plan.id) == [] <==> !OperatorAwaited(s, d.tables)
  {
    NoneExpired(d.tables.recovery, s.plan.id, d.tables.now);
    assert ResolveExpired(d.tables.recovery, Some(s.plan.id), d.tables.now) == d.tables.recovery;
    assert d.tables.ledger + [] == d.tables.ledger;
    var open := UnresolvedItems(d.tables.recovery, s.plan.id);
    if open != [] {
      assert open[0] in open;
      assert StillOpen(open[0], s.plan.id, d.tables.now);
    }
  }

  lemma {:induction false} NoneExpired(items: seq<RecoveryItem>, plan: Id, now: nat)
    requires forall item :: item in items ==> !Expired(item, Some(plan), now)
    ensures ExpiredItems(items, Some(plan), now) == []
  {
    if items != [] {
      assert items == Init(items) + [Last(items)];
      NoneExpired(Init(items), plan, now);
    }
  }

  // ----- Validation and locking -----

  lemma OpenViewsAgree(s: Setup, d: Durable)
    requires GoodSetup(s) && Sound(s, d) && Open(s, d)
    ensures !ViewsDisagree(d, ReconOf(s.plan))
  {
    SetupFacts(s);
  }

  /** A validation sweeps the queue; it calls such a checkpoint corrupted exactly for the attempts or other issues. */
  lemma ValidatesExactly(s: Setup, d: Durable, issues: bool)
    requires GoodSetup(s) && Sound(s, d) && Open(s, d)
    ensures Validate(d, ReconOf(s.plan), issues)
         == if issues || !AttemptsConsistent(d.tables, s.plan.id)
            then Outcome(MarkCorrupted(Expire(d, s.plan.id), s.plan.id), Err(ErrorCode.Corrupted))
            else Outcome(Expire(d, s.plan.id), Ok(()))
  {
    hide Expire, ViewsDisagree, AttemptsConsistent, ReconOf, Sound, MarkCorrupted;
    SetupFacts(s);
    ExpireKeeps(s, d);
    KeepsSound(s, d, Expire(d, s.plan.id));
    ExpirySweeps(s, d);
    OpenViewsAgree(s, Expire(d, s.plan.id));
  }

  /** Taking the lock, or renewing it for the same execution. */
  lemma LockedStays(s: Setup, d: Durable, worker: Id)
    requires GoodSetup(s) && Sound(s, d)
    ensures var acquired := AcquireOrReuse(d.tables, s.plan.id, s.execution, worker);
            var locked := d.(tables := acquired.tables);
      && acquired.result.Ok? && Sound(s, locked) && HeldBy(locked.tables, s.plan.id, s.execution)
      && locked.tables.attempts == d.tables.attempts && locked.tables.now == d.tables.now
      && locked.tables.recovery == d.tables.recovery
      && (AttemptsConsistent(locked.tables, s.plan.id) <==> AttemptsConsistent(d.tables, s.plan.id))
  {
    var acquired := AcquireOrReuse(d.tables, s.plan.id, s.execution, worker);
    var locked := d.(tables := acquired.tables);
    AcquireKeeps(s, d, worker);
    KeepsSound(s, d, locked);
    CleanRuns.QuietLedger(d.tables, OpAcquireOrReuse(s.plan.id, s.execution, worker));
    hide Keeps, CompletedIsLast, RowOk, StepDone, AttemptsConsistent, CleanRuns.GrowsSilently;
    assert locked.tables.attempts == d.tables.attempts;
    SameCheck(d.tables, locked.tables, s.plan.id);
  }

  // ----- Reconciliation -----

  lemma ReconcileChooses(d: Durable, plan: ReconPlan, worker: Id, s: Surroundings)
    requires plan.id != "" && Expire(d, plan.id) == d && ExpireRecovery(d.tables, Some(plan.id)).result.value == []
    requires IsLocked(d.tables, plan.id)
    ensures var v := Validate(d, plan, s.otherIssues);
      Reconcile(d, plan, worker, s)
      == if v.result.Err? then Outcome(v.durable, Err(v.result.error))
         else Choose(v.durable, plan, d.tables.locks[plan.id].executionId, worker, s.evidence)
  {
    hide Expire, Validate, Choose, ExpireRecovery;
  }

  /** What a swept and locked plan is to the reconciliation. */
  lemma ReconcilesAs(s: Setup, d: Durable, worker: Id, sur: Surroundings)
    requires Held(s, d) && Swept(s, d.tables)
    ensures var c := d.checkpoints[s.plan.id]; var open := UnresolvedItems(d.tables.recovery, s.plan.id);
      Reconcile(d, ReconOf(s.plan), worker, sur)
      == if sur.otherIssues || !AttemptsConsistent(d.tables, s.plan.id) then Outcome(MarkCorrupted(d, s.plan.id), Err(ErrorCode.Corrupted))
         else if open != [] then PauseForQueue(d, s.plan.id, s.execution, worker, c, open[0].stepId)
         else if c.status.Running? then ReconcileRunning(d, ReconOf(s.plan), s.execution, worker, c, sur.evidence)
         else if c.cancellationRequested then CancelExecution(d, s.plan.id, s.execution, worker, c, None)
         else Outcome(d, Ok(Decision(Resume, Some(c), s.execution)))
  {
    hide Expire, Validate, ReconOf, Sound, ReconcileRunning, UnresolvedItems, ExpireRecovery, Reconcile, AttemptsConsistent, MarkCorrupted,
         PauseForQueue, CancelExecution, Swept;
    SetupFacts(s);
    SweptStays(s, d);
    ValidatesExactly(s, d, sur.otherIssues);
    ReconcileChooses(d, ReconOf(s.plan), worker, sur);
  }

  // ----- What each diagnosis leads to -----

  /** What `recoverExecution` does with the answer of the reconciliation. */
  function Conclude(s: Setup, worker: Id, r: Outcome<Decision>): Entry {
    if r.result.Err? then Entry(ReleaseFor(r.durable, s.plan.id, s.execution, worker), None)
    else ResumeAfter(r.durable, s.plan, s.execution, worker, r.result.value.action)
  }

  ghost predicate Held(s: Setup, d: Durable) {
    GoodSetup(s) && Sound(s, d) && Open(s, d) && HeldBy(d.tables, s.plan.id, s.execution)
  }

  ghost predicate Ready(s: Setup, d: Durable) {
    Held(s, d) && Interrupted(s, d)
  }

  lemma Position(s: Setup, d: Durable)
    requires Sound(s, d) && Interrupted(s, d)
    ensures var c := d.checkpoints[s.plan.id]; 0 <= c.currentStep < |s.plan.steps| && c.lastCompleted == c.currentStep - 1
  {
  }

  lemma TextIsNotBlank(text: string)
    requires text != [] && !IsSpace(text[0])
    ensures !Blank(text)
  {
    assert text[0] in text;
  }

  lemma QueuedStops(s: Setup, d: Durable, worker: Id, reason: string)
    requires Ready(s, d) && 0 <= d.checkpoints[s.plan.id].currentStep < |s.plan.steps| && !Blank(reason)
    ensures var c := d.checkpoints[s.plan.id];
            var r := QueueReview(d, s.plan.id, s.execution, worker, c, Some(s.plan.steps[c.currentStep].id), reason);
      LeftToOperator(s, Conclude(s, worker, r), c.currentStep, reason)
  {
    Position(s, d);
    var c := d.checkpoints[s.plan.id];
    var step := Some(s.plan.steps[c.currentStep].id);
    TextIsNotBlank(StatusName(c.status));
    var queued := EnqueueRecovery(d.tables, s.plan.id, s.execution, step, reason, StatusName(c.status), OPERATOR_RECOVERY_TTL_MS);
    assert queued.result.value == Last(queued.tables.recovery);
    var r := QueueReview(d, s.plan.id, s.execution, worker, c, step, reason);
    assert r.durable.tables.recovery == queued.tables.recovery;
    hide Sound, GoodSetup, Blank;
  }

  lemma AbandonedStops(s: Setup, d: Durable, worker: Id, step: Option<Id>)
    requires Ready(s, d)
    ensures var c := d.checkpoints[s.plan.id];
      Stopped(s, Conclude(s, worker, AbandonExecution(d, s.plan.id, s.execution, worker, c, step)),
              CheckpointStatus.ExecutionAbandoned, c.lastCompleted)
  {
    hide Sound, GoodSetup, Blank;
  }

  lemma CancelledStops(s: Setup, d: Durable, worker: Id, step: Option<Id>)
    requires s.plan.id in d.checkpoints && HeldBy(d.tables, s.plan.id, s.execution)
    ensures var c := d.checkpoints[s.plan.id];
      Stopped(s, Conclude(s, worker, CancelExecution(d, s.plan.id, s.execution, worker, c, step)),
              CheckpointStatus.Cancelled, c.lastCompleted)
  {
    hide Blank;
  }

  lemma CancelledAttemptStops(s: Setup, d: Durable, worker: Id, step: Option<Id>, a: Attempt)
    requires Ready(s, d) && a in d.tables.attempts && IsAttempt(a, s.plan.id, s.execution, a.stepId, a.number)
    ensures var c := d.checkpoints[s.plan.id];
            var cancelled := FinalizeAttempt(d.tables, s.plan.id, s.execution, a.stepId, a.number, AttemptStatus.Cancelled);
      && cancelled.result.Ok?
      && Stopped(s, Conclude(s, worker, CancelExecution(d.(tables := cancelled.tables), s.plan.id, s.execution, worker, c, step)),
                 CheckpointStatus.Cancelled, c.lastCompleted)
  {
    var cancelled := FinalizeAttempt(d.tables, s.plan.id, s.execution, a.stepId, a.number, AttemptStatus.Cancelled);
    CancelledStops(s, d.(tables := cancelled.tables), worker, step);
    hide Sound, Blank, Stopped, Conclude, CancelExecution, FinalizeRows, CountFinalized;
  }

  /** Where `recoverExecutionState` lets a running checkpoint go on. */
  lemma GoingOnTakesUp(s: Setup, d: Durable, worker: Id, action: Action)
    requires Ready(s, d) && GoesOn(action)
    ensures var k := d.checkpoints[s.plan.id].currentStep;
      0 <= k < |s.plan.steps| && TakenUp(s, ResumeAfter(d, s.plan, s.execution, worker, action), k)
  {
    SetupFacts(s);
    Position(s, d);
    hide Sound, StateOf;
  }

  /** The interrupted step turned out completed. */
  lemma FinishedGoesOn(s: Setup, d: Durable, worker: Id)
    requires Ready(s, d) && 0 <= d.checkpoints[s.plan.id].currentStep < |s.plan.steps|
    requires StepDone(s, d.tables, d.checkpoints[s.plan.id].currentStep)
    ensures var i := d.checkpoints[s.plan.id].currentStep;
            var e := ResumeAfter(AfterStep(d, s.plan.id, i, |s.plan.steps|).durable, s.plan, s.execution, worker, Continue);
      if i + 1 == |s.plan.steps| then Stopped(s, e, CheckpointStatus.Completed, i) else TakenUp(s, e, i + 1)
  {
    Position(s, d);
    var i := d.checkpoints[s.plan.id].currentStep;
    var d' := AfterStep(d, s.plan.id, i, |s.plan.steps|).durable;
    AdvanceSound(s, d);
    if i + 1 < |s.plan.steps| {
      GoingOnTakesUp(s, d', worker, Continue);
    } else {
      SetupFacts(s);
      hide Sound, StateOf;
    }
  }

  lemma CorruptedStops(s: Setup, d: Durable, worker: Id)
    requires s.plan.id in d.checkpoints && HeldBy(d.tables, s.plan.id, s.execution) && GoodSetup(s)
    ensures Stopped(s, Entry(ReleaseFor(MarkCorrupted(d, s.plan.id), s.plan.id, s.execution, worker), None),
                    CheckpointStatus.Corrupted, d.checkpoints[s.plan.id].lastCompleted)
  {
    hide Blank;
  }

  lemma AwaitedStops(s: Setup, d: Durable, worker: Id, step: Option<Id>)
    requires s.plan.id in d.checkpoints && HeldBy(d.tables, s.plan.id, s.execution)
    ensures var c := d.checkpoints[s.plan.id];
            var e := Conclude(s, worker, PauseForQueue(d, s.plan.id, s.execution, worker, c, step));
      && Stopped(s, e, CheckpointStatus.PauseForOperatorRecovery, c.lastCompleted)
      && e.durable.tables.recovery == d.tables.recovery && e.durable.tables.now == d.tables.now
  {
    hide Blank;
  }

  // ----- The verdict -----

  /** What the snapshot row of a step contributes: nothing when the step has a blank id. */
  function Seen(s: Setup, k: nat, evidence: StepEvidence): StepEvidence
    requires k < |s.plan.steps|
  {
    if Blank(s.plan.steps[k].id) then NO_EVIDENCE else evidence
  }

  predicate HasStatus(latest: Option<Attempt>, status: AttemptStatus) {
    latest.Some? && latest.value.status == status
  }

  /** The execution has used up its attempts. */
  predicate Exhaustion(s: Setup, t: Tables) {
    |set i | 0 <= i < |t.attempts| && OfExecution(t.attempts[i], s.plan.id, s.execution)| >= MAX_EXECUTION_ATTEMPTS
  }

  /** One of its attempts is too long ago. */
  predicate Lateness(s: Setup, t: Tables) {
    exists a :: a in t.attempts && OfExecution(a, s.plan.id, s.execution) && t.now - a.createdAt > MAX_EXECUTION_DURATION_MS
  }

  /** The outcome prescribed for a step `k` left running, under the lock, by its last attempt, its snapshot row and a pending
      cancellation. */
  ghost predicate Prescribed(s: Setup, d: Durable, k: nat, evidence: StepEvidence, e: Entry)
    requires s.plan.id in d.checkpoints && k < |s.plan.steps|
  {
    var latest := LatestAttempt(d.tables.attempts, s.plan.id, s.execution, s.plan.steps[k].id);
    var seen := Seen(s, k, evidence);
    var cancelled := d.checkpoints[s.plan.id].cancellationRequested;
    if Lateness(s, d.tables) then LeftToOperator(s, e, k, "execution_duration_exceeded")
    else if Exhaustion(s, d.tables) then Stopped(s, e, CheckpointStatus.ExecutionAbandoned, k - 1)
    else if HasStatus(latest, AttemptStatus.Completed) then
      if k + 1 == |s.plan.steps| then Stopped(s, e, CheckpointStatus.Completed, k) else TakenUp(s, e, k + 1)
    else if seen.completed then LeftToOperator(s, e, k, "recovery_snapshot_ledger_mismatch")
    else if HasStatus(latest, AttemptStatus.Failed) then
      if latest.value.sideEffect == PureRead then TakenUp(s, e, k)
      else LeftToOperator(s, e, k, FailureReason(s.plan.steps[k], latest.value.sideEffect))
    else if HasStatus(latest, AttemptStatus.Running) && latest.value.leaseExpiresAt > d.tables.now then
      if cancelled then TakenUp(s, e, k)
      else e.startAt.None? && e.durable.checkpoints == d.checkpoints && IsLocked(e.durable.tables, s.plan.id)
    else if cancelled then Stopped(s, e, CheckpointStatus.Cancelled, k - 1)
    else if latest.None? && (seen.failed || !(seen.started || seen.pausedForReview)) then TakenUp(s, e, k)
    else LeftToOperator(s, e, k, "recovery_ambiguous")
  }

  /** The outcome for a plan that is running or waiting, of whose steps `last` is the last one completed: the gates, the records
      and the queue come first, in this order, and only past all these the plan itself. */
  ghost predicate Filtered(s: Setup, d: Durable, last: int, g: Gates, e: Entry, past: bool)
  {
    if g.refusedEarly || AttemptAlive(d.tables, s.plan.id) then e == Entry(d, None)
    else if g.firstIssues || !AttemptsConsistent(d.tables, s.plan.id) then
      CalledCorrupted(s, e, last) && e.durable.tables.locks == d.tables.locks
    else if g.refusedLate then LeftAlone(d, e)
    else if g.secondIssues || g.surroundings.otherIssues then Stopped(s, e, CheckpointStatus.Corrupted, last)
    else if OperatorAwaited(s, d.tables) then
      Stopped(s, e, CheckpointStatus.PauseForOperatorRecovery, last) && OperatorAwaited(s, e.durable.tables)
    else past
  }

  ghost predicate Verdict(s: Setup, d: Durable, k: nat, g: Gates, e: Entry)
    requires s.plan.id in d.checkpoints && k < |s.plan.steps|
  {
    Filtered(s, d, k - 1, g, e, Prescribed(s, d, k, g.surroundings.evidence, e))
  }

  /** A waiting plan is cancelled where that was asked for, and else runs on from its first open step. */
  ghost predicate WaitingVerdict(s: Setup, d: Durable, g: Gates, e: Entry)
    requires s.plan.id in d.checkpoints
  {
    var c := d.checkpoints[s.plan.id];
    Filtered(s, d, c.lastCompleted, g, e, Continued(s, d, e))
  }

  predicate Continued(s: Setup, d: Durable, e: Entry)
    requires s.plan.id in d.checkpoints
  {
    var c := d.checkpoints[s.plan.id];
    if c.cancellationRequested then Stopped(s, e, CheckpointStatus.Cancelled, c.lastCompleted)
    else e.startAt == Some(c.lastCompleted + 1) && OnlyTaken(s, d, e.durable)
  }

  /** Nothing has changed but that our execution holds the lock, the queue is swept and the ledger has grown. */
  predicate OnlyTaken(s: Setup, d: Durable, d': Durable) {
    && d'.checkpoints == d.checkpoints && d'.tables.attempts == d.tables.attempts && d'.tables.now == d.tables.now
    && HeldBy(d'.tables, s.plan.id, s.execution) && |d'.tables.recovery| == |d.tables.recovery|
  }

  /** The diagnosis from the last attempt of the current step. */
  lemma DiagnosedFromLatest(s: Setup, d: Durable, evidence: StepEvidence)
    requires GoodSetup(s) && s.plan.id in d.checkpoints && 0 <= d.checkpoints[s.plan.id].currentStep < |s.plan.steps|
    ensures var c := d.checkpoints[s.plan.id]; var k := c.currentStep;
            var latest := LatestAttempt(d.tables.attempts, s.plan.id, s.execution, s.plan.steps[k].id);
            var seen := Seen(s, k, evidence);
      Diagnose(d.tables, ReconOf(s.plan), s.execution, c, evidence) ==
        if Lateness(s, d.tables) then Overdue
        else if Exhaustion(s, d.tables) then Exhausted
        else if HasStatus(latest, AttemptStatus.Completed) then Finished
        else if seen.completed then SnapshotAhead
        else if HasStatus(latest, AttemptStatus.Failed) then
          AfterFailure(if latest.value.sideEffect == PureRead then Retry else OperatorRecovery)
        else if HasStatus(latest, AttemptStatus.Running) && latest.value.leaseExpiresAt > d.tables.now then LeaseLive
        else if c.cancellationRequested then
          if HasStatus(latest, AttemptStatus.Running) then CancelAttempt(latest.value) else CancelIdle
        else if latest.None? && (seen.failed || !(seen.started || seen.pausedForReview)) then Untouched
        else Ambiguous
  {
    TooLongExactly(d.tables.attempts, s.plan.id, s.execution, d.tables.now);
    ExecutionRowsCount(d.tables.attempts, s.plan.id, s.execution);
    hide TooLong, ExecutionRows, LatestAttempt, ReconOf, Blank, DecideRecoveryAction, FactsOf;
    SetupFacts(s);
    var k := d.checkpoints[s.plan.id].currentStep;
    var latest := LatestAttempt(d.tables.attempts, s.plan.id, s.execution, s.plan.steps[k].id);
    if latest.Some? {
      FailedPureReadOnly(s, k, latest.value);
    }
  }

  /** The outcome of each diagnosis. */
  ghost predicate Follows(s: Setup, d: Durable, k: nat, diagnosis: Diagnosis, e: Entry)
    requires s.plan.id in d.checkpoints && k < |s.plan.steps|
  {
    match diagnosis
    case Overdue => LeftToOperator(s, e, k, "execution_duration_exceeded")
    case Exhausted => Stopped(s, e, CheckpointStatus.ExecutionAbandoned, k - 1)
    case SnapshotAhead => LeftToOperator(s, e, k, "recovery_snapshot_ledger_mismatch")
    case Finished => if k + 1 == |s.plan.steps| then Stopped(s, e, CheckpointStatus.Completed, k) else TakenUp(s, e, k + 1)
    case AfterFailure(decision) =>
      if decision.OperatorRecovery?
      then LeftToOperator(s, e, k, UnsafeReason(d.tables, ReconOf(s.plan), s.execution, d.checkpoints[s.plan.id]))
      else TakenUp(s, e, k)
    case LeaseLive =>
      if d.checkpoints[s.plan.id].cancellationRequested then TakenUp(s, e, k)
      else e.startAt.None? && e.durable.checkpoints == d.checkpoints && IsLocked(e.durable.tables, s.plan.id)
    case CancelAttempt(_) => Stopped(s, e, CheckpointStatus.Cancelled, k - 1)
    case CancelIdle => Stopped(s, e, CheckpointStatus.Cancelled, k - 1)
    case Ambiguous => LeftToOperator(s, e, k, "recovery_ambiguous")
    case Untouched => TakenUp(s, e, k)
  }

  /** The diagnoses that are put before an operator. */
  lemma QueuedIsFollowed(s: Setup, d: Durable, worker: Id, evidence: StepEvidence)
    requires Ready(s, d) && 0 <= d.checkpoints[s.plan.id].currentStep < |s.plan.steps|
    requires var diagnosis := Diagnose(d.tables, ReconOf(s.plan), s.execution, d.checkpoints[s.plan.id], evidence);
      diagnosis.Overdue? || diagnosis.SnapshotAhead? || diagnosis.Ambiguous?
      || (diagnosis.AfterFailure? && diagnosis.decision.OperatorRecovery?)
    ensures var c := d.checkpoints[s.plan.id];
      Follows(s, d, c.currentStep, Diagnose(d.tables, ReconOf(s.plan), s.execution, c, evidence),
              Conclude(s, worker, ReconcileRunning(d, ReconOf(s.plan), s.execution, worker, c, evidence)))
  {
    hide Sound, Diagnose, ReconOf, LeftToOperator, QueueReview, UnsafeReason, GoodSetup, Blank, Conclude;
    SetupFacts(s);
    var c, R := d.checkpoints[s.plan.id], ReconOf(s.plan);
    QueuedReasons();
    UnsafeReasonIsText(d.tables, R, s.execution, c);
    match Diagnose(d.tables, R, s.execution, c, evidence)
    case Overdue => QueuedStops(s, d, worker, "execution_duration_exceeded");
    case SnapshotAhead => QueuedStops(s, d, worker, "recovery_snapshot_ledger_mismatch");
    case AfterFailure(_) => QueuedStops(s, d, worker, UnsafeReason(d.tables, R, s.execution, c));
    case Ambiguous => QueuedStops(s, d, worker, "recovery_ambiguous");
  }

  /** The diagnoses that let the step be taken up again, or counted as done. */
  lemma GoingOnIsFollowed(s: Setup, d: Durable, worker: Id, evidence: StepEvidence)
    requires Ready(s, d) && 0 <= d.checkpoints[s.plan.id].currentStep < |s.plan.steps|
    ensures var c := d.checkpoints[s.plan.id];
            var diagnosis := Diagnose(d.tables, ReconOf(s.plan), s.execution, c, evidence);
      diagnosis.Finished? || diagnosis.LeaseLive? || diagnosis.Untouched? || (diagnosis.AfterFailure? && !diagnosis.decision.OperatorRecovery?) ==>
        Follows(s, d, c.currentStep, diagnosis,
                Conclude(s, worker, ReconcileRunning(d, ReconOf(s.plan), s.execution, worker, c, evidence)))
  {
    hide Sound, Diagnose, ReconOf, Stopped, TakenUp, AfterStep, StepDone, CompletedIsLast, GoodSetup;
    SetupFacts(s);
    var c, R := d.checkpoints[s.plan.id], ReconOf(s.plan);
    DiagnosisFacts(d.tables, R, s.execution, c, evidence);
    match Diagnose(d.tables, R, s.execution, c, evidence)
    case Finished =>
      RunningPosition(s, d);
      LatestTellsDone(s, d.tables, c.lastCompleted, c.currentStep);
      FinishedGoesOn(s, d, worker);
    case AfterFailure(decision) => GoingOnTakesUp(s, d, worker, if decision.Retry? then RetryStep else GuardedRetryStep);
    case LeaseLive => GoingOnTakesUp(s, d, worker, CancelPending);
    case Untouched => GoingOnTakesUp(s, d, worker, Resume);
    case _ =>
  }

  /** The diagnoses that end the execution. */
  lemma EndingIsFollowed(s: Setup, d: Durable, worker: Id, evidence: StepEvidence)
    requires Ready(s, d) && 0 <= d.checkpoints[s.plan.id].currentStep < |s.plan.steps|
    ensures var c := d.checkpoints[s.plan.id];
            var diagnosis := Diagnose(d.tables, ReconOf(s.plan), s.execution, c, evidence);
      diagnosis.Exhausted? || diagnosis.CancelAttempt? || diagnosis.CancelIdle? ==>
        Follows(s, d, c.currentStep, diagnosis,
                Conclude(s, worker, ReconcileRunning(d, ReconOf(s.plan), s.execution, worker, c, evidence)))
  {
    hide Sound, Diagnose, ReconOf, Stopped, FinalizeAttempt, AbandonExecution, CancelExecution, GoodSetup, Blank, Conclude;
    Position(s, d);
    SetupFacts(s);
    var c, R := d.checkpoints[s.plan.id], ReconOf(s.plan);
    var stepId := Some(s.plan.steps[c.currentStep].id);
    DiagnosisFacts(d.tables, R, s.execution, c, evidence);
    match Diagnose(d.tables, R, s.execution, c, evidence)
    case Exhausted => AbandonedStops(s, d, worker, stepId);
    case CancelAttempt(a) => CancelledAttemptStops(s, d, worker, stepId, a);
    case CancelIdle => CancelledStops(s, d, worker, stepId);
    case _ =>
  }

  lemma DiagnosisIsFollowed(s: Setup, d: Durable, worker: Id, evidence: StepEvidence)
    requires Ready(s, d) && 0 <= d.checkpoints[s.plan.id].currentStep < |s.plan.steps|
    ensures var c := d.checkpoints[s.plan.id];
      Follows(s, d, c.currentStep, Diagnose(d.tables, ReconOf(s.plan), s.execution, c, evidence),
              Conclude(s, worker, ReconcileRunning(d, ReconOf(s.plan), s.execution, worker, c, evidence)))
  {
    hide Sound, GoodSetup, Diagnose, ReconOf, Stopped, TakenUp, LeftToOperator, Conclude, ReconcileRunning;
    GoingOnIsFollowed(s, d, worker, evidence);
    EndingIsFollowed(s, d, worker, evidence);
    var diagnosis := Diagnose(d.tables, ReconOf(s.plan), s.execution, d.checkpoints[s.plan.id], evidence);
    if diagnosis.Overdue? || diagnosis.SnapshotAhead? || diagnosis.Ambiguous?
       || (diagnosis.AfterFailure? && diagnosis.decision.OperatorRecovery?) {
      QueuedIsFollowed(s, d, worker, evidence);
    }
  }

  /** The verdict under the lock. */
  lemma RunningIsPrescribed(s: Setup, d: Durable, worker: Id, evidence: StepEvidence)
    requires Ready(s, d)
    ensures var c := d.checkpoints[s.plan.id];
      && 0 <= c.currentStep < |s.plan.steps|
      && Prescribed(s, d, c.currentStep, evidence,
                    Conclude(s, worker, ReconcileRunning(d, ReconOf(s.plan), s.execution, worker, c, evidence)))
  {
    hide Sound, Diagnose, ReconOf, LatestAttempt, Lateness, Exhaustion, Stopped, TakenUp, LeftToOperator, ReconcileRunning, Conclude, Seen,
         GoodSetup, UnsafeReason, FailureReason;
    Position(s, d);
    DiagnosedFromLatest(s, d, evidence);
    UnsafeReasonIs(s, d);
    DiagnosisIsFollowed(s, d, worker, evidence);
  }

  lemma QueuedReasons()
    ensures !Blank("execution_duration_exceeded") && !Blank("recovery_snapshot_ledger_mismatch") && !Blank("recovery_ambiguous")
  {
    TextIsNotBlank("execution_duration_exceeded");
    TextIsNotBlank("recovery_snapshot_ledger_mismatch");
    TextIsNotBlank("recovery_ambiguous");
  }

  lemma UnsafeReasonIs(s: Setup, d: Durable)
    requires GoodSetup(s) && s.plan.id in d.checkpoints && 0 <= d.checkpoints[s.plan.id].currentStep < |s.plan.steps|
    ensures var c := d.checkpoints[s.plan.id]; var k := c.currentStep;
            var latest := LatestAttempt(d.tables.attempts, s.plan.id, s.execution, s.plan.steps[k].id);
      latest.Some? ==>
        UnsafeReason(d.tables, ReconOf(s.plan), s.execution, c) == FailureReason(s.plan.steps[k], latest.value.sideEffect)
  {
    hide LatestAttempt, ClassName, ReportedClass;
    SetupFacts(s);
    var c := d.checkpoints[s.plan.id];
    var k := c.currentStep;
    var latest := LatestAttempt(d.tables.attempts, s.plan.id, s.execution, s.plan.steps[k].id);
    if latest.Some? {
      ReportedFor(s.plan.steps[k], ReconOf(s.plan).steps[k], k, latest.value);
    }
  }

  lemma ReportedFor(step: EngineStep, r: ReconStep, k: nat, a: Attempt)
    requires r == ReconNormalizeStep(EngineStepAsSource(step), k)
    ensures ReportedClass(r, Some(FactsOf(a))) == if a.sideEffect == OtherEffect && !ManualOnly(step) then "unknown" else ClassName(a.sideEffect)
  {
    ClassNamesAreClean(a.sideEffect);
    StrategiesAreClean();
    KnownClasses(a.sideEffect);
    assert CleanAll([]) == [];
    hide Clean, ClassName, InferSideEffectClass;
  }

  lemma StrategiesAreClean()
    ensures Clean("manual_only") == "manual_only" && Clean("safe") == "safe" && Clean("") == "" && "manual_only" != "safe"
  {
    assert Lower("manual_only") == "manual_only" && Lower("safe") == "safe" && |"manual_only"| != |"safe"|;
  }

  lemma KnownClasses(effect: SideEffect)
    ensures ClassName(effect) in KNOWN_CLASSES <==> effect != OtherEffect
  {
    assert |"other"| == 5 && |"pure_read"| == 9 && |"local_write"| == 11 && |"external_write"| == 14 && |"destructive"| == 11;
    assert |"network_call"| == 12 && |"human_review"| == 12 && |"unknown"| == 7;
  }

  lemma UnsafeReasonIsText(t: Tables, plan: ReconPlan, execution: Id, c: Checkpoint)
    ensures !Blank(UnsafeReason(t, plan, execution, c))
  {
    hide CurrentAttempt, FactsOf, ReportedClass, Blank;
    TextIsNotBlank(UnsafeReason(t, plan, execution, c));
  }

  /** The end of a recovery whose plan is running. */
  ghost predicate Past(s: Setup, d: Durable, g: Gates, e: Entry)
    requires Open(s, d)
  {
    if Interrupted(s, d) then
      var k := d.checkpoints[s.plan.id].currentStep;
      0 <= k < |s.plan.steps| && Prescribed(s, d, k, g.surroundings.evidence, e)
    else Continued(s, d, e)
  }

  /** The end of a recovery on a swept and locked plan. */
  lemma LockedIsDecided(s: Setup, d: Durable, worker: Id, g: Gates)
    requires Held(s, d) && Swept(s, d.tables) && AttemptsConsistent(d.tables, s.plan.id)
    ensures var last := d.checkpoints[s.plan.id].lastCompleted; var e := RecoverLocked(d, s.plan, s.execution, worker, g);
      if g.secondIssues || g.surroundings.otherIssues then Stopped(s, e, CheckpointStatus.Corrupted, last)
      else if OperatorAwaited(s, d.tables) then
        Stopped(s, e, CheckpointStatus.PauseForOperatorRecovery, last) && OperatorAwaited(s, e.durable.tables)
      else Past(s, d, g, e)
  {
    hide Validate, Reconcile, ReconcileRunning, PauseForQueue, CancelExecution, Sound, ReconOf, MarkCorrupted, AttemptsConsistent, GoodSetup,
         Swept, Expire, ExpireRecovery, UnresolvedItems, OperatorAwaited, Stopped, Prescribed, Continued, ReleaseFor, ResumeAfter;
    SweptStays(s, d);
    ValidatesExactly(s, d, g.secondIssues);
    ReconcilesAs(s, d, worker, g.surroundings);
    CorruptedStops(s, d, worker);
    var c := d.checkpoints[s.plan.id];
    var open := UnresolvedItems(d.tables.recovery, s.plan.id);
    if open != [] {
      AwaitedStops(s, d, worker, open[0].stepId);
      SameQueue(s, d.tables, Conclude(s, worker, PauseForQueue(d, s.plan.id, s.execution, worker, c, open[0].stepId)).durable.tables);
    } else if Interrupted(s, d) {
      RunningIsPrescribed(s, d, worker, g.surroundings.evidence);
    } else {
      CancelledStops(s, d, worker, None);
      WaitingGoesOn(s, d, worker);
    }
  }

  lemma WaitingGoesOn(s: Setup, d: Durable, worker: Id)
    requires Held(s, d) && Waiting(s, d) && !Interrupted(s, d)
    ensures var c, e := d.checkpoints[s.plan.id], ResumeAfter(d, s.plan, s.execution, worker, Resume);
      if c.cancellationRequested
      then Continued(s, d, Conclude(s, worker, CancelExecution(d, s.plan.id, s.execution, worker, c, None)))
      else Continued(s, d, e)
  {
    CancelledStops(s, d, worker, None);
    SetupFacts(s);
    LockStaysOurs(s, d);
    hide Sound, StateOf, Stopped, CancelExecution, GoodSetup;
  }

  lemma SameQueue(s: Setup, t: Tables, t': Tables)
    requires t'.recovery == t.recovery && t'.now == t.now
    ensures OperatorAwaited(s, t') <==> OperatorAwaited(s, t)
    ensures Swept(s, t') <==> Swept(s, t)
  {
  }

  /** The state a recovery works on once it holds the lock. */
  function Prepared(s: Setup, d: Durable, worker: Id): Durable {
    var swept := Expire(d, s.plan.id);
    swept.(tables := AcquireOrReuse(swept.tables, s.plan.id, s.execution, worker).tables)
  }

  lemma PreparedIsHeld(s: Setup, d: Durable, worker: Id)
    requires GoodSetup(s) && Sound(s, d) && Open(s, d)
    ensures var p := Prepared(s, d, worker);
      && AcquireOrReuse(Expire(d, s.plan.id).tables, s.plan.id, s.execution, worker).result.Ok?
      && Held(s, p) && Swept(s, p.tables) && (OperatorAwaited(s, p.tables) <==> OperatorAwaited(s, d.tables))
      && (AttemptsConsistent(p.tables, s.plan.id) <==> AttemptsConsistent(d.tables, s.plan.id))
      && OnlyTaken(s, d, p)
  {
    hide Sound, Expire, AcquireOrReuse, GoodSetup, AttemptsConsistent, Swept, OperatorAwaited, Keeps;
    var swept := Expire(d, s.plan.id);
    ExpireKeeps(s, d);
    KeepsSound(s, d, swept);
    ExpirySweeps(s, d);
    SweptCount(s, d);
    LockedStays(s, swept, worker);
    SameQueue(s, swept.tables, Prepared(s, d, worker).tables);
  }

  lemma SweptCount(s: Setup, d: Durable)
    ensures |Expire(d, s.plan.id).tables.recovery| == |d.tables.recovery|
  {
  }

  /** The verdict does not depend on locks, ledger or queue beyond what is said of them. */
  lemma SameVerdict(s: Setup, d: Durable, d': Durable, k: nat, evidence: StepEvidence, e: Entry)
    requires d'.checkpoints == d.checkpoints && d'.tables.attempts == d.tables.attempts && d'.tables.now == d.tables.now
    requires s.plan.id in d.checkpoints && k < |s.plan.steps| && Prescribed(s, d', k, evidence, e)
    ensures Prescribed(s, d, k, evidence, e)
  {
    hide LatestAttempt, Stopped, TakenUp, LeftToOperator, OfExecution;
  }

  lemma CorruptedAtOnce(s: Setup, d: Durable)
    requires s.plan.id in d.checkpoints
    ensures var d' := MarkCorrupted(Expire(d, s.plan.id), s.plan.id);
      CalledCorrupted(s, Entry(d', None), d.checkpoints[s.plan.id].lastCompleted) && d'.tables.locks == d.tables.locks
  {
  }

  /** What a recovery does before and under the lock, for a running or waiting plan. */
  lemma OpenPlanIsDecided(s: Setup, d: Durable, worker: Id, g: Gates)
    requires GoodSetup(s) && Sound(s, d) && Open(s, d)
    ensures var e := Recover(d, s.plan, s.execution, worker, g);
      Filtered(s, d, d.checkpoints[s.plan.id].lastCompleted, g, e, Past(s, Prepared(s, d, worker), g, e))
  {
    hide Sound, Validate, ReconOf, AcquireOrReuse, AttemptAlive, GoodSetup, RecoverLocked, Stopped, Past, MarkCorrupted, Expire,
         AttemptsConsistent, Swept, OperatorAwaited, CalledCorrupted;
    HolderIsOurs(s, d);
    ValidatesExactly(s, d, g.firstIssues);
    CorruptedAtOnce(s, d);
    ExpirySweeps(s, d);
    PreparedIsHeld(s, d, worker);
    if AttemptsConsistent(d.tables, s.plan.id) {
      LockedIsDecided(s, Prepared(s, d, worker), worker, g);
    }
  }

  lemma FilteredCarries(s: Setup, d: Durable, last: int, g: Gates, e: Entry, past: bool, past': bool)
    requires Filtered(s, d, last, g, e, past) && (past ==> past')
    ensures Filtered(s, d, last, g, e, past')
  {
    hide AttemptAlive, AttemptsConsistent, OperatorAwaited, Stopped, CalledCorrupted, LeftAlone;
  }

  lemma ContinuedCarries(s: Setup, d: Durable, p: Durable, e: Entry)
    requires s.plan.id in d.checkpoints && OnlyTaken(s, d, p) && Continued(s, p, e)
    ensures Continued(s, d, e)
  {
    hide Stopped;
  }

  /** A recovery decides the fate of an interrupted step completely. Gates, records and the operators' queue may stop it;
      past them the last attempt, the snapshot row of the step and a pending cancellation say whether it is counted as done,
      run again, or stopped, and in every case it is said how the plan and the lock are left. */
  lemma InterruptedStepIsDecided(s: Setup, d: Durable, worker: Id, g: Gates)
    requires GoodSetup(s) && Sound(s, d) && Interrupted(s, d)
    ensures 0 <= d.checkpoints[s.plan.id].currentStep < |s.plan.steps|
    ensures Verdict(s, d, d.checkpoints[s.plan.id].currentStep, g, Recover(d, s.plan, s.execution, worker, g))
  {
    Position(s, d);
    PreparedIsHeld(s, d, worker);
    OpenPlanIsDecided(s, d, worker, g);
    hide Sound, GoodSetup, Recover, Prepared, Held, Prescribed, Filtered, AttemptsConsistent, Swept, OperatorAwaited;
    var e, k := Recover(d, s.plan, s.execution, worker, g), d.checkpoints[s.plan.id].currentStep;
    var p := Prepared(s, d, worker);
    if Prescribed(s, p, k, g.surroundings.evidence, e) {
      SameVerdict(s, d, p, k, g.surroundings.evidence, e);
    }
    FilteredCarries(s, d, k - 1, g, e, Past(s, p, g, e), Prescribed(s, d, k, g.surroundings.evidence, e));
  }

  /** So it does for a plan that waits. */
  lemma WaitingPlanIsDecided(s: Setup, d: Durable, worker: Id, g: Gates)
    requires GoodSetup(s) && Sound(s, d) && Waiting(s, d)
    ensures WaitingVerdict(s, d, g, Recover(d, s.plan, s.execution, worker, g))
  {
    PreparedIsHeld(s, d, worker);
    OpenPlanIsDecided(s, d, worker, g);
    hide Sound, GoodSetup, Recover, Prepared, Held, Continued, Filtered, AttemptsConsistent, Swept, OperatorAwaited, OnlyTaken;
    var e, p := Recover(d, s.plan, s.execution, worker, g), Prepared(s, d, worker);
    SameCheckpoints(s, d, p);
    if Continued(s, p, e) {
      ContinuedCarries(s, d, p, e);
    }
    FilteredCarries(s, d, d.checkpoints[s.plan.id].lastCompleted, g, e, Past(s, p, g, e), Continued(s, d, e));
  }

  lemma SameCheckpoints(s: Setup, d: Durable, d': Durable)
    requires OnlyTaken(s, d, d')
    ensures d'.checkpoints == d.checkpoints
  {
  }

  /** The same at every point of every run, whoever else is alive; there the attempts are inconsistent exactly while two
      attempts of one step run or one has ended twice alike, and an interrupted step is never found completed or failed. */
  lemma InterruptedStepIsDecidedInEveryRun(s: Setup, moves: seq<Move>, worker: Id, g: Gates)
    requires GoodSetup(s) && Interrupted(s, DoAll(s, Beginning(s), moves).d)
    ensures var d := DoAll(s, Beginning(s), moves).d; var k := d.checkpoints[s.plan.id].currentStep;
      && 0 <= k < |s.plan.steps|
      && Verdict(s, d, k, g, Recover(d, s.plan, s.execution, worker, g))
      && (AttemptsConsistent(d.tables, s.plan.id) <==>
            IntegrityChecker.OneRunning(d.tables.attempts, s.plan.id) && CleanRuns.EndedOnce(d.tables, s.plan.id))
      && var latest := LatestAttempt(d.tables.attempts, s.plan.id, s.execution, s.plan.steps[k].id);
         !HasStatus(latest, AttemptStatus.Completed) && !HasStatus(latest, AttemptStatus.Failed)
  {
    var w := DoAll(s, Beginning(s), moves);
    RunKeepsInv(s, moves);
    InvParts(s, w);
    hide Sound, History, Good, Inv, AttemptAlive, Recover, GoodSetup, Verdict, DoAll, Beginning, LatestAttempt, AttemptsConsistent, StepDone,
         IntegrityChecker.OneRunning, CleanRuns.EndedOnce;
    RunningIsOpen(s, w.d);
    CheckComplainsInHistory(s, w.d);
    InterruptedStepIsDecided(s, w.d, worker, g);
  }

  // ----- Launches -----

  /** What a launch comes to: it is turned away, or finds the plan taken, or known, or not in order, and then starts nothing and
      keeps no lock; else it leaves a new checkpoint under its lock, and starts the first step if there is one to start. */
  ghost predicate LaunchVerdict(s: Setup, d: Durable, g: Gates, e: Entry) {
    if g.refusedEarly then e == Entry(d, None)
    else if IsLocked(d.tables, s.plan.id) then
      e.startAt.None? && e.durable.checkpoints == d.checkpoints && e.durable.tables.locks == d.tables.locks
      && e.durable.tables.attempts == d.tables.attempts
    else if s.plan.id in d.checkpoints then e.startAt.None? && !IsLocked(e.durable.tables, s.plan.id)
    else if g.firstIssues || g.surroundings.otherIssues || !AttemptsConsistent(d.tables, s.plan.id) then
      e.startAt.None? && e.durable.checkpoints == d.checkpoints && !IsLocked(e.durable.tables, s.plan.id)
    else
      && HeldBy(e.durable.tables, s.plan.id, s.execution)
      && e.durable.checkpoints == d.checkpoints[s.plan.id := Checkpoint(0, CheckpointStatus.Pending, -1, false, d.tables.now)]
      && e.startAt == if g.refusedLate || s.plan.steps == [] then None else Some(0)
  }

  lemma ReleasedIsFree(s: Setup, d: Durable, worker: Id)
    requires GoodSetup(s) && Sound(s, d)
    ensures !IsLocked(ReleaseFor(d, s.plan.id, s.execution, worker).tables, s.plan.id)
    ensures ReleaseFor(d, s.plan.id, s.execution, worker).checkpoints == d.checkpoints
  {
    SoundLock(s, d);
    hide Sound;
  }

  lemma SoundLock(s: Setup, d: Durable)
    requires Sound(s, d)
    ensures s.plan.id in d.tables.locks ==> d.tables.locks[s.plan.id].executionId == s.execution
    ensures s.plan.id !in d.checkpoints ==> NoRecoveryItems(s, d.tables)
  {
  }

  /** A free lock is taken. */
  lemma FreeLockTaken(s: Setup, d: Durable, worker: Id)
    requires GoodSetup(s) && Sound(s, d) && !IsLocked(d.tables, s.plan.id)
    ensures var acquired := Acquire(d.tables, s.plan.id, s.execution, worker); var locked := d.(tables := acquired.tables);
      && acquired.result.Ok? && Sound(s, locked) && HeldBy(locked.tables, s.plan.id, s.execution)
      && locked.tables.attempts == d.tables.attempts && locked.tables.now == d.tables.now && locked.tables.recovery == d.tables.recovery
      && (AttemptsConsistent(locked.tables, s.plan.id) <==> AttemptsConsistent(d.tables, s.plan.id))
  {
    var locked := d.(tables := Acquire(d.tables, s.plan.id, s.execution, worker).tables);
    AcquireKeeps(s, d, worker);
    KeepsSound(s, d, locked);
    CleanRuns.QuietLedger(d.tables, OpAcquire(s.plan.id, s.execution, worker));
    hide Keeps, CompletedIsLast, RowOk, StepDone, AttemptsConsistent, CleanRuns.GrowsSilently;
    assert locked.tables.attempts == d.tables.attempts;
    SameCheck(d.tables, locked.tables, s.plan.id);
  }

  /** A plan without a checkpoint, under the lock. */
  lemma NewPlanIsDecided(s: Setup, d: Durable, worker: Id, sur: Surroundings, issues: bool)
    requires GoodSetup(s) && Sound(s, d) && s.plan.id !in d.checkpoints && HeldBy(d.tables, s.plan.id, s.execution)
    ensures var bad := !AttemptsConsistent(d.tables, s.plan.id);
      && Validate(d, ReconOf(s.plan), issues) == Outcome(d, if issues || bad then Err(ErrorCode.Corrupted) else Ok(()))
      && Reconcile(d, ReconOf(s.plan), worker, sur)
         == Outcome(d, if sur.otherIssues || bad then Err(ErrorCode.Corrupted) else Ok(Decision(DoNothing, None, s.execution)))
  {
    SetupFacts(s);
    SoundLock(s, d);
    SweptStays(s, d);
    hide Sound, Expire, AttemptsConsistent, ReconOf, ExpireRecovery, ReconcileRunning;
  }

  lemma LaunchIsDecided(s: Setup, d: Durable, worker: Id, g: Gates)
    requires GoodSetup(s) && Sound(s, d)
    ensures LaunchVerdict(s, d, g, Launch(d, s.plan, s.execution, worker, g))
  {
    hide Sound, AttemptsConsistent, Validate, Reconcile, ReconOf, ReleaseFor, StateOf, Acquire, GoodSetup, Keeps;
    if IsLocked(d.tables, s.plan.id) {
      LaunchBlocked(s, d, worker, g);
    } else {
      FreeLockTaken(s, d, worker);
      var locked := d.(tables := Acquire(d.tables, s.plan.id, s.execution, worker).tables);
      SetupFacts(s);
      if s.plan.id in d.checkpoints {
        KnownPlanIsNotLaunched(s, locked, worker, g);
      } else {
        NewPlanIsDecided(s, locked, worker, g.surroundings, g.firstIssues);
        ReleasedIsFree(s, locked, worker);
        SetupName(s);
      }
    }
  }

  lemma SetupName(s: Setup)
    requires GoodSetup(s)
    ensures s.plan.id != ""
  {
  }

  lemma KnownPlanIsNotLaunched(s: Setup, locked: Durable, worker: Id, g: Gates)
    requires GoodSetup(s) && Sound(s, locked) && s.plan.id in locked.checkpoints
    ensures var v := Validate(locked, ReconOf(s.plan), g.firstIssues);
      && !IsLocked(ReleaseFor(v.durable, s.plan.id, s.execution, worker).tables, s.plan.id)
      && (v.result.Ok? ==>
            var r := Reconcile(v.durable, ReconOf(s.plan), worker, g.surroundings);
            && s.plan.id in r.durable.checkpoints
            && !IsLocked(ReleaseFor(r.durable, s.plan.id, s.execution, worker).tables, s.plan.id))
  {
    hide Sound, AttemptsConsistent, Validate, Reconcile, ReconOf, ReleaseFor, GoodSetup, Keeps;
    SetupFacts(s);
    var v := Validate(locked, ReconOf(s.plan), g.firstIssues);
    ValidateKeeps(s, locked, ReconOf(s.plan), g.firstIssues);
    KeepsSound(s, locked, v.durable);
    KeepsRow(s, locked, v.durable);
    ReleasedIsFree(s, v.durable, worker);
    if v.result.Ok? {
      ReconcileOutcome(s, v.durable, worker, g.surroundings);
      ReleasedIsFree(s, Reconcile(v.durable, ReconOf(s.plan), worker, g.surroundings).durable, worker);
    }
  }

  // ----- The last way of restarting -----

  const OPEN_GATES := Gates(false, false, false, false, Surroundings(false, NO_EVIDENCE))

  /** With the lock released, a pending cancellation and a live lease on the running attempt of an idempotent step, the
      recovery does not wait for the lease: it starts the step again. */
  lemma PendingCancellationRestartsUnderLiveLease(s: Setup, d: Durable, worker: Id)
    requires GoodSetup(s) && Sound(s, d) && Interrupted(s, d) && !IsLocked(d.tables, s.plan.id)
    requires AttemptsConsistent(d.tables, s.plan.id) && !OperatorAwaited(s, d.tables)
    requires !Lateness(s, d.tables) && !Exhaustion(s, d.tables)
    requires var c := d.checkpoints[s.plan.id];
      && c.cancellationRequested && 0 <= c.currentStep < |s.plan.steps| && s.plan.steps[c.currentStep].idempotent
      && var latest := LatestAttempt(d.tables.attempts, s.plan.id, s.execution, s.plan.steps[c.currentStep].id);
         HasStatus(latest, AttemptStatus.Running) && latest.value.leaseExpiresAt > d.tables.now
    ensures Recover(d, s.plan, s.execution, worker, OPEN_GATES).startAt == Some(d.checkpoints[s.plan.id].currentStep)
  {
    hide Sound, AttemptsConsistent, Recover, LatestAttempt, Lateness, Exhaustion, GoodSetup, OperatorAwaited;
    InterruptedStepIsDecided(s, d, worker, OPEN_GATES);
  }
}
