/** Runs from nothing that do happen: the last way of restarting, two living processes at one step, and an attempt that ends
    twice. */
module CrashRuns {
  import opened Common
  import opened ExecutionTables
  import opened AttemptIdentity
  import opened Normalisers
  import opened StateStore
  import opened Reconciliation
  import opened Recovery
  import opened CrashRecovery
  import opened CrashModel
  import opened CrashInvariant
  import opened CrashSafety
  import opened RecoveryVerdicts
  import CleanRuns
  import IntegrityChecker
  import Rows = SnapshotStore

  /** A move at the end of a run. */
  lemma Next(s: Setup, w: World, moves: seq<Move>, m: Move)
    ensures DoAll(s, w, moves + [m]) == Do(s, DoAll(s, w, moves), m)
  {
    hide Do;
    assert Init(moves + [m]) == moves && Last(moves + [m]) == m;
  }

  lemma NoMove(s: Setup, w: World)
    ensures DoAll(s, w, []) == w
  {
  }

  // ----- Launching -----

  lemma NoAttemptsConsistent(t: Tables, plan: Id)
    requires t.attempts == []
    ensures AttemptsConsistent(t, plan)
  {
    forall k
      ensures IntegrityChecker.KeyedGroupClean(IntegrityChecker.Select([], IntegrityChecker.GroupKey, k), IntegrityChecker.PlanEvents(t.ledger, plan))
    {
      IntegrityChecker.EmptyGroupClean(IntegrityChecker.PlanEvents(t.ledger, plan));
    }
  }

  /** Nothing has happened to the plan but that its lock is taken. */
  predicate OnlyLocked(s: Setup, d: Durable) {
    && s.plan.id !in d.checkpoints && d.tables.attempts == [] && d.tables.recovery == [] && HeldBy(d.tables, s.plan.id, s.execution)
  }

  lemma LockedOnlyValidates(s: Setup, d: Durable, worker: Id)
    requires GoodSetup(s) && OnlyLocked(s, d)
    ensures Validate(d, ReconOf(s.plan), false) == Outcome(d, Ok(()))
    ensures Reconcile(d, ReconOf(s.plan), worker, Surroundings(false, NO_EVIDENCE)).durable == d
    ensures Reconcile(d, ReconOf(s.plan), worker, Surroundings(false, NO_EVIDENCE)).result.Ok?
  {
    SetupFacts(s);
    SweptStays(s, d);
    NoAttemptsConsistent(d.tables, s.plan.id);
    hide Expire, AttemptsConsistent, ReconOf, ExpireRecovery, ReconcileRunning;
    assert Validate(d, ReconOf(s.plan), false) == Outcome(d, Ok(()));
    ReconcileChooses(d, ReconOf(s.plan), worker, Surroundings(false, NO_EVIDENCE));
  }

  /** The plan is new and its lock is ours; nothing was attempted and nothing is queued. */
  predicate Fresh(s: Setup, w: World) {
    && HeldBy(w.d.tables, s.plan.id, s.execution) && w.d.tables.attempts == [] && w.d.tables.recovery == []
    && s.plan.id in w.d.checkpoints
    && (var c := w.d.checkpoints[s.plan.id];
        c.currentStep == 0 && c.status.Pending? && c.lastCompleted == -1 && !c.cancellationRequested)
    && |w.rows| == |s.plan.steps| && forall k :: 0 <= k < |w.rows| ==> w.rows[k].Pending?
  }

  lemma LaunchedFromScratch(s: Setup, worker: Id)
    requires GoodSetup(s) && s.plan.steps != []
    ensures var w := Do(s, Beginning(s), LaunchMove(worker, OPEN_GATES)); Fresh(s, w) && w.ps == [At(0)]
  {
    SetupFacts(s);
    var d := Beginning(s).d;
    var locked := d.(tables := Acquire(d.tables, s.plan.id, s.execution, worker).tables);
    assert OnlyLocked(s, locked);
    LockedOnlyValidates(s, locked, worker);
    hide Validate, Reconcile, ReconOf, StateOf;
  }

  lemma Launched(s: Setup, worker: Id)
    requires GoodSetup(s) && s.plan.steps != []
    ensures var w := DoAll(s, Beginning(s), [LaunchMove(worker, OPEN_GATES)]); Fresh(s, w) && w.ps == [At(0)]
  {
    LaunchedFromScratch(s, worker);
    hide Do, Fresh, Beginning;
    NoMove(s, Beginning(s));
    Next(s, Beginning(s), [], LaunchMove(worker, OPEN_GATES));
    assert [] + [LaunchMove(worker, OPEN_GATES)] == [LaunchMove(worker, OPEN_GATES)];
  }

  // ----- Beginning the first step -----

  /** The first attempt of the first step, of this moment, and what is known of the row. */
  ghost predicate FirstInFlight(s: Setup, w: World) {
    && s.plan.steps != [] && s.plan.id in w.d.checkpoints
    && w.d.checkpoints[s.plan.id].status.Running? && w.d.checkpoints[s.plan.id].currentStep == 0
    && w.d.tables.recovery == [] && |w.d.tables.attempts| == 1
    && (var a := w.d.tables.attempts[0];
        && a.status == AttemptStatus.Running && a.createdAt == w.d.tables.now && a.leaseExpiresAt == w.d.tables.now + LEASE_DURATION_MS
        && IsAttempt(a, s.plan.id, s.execution, s.plan.steps[0].id, 1)
        && HasAutomaticKey(a))
    && |w.rows| == |s.plan.steps| && w.rows[0].Running?
  }

  lemma FirstBegins(s: Setup, w: World, p: nat, worker: Id, effect: SideEffect)
    requires GoodSetup(s) && s.plan.steps != [] && !Blank(s.plan.steps[0].id)
    requires Fresh(s, w) && p < |w.ps| && w.ps[p] == At(0)
    ensures var w' := Do(s, w, ProcessMove(p, Begin(worker, effect)));
      && FirstInFlight(s, w') && w'.ps == w.ps[p := InFlight(0, 1)] && HeldBy(w'.d.tables, s.plan.id, s.execution)
  {
    hide Blank, AutoKey;
    assert MaxAttempt([], s.plan.id, s.execution, s.plan.steps[0].id) == 0;
  }

  // ----- Restarting under a live lease -----

  /** A launch, a beginning, a request to cancel, and a stop of the process with the attempt still in flight. */
  function StoppedInFlight(worker: Id, effect: SideEffect): seq<Move> {
    [LaunchMove(worker, OPEN_GATES)] + [ProcessMove(0, Begin(worker, effect))] + [CancelRequestMove] + [ProcessMove(0, Stop(worker))]
  }

  lemma AskedAndStopped(s: Setup, w: World, worker: Id)
    requires GoodSetup(s) && w.ps == [InFlight(0, 1)] && FirstInFlight(s, w) && HeldBy(w.d.tables, s.plan.id, s.execution)
    ensures var w' := Do(s, Do(s, w, CancelRequestMove), ProcessMove(0, Stop(worker)));
      && w'.ps == [Dead] && FirstInFlight(s, w') && !IsLocked(w'.d.tables, s.plan.id)
      && w'.d.checkpoints[s.plan.id].cancellationRequested
  {
    hide Blank;
  }

  /** The step is in flight under a live lease, a cancellation is pending, and no process holds the lock. */
  lemma CancelledInFlight(s: Setup, worker: Id, effect: SideEffect)
    requires GoodSetup(s) && s.plan.steps != [] && !Blank(s.plan.steps[0].id)
    ensures var w := DoAll(s, Beginning(s), StoppedInFlight(worker, effect));
      && w.ps == [Dead] && FirstInFlight(s, w) && !IsLocked(w.d.tables, s.plan.id)
      && w.d.checkpoints[s.plan.id].cancellationRequested
  {
    Launched(s, worker);
    hide Do, DoAll, Fresh, FirstInFlight, Blank, Beginning, GoodSetup;
    var launch, begin, stop := LaunchMove(worker, OPEN_GATES), ProcessMove(0, Begin(worker, effect)), ProcessMove(0, Stop(worker));
    Next(s, Beginning(s), [launch], begin);
    Next(s, Beginning(s), [launch] + [begin], CancelRequestMove);
    Next(s, Beginning(s), [launch] + [begin] + [CancelRequestMove], stop);
    FirstBegins(s, DoAll(s, Beginning(s), [launch]), 0, worker, effect);
    AskedAndStopped(s, DoAll(s, Beginning(s), [launch] + [begin]), worker);
  }

  /** That run, followed by a recovery, comes to start the step again while its attempt is still running under its lease. */
  lemma PendingCancellationOccurs(s: Setup, worker: Id, effect: SideEffect)
    requires GoodSetup(s) && s.plan.steps != [] && !Blank(s.plan.steps[0].id) && s.plan.steps[0].idempotent
    ensures var w := DoAll(s, Beginning(s), StoppedInFlight(worker, effect));
      && w.ps == [Dead] && FirstInFlight(s, w)
      && Do(s, w, RecoverMove(worker, OPEN_GATES)).ps == [Dead, At(0)]
  {
    var moves := StoppedInFlight(worker, effect);
    var w := DoAll(s, Beginning(s), moves);
    CancelledInFlight(s, worker, effect);
    RunKeepsInv(s, moves);
    OneAttemptIsConsistent(s, moves, w.d.tables.attempts);
    OneAttemptIsLatest(s, w);
    InvParts(s, w);
    hide Do, DoAll, Inv, Good, Sound, History, RowsAgree, ProcessOk, Beginning, AttemptsConsistent, Recover, LatestAttempt, GoodSetup, Lateness,
         Exhaustion, Blank, HasAutomaticKey;
    PendingCancellationRestartsUnderLiveLease(s, w.d, worker);
    RecoverStarts(s, w, worker, OPEN_GATES, 0);
  }

  lemma RecoverStarts(s: Setup, w: World, worker: Id, g: Gates, k: nat)
    requires Recover(w.d, s.plan, s.execution, worker, g).startAt == Some(k)
    ensures Do(s, w, RecoverMove(worker, g)).ps == w.ps + [At(k)]
  {
    hide Recover;
  }

  /** One running attempt gives nothing to complain about. */
  lemma OneAttemptIsConsistent(s: Setup, moves: seq<Move>, attempts: seq<Attempt>)
    requires GoodSetup(s) && DoAll(s, Beginning(s), moves).d.tables.attempts == attempts && |attempts| == 1 && attempts[0].status.Running?
    ensures AttemptsConsistent(DoAll(s, Beginning(s), moves).d.tables, s.plan.id)
  {
    CheckComplainsExactly(s, moves);
    OneRowRunsOnce(attempts, s.plan.id);
    OneRowNotEnded(DoAll(s, Beginning(s), moves).d.tables, s.plan.id);
    hide DoAll, Beginning, AttemptsConsistent, IntegrityChecker.OneRunning, CleanRuns.EndedOnce, GoodSetup;
  }

  lemma OneRowNotEnded(t: Tables, plan: Id)
    requires |t.attempts| == 1 && t.attempts[0].status.Running?
    ensures CleanRuns.EndedOnce(t, plan)
  {
    assert forall a :: a in t.attempts ==> a == t.attempts[0];
  }

  lemma OneRowRunsOnce(attempts: seq<Attempt>, plan: Id)
    requires |attempts| == 1
    ensures IntegrityChecker.OneRunning(attempts, plan)
  {
    forall e, st
      ensures IntegrityChecker.RunningCount(IntegrityChecker.RowsOf(attempts, plan, e, st)) <= 1
    {
      CleanRuns.RunningOneMore(attempts, plan, e, st);
    }
  }

  lemma OneAttemptIsLatest(s: Setup, w: World)
    requires FirstInFlight(s, w)
    ensures LatestAttempt(w.d.tables.attempts, s.plan.id, s.execution, s.plan.steps[0].id) == Some(w.d.tables.attempts[0])
    ensures !Lateness(s, w.d.tables) && !Exhaustion(s, w.d.tables)
  {
    hide LatestAttempt, HasAutomaticKey;
    var a := w.d.tables.attempts[0];
    assert w.d.tables.attempts == [a];
    LatestOfOne(a, s.plan.steps[0].id);
    OneIsNotMany(s, w.d.tables);
  }

  lemma LatestOfOne(a: Attempt, step: Id)
    requires a.stepId == step
    ensures LatestAttempt([a], a.planId, a.executionId, step) == Some(a)
  {
    assert Init([a]) == [];
    assert LatestAttempt([], a.planId, a.executionId, step) == None;
  }

  lemma OneIsNotMany(s: Setup, t: Tables)
    requires |t.attempts| == 1
    ensures !Exhaustion(s, t)
  {
    var ours := set i | 0 <= i < |t.attempts| && OfExecution(t.attempts[i], s.plan.id, s.execution);
    assert ours == {0} || ours == {};
  }

  // ----- Two living processes at one step -----

  /** A launch whose process stalls past its lease, and a recovery by another worker. */
  function StalledAndRecovered(one: Id, other: Id): seq<Move> {
    [LaunchMove(one, OPEN_GATES)] + [TickMove(LEASE_DURATION_MS)] + [RecoverMove(other, OPEN_GATES)]
  }

  /** The recovery does not wait for the stalled process, and its own starts at the same step. */
  lemma BothAtFirst(s: Setup, one: Id, other: Id)
    requires GoodSetup(s) && s.plan.steps != []
    ensures var w := DoAll(s, Beginning(s), StalledAndRecovered(one, other)); Fresh(s, w) && w.ps == [At(0), At(0)]
  {
    var launch, tick, recover := LaunchMove(one, OPEN_GATES), TickMove(LEASE_DURATION_MS), RecoverMove(other, OPEN_GATES);
    Launched(s, one);
    Next(s, Beginning(s), [launch], tick);
    Next(s, Beginning(s), [launch] + [tick], recover);
    var w := DoAll(s, Beginning(s), [launch] + [tick]);
    StillFresh(s, DoAll(s, Beginning(s), [launch]), LEASE_DURATION_MS);
    RunKeepsInv(s, [launch] + [tick]);
    InvParts(s, w);
    hide Do, DoAll, Inv, Good, Sound, History, RowsAgree, ProcessOk, Beginning, GoodSetup, Fresh;
    FreshIsTakenUp(s, w, other);
  }

  lemma StillFresh(s: Setup, w: World, ms: nat)
    requires Fresh(s, w)
    ensures Fresh(s, Do(s, w, TickMove(ms))) && Do(s, w, TickMove(ms)).ps == w.ps
  {
  }

  lemma FreshIsTakenUp(s: Setup, w: World, worker: Id)
    requires GoodSetup(s) && s.plan.steps != [] && Sound(s, w.d) && Fresh(s, w)
    ensures var w' := Do(s, w, RecoverMove(worker, OPEN_GATES)); Fresh(s, w') && w'.ps == w.ps + [At(0)]
  {
    NoAttemptsConsistent(w.d.tables, s.plan.id);
    hide Sound, Recover, GoodSetup, AttemptsConsistent;
    assert !OperatorAwaited(s, w.d.tables) && !AttemptAlive(w.d.tables, s.plan.id);
    WaitingPlanIsDecided(s, w.d, worker, OPEN_GATES);
    assert |Recover(w.d, s.plan, s.execution, worker, OPEN_GATES).durable.tables.recovery| == 0;
  }

  lemma SecondIsCreated(s: Setup, t: Tables, worker: Id, effect: SideEffect)
    requires GoodSetup(s) && s.plan.steps != [] && !Blank(s.plan.steps[0].id) && |t.attempts| == 1
    requires IsAttempt(t.attempts[0], s.plan.id, s.execution, s.plan.steps[0].id, 1) && HasAutomaticKey(t.attempts[0])
    ensures var made := CreateAttempt(t, s.plan.id, s.execution, s.plan.steps[0].id, effect, None, worker);
      made.result.Ok? && made.result.value.number == 2
  {
    var id, attempts := s.plan.steps[0].id, t.attempts;
    assert attempts == [attempts[0]] && attempts[0] in attempts;
    assert MaxAttempt(attempts, s.plan.id, s.execution, id) == 1;
    if AutoKey(s.plan.id, s.execution, id, 1) == AutoKey(s.plan.id, s.execution, id, 2) {
      AutoKeysOfOneExecution(s.plan.id, s.execution, id, 1, id, 2);
    }
    hide Blank, AutoKey, MaxAttempt, GoodSetup;
  }

  lemma SecondBegins(s: Setup, w: World, p: nat, worker: Id, effect: SideEffect)
    requires GoodSetup(s) && s.plan.steps != [] && !Blank(s.plan.steps[0].id)
    requires FirstInFlight(s, w) && p < |w.ps| && w.ps[p] == At(0)
    ensures var m := ProcessMove(p, Begin(worker, effect));
      Begins(s, w, m) && Do(s, w, m).ps == w.ps[p := InFlight(0, 2)]
  {
    SecondIsCreated(s, w.d.tables, worker, effect);
    hide Blank, CreateAttempt, HasAutomaticKey, GoodSetup;
  }

  /** Both then begin the step, whatever its class of side effect: two attempts of it run at once, each with a living process,
      and only then does the attempt check complain. */
  lemma TwoWorkersAtOneStep(s: Setup, one: Id, other: Id, effect: SideEffect)
    requires GoodSetup(s) && s.plan.steps != [] && !Blank(s.plan.steps[0].id)
    ensures var moves := StalledAndRecovered(one, other) + [ProcessMove(0, Begin(one, effect))];
            var w := DoAll(s, Beginning(s), moves); var w' := Do(s, w, ProcessMove(1, Begin(other, effect)));
      && AttemptsConsistent(w.d.tables, s.plan.id) && !AttemptsConsistent(w'.d.tables, s.plan.id)
      && w'.ps == [InFlight(0, 1), InFlight(0, 2)]
  {
    var before, begin, again := StalledAndRecovered(one, other), ProcessMove(0, Begin(one, effect)), ProcessMove(1, Begin(other, effect));
    var w := DoAll(s, Beginning(s), before + [begin]);
    BothAtFirst(s, one, other);
    FirstBegins(s, DoAll(s, Beginning(s), before), 0, one, effect);
    Next(s, Beginning(s), before, begin);
    OneAttemptIsConsistent(s, before + [begin], w.d.tables.attempts);
    RunKeepsInv(s, before + [begin]);
    SecondBegins(s, w, 1, other, effect);
    FirstIsActive(s, w);
    hide Do, DoAll, Inv, Fresh, FirstInFlight, Beginning, Active, AttemptsConsistent, Blank, GoodSetup, StalledAndRecovered;
    CheckBrokenExactly(s, w, again);
  }

  lemma FirstIsActive(s: Setup, w: World)
    requires FirstInFlight(s, w)
    ensures Active(s, w.d.tables, 0) > 0
  {
    hide HasAutomaticKey;
    CleanRuns.RunningOneMore(w.d.tables.attempts, s.plan.id, s.execution, s.plan.steps[0].id);
  }

  // ----- An attempt that ends twice -----

  /** A process stalls in flight, and a cancellation is asked for. */
  function AskedBehind(worker: Id, effect: SideEffect): seq<Move> {
    [LaunchMove(worker, OPEN_GATES)] + [ProcessMove(0, Begin(worker, effect))] + [CancelRequestMove] + [TickMove(LEASE_DURATION_MS)]
  }

  /** A recovery cancels its attempt and dies. */
  function CancelledBehind(worker: Id, effect: SideEffect): seq<Move> {
    AskedBehind(worker, effect) + [CutShortMove(CancelRunning(NO_EVIDENCE))]
  }

  /** The first attempt was cancelled by a recovery while its process lives. */
  predicate FirstCancelled(s: Setup, w: World) {
    && w.ps == [InFlight(0, 1)] && s.plan.steps != [] && s.plan.id in w.d.checkpoints && |w.rows| == |s.plan.steps| && w.rows[0].Running?
    && HasAttempt(w.d.tables.attempts, s.plan.id, s.execution, s.plan.steps[0].id, 1)
    && EndsOnRecord(s, w, w.ps[0], AttemptStatus.Cancelled) > 0
  }

  /** The attempt `a` of the first step is still running when its lease has run out, and a cancellation is pending. */
  predicate Stalled(s: Setup, d: Durable, a: Attempt)
    requires s.plan.steps != []
  {
    && d.tables.attempts == [a] && IsAttempt(a, s.plan.id, s.execution, s.plan.steps[0].id, 1) && a.status == AttemptStatus.Running
    && d.tables.now == a.leaseExpiresAt == a.createdAt + LEASE_DURATION_MS && HeldBy(d.tables, s.plan.id, s.execution)
    && s.plan.id in d.checkpoints && d.checkpoints[s.plan.id].status.Running? && d.checkpoints[s.plan.id].currentStep == 0
    && d.checkpoints[s.plan.id].cancellationRequested
  }

  lemma AskedAndStalled(s: Setup, w: World)
    requires FirstInFlight(s, w) && HeldBy(w.d.tables, s.plan.id, s.execution)
    ensures var w' := Do(s, Do(s, w, CancelRequestMove), TickMove(LEASE_DURATION_MS));
      w'.ps == w.ps && w'.rows == w.rows && Stalled(s, w'.d, w.d.tables.attempts[0])
  {
    assert w.d.tables.attempts == [w.d.tables.attempts[0]];
    hide HasAutomaticKey;
  }

  lemma StalledIsLatest(s: Setup, d: Durable, a: Attempt)
    requires s.plan.steps != [] && Stalled(s, d, a)
    ensures LatestAttempt(d.tables.attempts, s.plan.id, s.execution, s.plan.steps[0].id) == Some(a)
    ensures !Lateness(s, d.tables) && !Exhaustion(s, d.tables)
  {
    hide LatestAttempt;
    LatestOfOne(a, s.plan.steps[0].id);
    OneIsNotMany(s, d.tables);
  }

  lemma StalledIsCancelled(s: Setup, d: Durable, a: Attempt)
    requires GoodSetup(s) && s.plan.steps != [] && Stalled(s, d, a)
    ensures AttemptCancelled(s, d, NO_EVIDENCE) ==
      d.(tables := FinalizeAttempt(d.tables, s.plan.id, s.execution, s.plan.steps[0].id, 1, AttemptStatus.Cancelled).tables)
  {
    StalledIsLatest(s, d, a);
    DiagnosedFromLatest(s, d, NO_EVIDENCE);
    hide LatestAttempt, Lateness, Exhaustion, Diagnose, FinalizeAttempt, GoodSetup, ReconOf, Seen;
    assert Seen(s, 0, NO_EVIDENCE) == NO_EVIDENCE by { SeesNothing(s, 0); }
  }

  lemma SeesNothing(s: Setup, k: nat)
    requires k < |s.plan.steps|
    ensures Seen(s, k, NO_EVIDENCE) == NO_EVIDENCE
  {
    hide Blank;
  }

  lemma CancelledOnRecord(s: Setup, t: Tables, id: Id)
    requires !Blank(s.plan.id) && !Blank(s.execution) && HasAttempt(t.attempts, s.plan.id, s.execution, id, 1)
    ensures var t' := FinalizeAttempt(t, s.plan.id, s.execution, id, 1, AttemptStatus.Cancelled).tables;
      && CleanRuns.Finals(t'.ledger, s.plan.id, s.execution, id, 1, AttemptStatus.Cancelled) > 0
      && HasAttempt(t'.attempts, s.plan.id, s.execution, id, 1)
  {
    var t' := FinalizeAttempt(t, s.plan.id, s.execution, id, 1, AttemptStatus.Cancelled).tables;
    CleanRuns.OneMoreCount(t.ledger, AttemptEvent(t, s.plan.id, s.execution, id, 1, AttemptFinalized(AttemptStatus.Cancelled)),
                           s.plan.id, s.execution, id, 1);
    var a :| a in t.attempts && IsAttempt(a, s.plan.id, s.execution, id, 1);
    var i :| 0 <= i < |t.attempts| && t.attempts[i] == a;
    assert t'.attempts[i] in t'.attempts;
    hide Blank, CleanRuns.Finals;
  }

  lemma StalledBehind(s: Setup, worker: Id, effect: SideEffect) returns (a: Attempt)
    requires GoodSetup(s) && s.plan.steps != [] && !Blank(s.plan.steps[0].id)
    ensures var w := DoAll(s, Beginning(s), AskedBehind(worker, effect));
      && Stalled(s, w.d, a) && w.ps == [InFlight(0, 1)] && |w.rows| == |s.plan.steps| && w.rows[0].Running?
  {
    var launch, begin, tick := LaunchMove(worker, OPEN_GATES), ProcessMove(0, Begin(worker, effect)), TickMove(LEASE_DURATION_MS);
    Launched(s, worker);
    hide Do, DoAll, Fresh, Beginning, Blank, GoodSetup, HasAutomaticKey, Stalled;
    Next(s, Beginning(s), [launch], begin);
    Next(s, Beginning(s), [launch] + [begin], CancelRequestMove);
    Next(s, Beginning(s), [launch] + [begin] + [CancelRequestMove], tick);
    FirstBegins(s, DoAll(s, Beginning(s), [launch]), 0, worker, effect);
    AskedAndStalled(s, DoAll(s, Beginning(s), [launch] + [begin]));
    a := DoAll(s, Beginning(s), [launch] + [begin]).d.tables.attempts[0];
  }

  lemma CutShortCancels(s: Setup, w: World, a: Attempt)
    requires GoodSetup(s) && s.plan.steps != [] && Stalled(s, w.d, a) && w.ps == [InFlight(0, 1)]
    requires |w.rows| == |s.plan.steps| && w.rows[0].Running?
    ensures FirstCancelled(s, Do(s, w, CutShortMove(CancelRunning(NO_EVIDENCE))))
  {
    StalledIsCancelled(s, w.d, a);
    assert a in w.d.tables.attempts;
    CancelledOnRecord(s, w.d.tables, s.plan.steps[0].id);
    CutShortIs(s, w, NO_EVIDENCE);
    hide Do, Blank, FinalizeAttempt, AttemptCancelled, CleanRuns.Finals;
  }

  lemma CutShortIs(s: Setup, w: World, evidence: StepEvidence)
    ensures Do(s, w, CutShortMove(CancelRunning(evidence))) == w.(d := AttemptCancelled(s, w.d, evidence))
  {
    hide AttemptCancelled;
  }

  lemma CancelledBehindIt(s: Setup, worker: Id, effect: SideEffect)
    requires GoodSetup(s) && s.plan.steps != [] && !Blank(s.plan.steps[0].id)
    ensures var w := DoAll(s, Beginning(s), CancelledBehind(worker, effect));
      FirstCancelled(s, w) && AttemptsConsistent(w.d.tables, s.plan.id)
  {
    var asked, cut := AskedBehind(worker, effect), CutShortMove(CancelRunning(NO_EVIDENCE));
    var w := DoAll(s, Beginning(s), asked);
    var a := StalledBehind(s, worker, effect);
    RunKeepsInv(s, asked);
    OneAttemptIsConsistent(s, asked, [a]);
    CutShortCancels(s, w, a);
    Next(s, Beginning(s), asked, cut);
    hide Do, DoAll, Inv, Beginning, AttemptsConsistent, Blank, GoodSetup, Stalled, FirstCancelled, AskedBehind;
    CheckBrokenExactly(s, w, cut);
  }

  /** The process finds its lease lost and ends the attempt in its turn: nothing in the transaction refuses that, the ledger has
      the end twice, and the attempt check complains. */
  lemma AttemptEndsTwice(s: Setup, worker: Id, effect: SideEffect)
    requires GoodSetup(s) && s.plan.steps != [] && !Blank(s.plan.steps[0].id)
    ensures var w := DoAll(s, Beginning(s), CancelledBehind(worker, effect));
            var w' := Do(s, w, ProcessMove(0, End(AttemptStatus.Cancelled, worker)));
      && AttemptsConsistent(w.d.tables, s.plan.id) && !AttemptsConsistent(w'.d.tables, s.plan.id)
      && w.ps == [InFlight(0, 1)] && w'.ps == [Dead]
  {
    var m := ProcessMove(0, End(AttemptStatus.Cancelled, worker));
    var w := DoAll(s, Beginning(s), CancelledBehind(worker, effect));
    CancelledBehindIt(s, worker, effect);
    RunKeepsInv(s, CancelledBehind(worker, effect));
    CancelledEnds(s, w, worker);
    hide Do, DoAll, Inv, Beginning, AttemptsConsistent, Blank, GoodSetup, Ends, EndsOnRecord;
    CheckBrokenExactly(s, w, m);
  }

  lemma CancelledEnds(s: Setup, w: World, worker: Id)
    requires GoodSetup(s) && FirstCancelled(s, w)
    ensures var m := ProcessMove(0, End(AttemptStatus.Cancelled, worker));
      Ends(s, w, m) && Do(s, w, m).ps == [Dead]
  {
    hide EndsOnRecord, Blank;
  }
}
