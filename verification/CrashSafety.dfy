/** Crash safety of whole runs: what is never done twice, where a recovery may start, when the attempt check complains. */
module CrashSafety {
  import opened Common
  import opened ExecutionTables
  import opened AttemptIdentity
  import opened Normalisers
  import opened StateStore
  import opened Reconciliation
  import opened Recovery
  import opened CrashRecovery
  import opened RecoveryProgress
  import opened CrashModel
  import opened CrashInvariant
  import IntegrityChecker
  import CleanRuns
  import OperatorRetry
  import Rows = SnapshotStore

  // ----- Crash safety -----

  predicate DonePrefix(s: Setup, t: Tables, m: int) {
    forall k: nat :: k < |s.plan.steps| ==> (StepDone(s, t, k) <==> k < m)
  }

  lemma PrefixInv(s: Setup, w: World)
    requires Inv(s, w)
    ensures -1 <= LastOf(w.d, s.plan.id) && DonePrefix(s, w.d.tables, LastOf(w.d, s.plan.id) + 1)
    ensures s.plan.id in w.d.checkpoints ==> LastOf(w.d, s.plan.id) < |s.plan.steps|
  {
    LastInRange(s, w.d);
    hide StepDone, Sound, ProcessOk, RowsAgree, WithinReach, RunningIsFresh, CleanRuns.Tracked, OnlyOurs;
  }

  /** After any run the completed steps are exactly the prefix of the plan that the checkpoint counts. */
  lemma CompletedStepsAreAPrefix(s: Setup, moves: seq<Move>)
    requires GoodSetup(s)
    ensures var w := DoAll(s, Beginning(s), moves);
      -1 <= LastOf(w.d, s.plan.id) && DonePrefix(s, w.d.tables, LastOf(w.d, s.plan.id) + 1)
  {
    hide DoAll, Inv, DonePrefix, Beginning;
    RunKeepsInv(s, moves);
    PrefixInv(s, DoAll(s, Beginning(s), moves));
  }

  /** The transactions that begin and end attempts. */
  ghost predicate Begins(s: Setup, w: World, m: Move) {
    && m.ProcessMove? && m.act.Begin? && m.p < |w.ps| && w.ps[m.p].At? && InPlan(s, w.rows, w.ps[m.p].step)
    && Do(s, w, m).ps[m.p].InFlight?
  }

  ghost predicate Ends(s: Setup, w: World, m: Move) {
    && m.ProcessMove? && m.act.End? && Ending(m.act.status) && m.p < |w.ps| && w.ps[m.p].InFlight? && InPlan(s, w.rows, w.ps[m.p].step)
    && Do(s, w, m).ps[m.p] != w.ps[m.p]
  }

  /** Every other move only advances, or is a pause or a retry. */
  lemma OtherMovesAreGentle(s: Setup, w: World, m: Move)
    requires GoodSetup(s) && Inv(s, w) && !Begins(s, w, m) && !Ends(s, w, m)
    ensures Gentle(w.d.tables, Do(s, w, m).d.tables)
  {
    InvParts(s, w);
    hide Inv, Good, Sound, History, RowsAgree, GoodSetup, RetryAllowed, CutShort, SnapshotAllowed, Gentle, TurnOf, Launch, Recover,
         ProcessOk, Forward;
    SameTablesGentle(w.d.tables);
    match m
    case LaunchMove(worker, gates) => LaunchAdvances(s, w.d, worker, gates);
    case RecoverMove(worker, gates) => RecoverAdvances(s, w.d, worker, gates);
    case CutShortMove(part) => CutShortKeeps(s, w.d, part);
    case RetryMove(step) =>
    case ResumeMove(step, worker) => LockAdvances(s, w.d, worker);
    case CancelRequestMove =>
    case SnapshotMove(rows) =>
    case TickMove(ms) => ClockKeeps(s, w.d, ms);
    case ProcessMove(p, act) =>
      if p < |w.ps| {
        OtherTurnsAreGentle(s, w, p, act);
      }
  }

  lemma OtherTurnsAreGentle(s: Setup, w: World, p: nat, act: Act)
    requires Inv(s, w) && p < |w.ps| && !Begins(s, w, ProcessMove(p, act)) && !Ends(s, w, ProcessMove(p, act))
    ensures Gentle(w.d.tables, TurnOf(s, w.d, w.rows, w.ps[p], act).d.tables)
  {
    InvParts(s, w);
    hide Inv, Good, Sound, History, RowsAgree, Gentle, ProcessOk, Forward, FinalizeAttempt, CreateAttempt, HeartbeatAttempt, FinalizeTransition,
         Admits, ReleaseFor;
    SameTablesGentle(w.d.tables);
    if QuietAct(w.ps[p], act) {
      QuietTurnAdvances(s, w.d, w.rows, w.ps[p], act);
    } else if act.Pause? {
      ReleaseAdvances(s, AwaitReview(w.d, s.plan.id, w.ps[p].step).durable, act.worker);
    }
  }

  function Attempts(d: Durable): nat {
    |d.tables.attempts|
  }

  lemma GentleSameCount(t: Tables, t': Tables)
    requires Gentle(t, t')
    ensures |t'.attempts| == |t.attempts|
  {
    hide CleanRuns.InOrder, CleanRuns.Tracked;
  }

  lemma EndSameCount(s: Setup, w: World, m: Move)
    requires Ends(s, w, m)
    ensures Attempts(Do(s, w, m).d) == Attempts(w.d)
  {
    EndTables(s, w, m);
  }

  lemma EndTables(s: Setup, w: World, m: Move)
    requires Ends(s, w, m)
    ensures var p := w.ps[m.p]; var ended := FinalizeAttempt(w.d.tables, s.plan.id, s.execution, s.plan.steps[p.step].id, p.number, m.act.status);
      && ended.result.Ok? && Admits(w.rows[p.step], EndedRow(m.act.status))
      && Do(s, w, m).d.tables.attempts == ended.tables.attempts
      && (if m.act.status.Cancelled? then CleanRuns.Quiet(ended.tables, Do(s, w, m).d.tables) else Do(s, w, m).d.tables == ended.tables)
      && LastOf(Do(s, w, m).d, s.plan.id) == (if m.act.status.Completed? then p.step else LastOf(w.d, s.plan.id))
  {
    var p, worker := w.ps[m.p], m.act.worker;
    EndTurnIs(s, w.d, w.rows, p.step, p.number, m.act.status, worker);
    hide FinalizeAttempt, Admits, CleanRuns.Quiet, Release;
    var ended := EndedState(s, w.d, p.step, p.number, m.act.status);
    CleanRuns.QuietOp(ended.tables, OpRelease(s.plan.id, s.execution, worker));
    ReleaseSameAttempts(ended.tables, s.plan.id, s.execution, worker);
  }

  lemma ReleaseSameAttempts(t: Tables, plan: Id, execution: Id, worker: Id)
    ensures Release(t, plan, execution, worker).tables.attempts == t.attempts
  {
  }

  /** Whatever crashed or stalled before, and whoever else is alive, an attempt is only ever begun for the first step that
      has no completed attempt. */
  lemma CompletedStepsAreNeverRestarted(s: Setup, moves: seq<Move>, m: Move)
    requires GoodSetup(s)
    requires Attempts(Do(s, DoAll(s, Beginning(s), moves), m).d) > Attempts(DoAll(s, Beginning(s), moves).d)
    ensures var w := DoAll(s, Beginning(s), moves);
      && Begins(s, w, m) && w.ps[m.p].step < |s.plan.steps|
      && w.ps[m.p].step == LastOf(w.d, s.plan.id) + 1 && DonePrefix(s, w.d.tables, w.ps[m.p].step)
  {
    RunKeepsInv(s, moves);
    var w := DoAll(s, Beginning(s), moves);
    hide DoAll, Inv, DonePrefix, Beginning, GoodSetup, Do, Gentle, Ends;
    if Ends(s, w, m) {
      EndSameCount(s, w, m);
    } else if !Begins(s, w, m) {
      OtherMovesAreGentle(s, w, m);
      GentleSameCount(w.d.tables, Do(s, w, m).d.tables);
    }
    BeginsAtFirstOpen(s, w, m);
    PrefixInv(s, w);
  }

  lemma BeginsAtFirstOpen(s: Setup, w: World, m: Move)
    requires Inv(s, w) && Begins(s, w, m)
    ensures w.ps[m.p].step == LastOf(w.d, s.plan.id) + 1 && !StepDone(s, w.d.tables, w.ps[m.p].step)
  {
    InvParts(s, w);
    HistoryParts(s, w.d);
    hide Inv, Good, Sound, History, Exact, StepDone, RowsAgree, CleanRuns.Tracked, NumberedInOrder, Admits, CreateAttempt, ProcessOk;
    var p := w.ps[m.p];
    assert p in w.ps;
    OpenRow(s, w.d.tables, w.rows, p.step, Rows.Running);
    OpenIsNext(s, w.d, p);
  }

  lemma EndsAtFirstOpen(s: Setup, w: World, m: Move)
    requires Inv(s, w) && Ends(s, w, m)
    ensures w.ps[m.p].step == LastOf(w.d, s.plan.id) + 1 && !StepDone(s, w.d.tables, w.ps[m.p].step)
  {
    InvParts(s, w);
    HistoryParts(s, w.d);
    EndTables(s, w, m);
    hide Inv, Good, Sound, History, Exact, StepDone, RowsAgree, CleanRuns.Tracked, NumberedInOrder, Admits, Ends, ProcessOk;
    var p := w.ps[m.p];
    assert p in w.ps;
    OpenRow(s, w.d.tables, w.rows, p.step, EndedRow(m.act.status));
    OpenIsNext(s, w.d, p);
  }

  /** Progress never falls, and it rises by one step at a time: when a process completes an attempt of the first open step. Of
      several workers at one step only the first to finish counts. */
  lemma ProgressIsOneStepAtATime(s: Setup, moves: seq<Move>, m: Move)
    requires GoodSetup(s)
    ensures var w := DoAll(s, Beginning(s), moves); var before, after := LastOf(w.d, s.plan.id), LastOf(Do(s, w, m).d, s.plan.id);
      && (after == before || after == before + 1)
      && (after == before + 1 <==> Ends(s, w, m) && m.act.status.Completed?)
      && (after == before + 1 ==> w.ps[m.p].step == after)
  {
    var w := DoAll(s, Beginning(s), moves);
    RunKeepsInv(s, moves);
    hide DoAll, Do, Inv, Beginning, GoodSetup, Ends, Begins, Gentle;
    MoveKeepsInv(s, w, m);
    if Ends(s, w, m) {
      EndsAtFirstOpen(s, w, m);
      EndTables(s, w, m);
    } else if Begins(s, w, m) {
      BeginKeepsProgress(s, w, m);
    } else {
      OtherMovesAreGentle(s, w, m);
      SameProgress(s, w, Do(s, w, m));
    }
  }

  lemma BeginKeepsProgress(s: Setup, w: World, m: Move)
    requires Begins(s, w, m)
    ensures LastOf(Do(s, w, m).d, s.plan.id) == LastOf(w.d, s.plan.id)
  {
    hide CreateAttempt, Admits;
  }

  /** Where no attempt completes the count of completed steps stays. */
  lemma SameProgress(s: Setup, w: World, w': World)
    requires Inv(s, w) && Inv(s, w') && Gentle(w.d.tables, w'.d.tables)
    ensures LastOf(w'.d, s.plan.id) == LastOf(w.d, s.plan.id)
  {
    PrefixInv(s, w);
    PrefixInv(s, w');
    RowOrNone(s, w.d);
    hide Inv, CleanRuns.InOrder, CleanRuns.Tracked, StepDone, SameEndings;
    SameEndingsSameCompletions(w.d.tables.attempts, w'.d.tables.attempts);
    var before, after := LastOf(w.d, s.plan.id), LastOf(w'.d, s.plan.id);
    if before < after {
      SameCompletionsSameDone(s, w.d.tables, w'.d.tables, after);
    } else if after < before {
      SameCompletionsSameDone(s, w.d.tables, w'.d.tables, before);
    }
  }

  lemma RowOrNone(s: Setup, d: Durable)
    ensures s.plan.id !in d.checkpoints ==> LastOf(d, s.plan.id) == -1
  {
  }

  // ----- Attempts that do not succeed -----

  /** What the end of an attempt leaves: checkpoint, row and process. */
  lemma EndLeaves(s: Setup, w: World, m: Move)
    requires Inv(s, w) && Ends(s, w, m)
    ensures var i := w.ps[m.p].step; var w' := Do(s, w, m);
      && s.plan.id in w.d.checkpoints && s.plan.id in w'.d.checkpoints
      && var c, c' := w.d.checkpoints[s.plan.id], w'.d.checkpoints[s.plan.id];
         && c'.cancellationRequested == c.cancellationRequested
         && match m.act.status
            case Completed =>
              && c'.lastCompleted == i && w'.rows == w.rows[i := Rows.Completed]
              && (if i + 1 < |s.plan.steps| then c'.status.Running? && c'.currentStep == i + 1 && w'.ps[m.p] == At(i + 1)
                  else c'.status.Completed? && w'.ps[m.p] == Closing(CheckpointStatus.Completed))
            case Failed =>
              c'.status.Failed? && c'.currentStep == i && c'.lastCompleted == c.lastCompleted && w'.rows == w.rows[i := Rows.Failed]
              && w'.ps[m.p] == Stuck(i)
            case _ =>
              c'.status.AwaitingReview? && c'.currentStep == i && c'.lastCompleted == c.lastCompleted
              && w'.rows == w.rows[i := Rows.PausedForReview] && w'.ps[m.p] == Dead
  {
    var p, worker := w.ps[m.p], m.act.worker;
    EndTurnIs(s, w.d, w.rows, p.step, p.number, m.act.status, worker);
    hide FinalizeAttempt, Admits, Release, Inv;
  }

  /** After an attempt that did not succeed no recovery starts the plan again: a failure is final until an operator acts, and a
      pause waits for its review. */
  lemma UnsuccessfulEndsStopThePlan(s: Setup, w: World, m: Move, worker: Id, g: Gates)
    requires Inv(s, w) && Ends(s, w, m) && !m.act.status.Completed?
    ensures var w' := Do(s, w, m); Do(s, w', RecoverMove(worker, g)).ps == w'.ps
  {
    EndLeaves(s, w, m);
    var w' := Do(s, w, m);
    StoppedPlanStaysStopped(w'.d, s.plan, s.execution, worker, g);
    RecoverStartsNothing(s, w', worker, g);
  }

  lemma StoppedPlanStaysStopped(d: Durable, p: EnginePlan, execution: Id, worker: Id, g: Gates)
    requires p.id in d.checkpoints && (Terminal(d.checkpoints[p.id].status) || NeedsOperator(d.checkpoints[p.id].status))
    ensures Recover(d, p, execution, worker, g).startAt.None?
  {
    hide Validate, AttemptAlive, RecoverLocked;
  }

  lemma RecoverStartsNothing(s: Setup, w: World, worker: Id, g: Gates)
    requires Recover(w.d, s.plan, s.execution, worker, g).startAt.None?
    ensures Do(s, w, RecoverMove(worker, g)).ps == w.ps
  {
    hide Recover;
  }

  predicate RetriesUpTo(m: Move, k: nat) {
    m.RetryMove? && m.step <= k
  }

  lemma FailedRowStays(s: Setup, w: World, m: Move, k: nat)
    requires GoodSetup(s) && Inv(s, w) && k < |w.rows| && w.rows[k].Failed? && !RetriesUpTo(m, k)
    ensures k < |Do(s, w, m).rows| && Do(s, w, m).rows[k].Failed?
    ensures (Begins(s, w, m) || Ends(s, w, m)) ==> w.ps[m.p].step != k
  {
    NothingAtFailedRow(s, w, m, k);
    hide Inv, GoodSetup, CutShort, Launch, Recover, RetryAllowed, Retried, Begins, Ends, TurnOf, AcquireOrReuse;
    if m.ProcessMove? && m.p < |w.ps| {
      TurnKeepsFailedRow(s, w.d, w.rows, w.ps[m.p], m.act, k);
    }
  }

  lemma TurnKeepsFailedRow(s: Setup, d: Durable, rows: seq<Rows.RowStatus>, p: Process, act: Act, k: nat)
    requires k < |rows| && rows[k].Failed?
    ensures var t := TurnOf(s, d, rows, p, act); k < |t.rows| && t.rows[k].Failed?
  {
    hide CreateAttempt, FinalizeAttempt, HeartbeatAttempt, FinalizeTransition, ReleaseFor;
  }

  /** A step that has failed stays so, and no attempt of it is begun or ended by anyone, until an operator retries it or a step
      before it. */
  lemma {:induction false} FailedStepsWaitForTheOperator(s: Setup, w: World, moves: seq<Move>, m: Move, k: nat)
    requires GoodSetup(s) && Inv(s, w) && k < |w.rows| && w.rows[k].Failed?
    requires forall i :: 0 <= i < |moves| ==> !RetriesUpTo(moves[i], k)
    ensures var w' := DoAll(s, w, moves);
      && Inv(s, w') && k < |w'.rows| && w'.rows[k].Failed?
      && (Begins(s, w', m) || Ends(s, w', m) ==> w'.ps[m.p].step != k)
  {
    hide Inv, Do, GoodSetup, Begins, Ends;
    if moves == [] {
      NothingAtFailedRow(s, w, m, k);
    } else {
      FailedStepsWaitForTheOperator(s, w, Init(moves), m, k);
      var before := DoAll(s, w, Init(moves));
      FailedRowStays(s, before, Last(moves), k);
      MoveKeepsInv(s, before, Last(moves));
      NothingAtFailedRow(s, Do(s, before, Last(moves)), m, k);
    }
  }

  lemma NothingAtFailedRow(s: Setup, w: World, m: Move, k: nat)
    requires k < |w.rows| && w.rows[k].Failed?
    ensures Begins(s, w, m) || Ends(s, w, m) ==> w.ps[m.p].step != k
  {
    hide CreateAttempt, FinalizeAttempt, HeartbeatAttempt, FinalizeTransition, ReleaseFor, CutShort, Launch, Recover;
  }

  // ----- Restarts -----

  /** The only ways a step left running is taken up again by itself: it is flagged idempotent, and it was never attempted, or
      with the lock already released a cancellation is pending over an attempt whose lease still runs. */
  predicate SafeRestart(s: Setup, d: Durable, i: nat)
    requires s.plan.id in d.checkpoints && i < |s.plan.steps|
  {
    var c := d.checkpoints[s.plan.id];
    var latest := LatestAttempt(d.tables.attempts, s.plan.id, s.execution, s.plan.steps[i].id);
    && s.plan.steps[i].idempotent && i == c.currentStep
    && (latest.None?
        || (!IsLocked(d.tables, s.plan.id) && c.cancellationRequested
            && latest.value.status == AttemptStatus.Running && latest.value.leaseExpiresAt > d.tables.now))
  }

  /** When a recovery starts a process, whoever else is alive, it does so at the first step without a completed attempt; if a
      step was left running, it is that step and the restart is safe; if none was, the checkpoint was pending or paused. In
      particular a failed attempt is never retried by itself: the transaction that ends it also fails the checkpoint. */
  lemma RecoveryRestartsOnlySafely(s: Setup, moves: seq<Move>, worker: Id, g: Gates)
    requires GoodSetup(s)
    requires |Do(s, DoAll(s, Beginning(s), moves), RecoverMove(worker, g)).ps| > |DoAll(s, Beginning(s), moves).ps|
    ensures var w := DoAll(s, Beginning(s), moves); var w' := Do(s, w, RecoverMove(worker, g));
      && w'.ps[..|w.ps|] == w.ps && |w'.ps| == |w.ps| + 1 && Last(w'.ps).At?
      && var i := Last(w'.ps).step;
         && i < |s.plan.steps| && DonePrefix(s, w.d.tables, i)
         && s.plan.id in w.d.checkpoints
         && (w.d.checkpoints[s.plan.id].status.Running? ==> SafeRestart(s, w.d, i))
         && (!w.d.checkpoints[s.plan.id].status.Running? ==> Restartable(w.d.checkpoints[s.plan.id].status))
  {
    RunKeepsInv(s, moves);
    var w := DoAll(s, Beginning(s), moves);
    InvParts(s, w);
    hide DoAll, Beginning, Inv, Good, SafeRestart, DonePrefix, GoodSetup, Recover, Sound, History, StartReason, ReadyAt, AttemptAlive;
    RecoverOutcome(s, w.d, worker, g);
    ReasonIsSafe(s, w.d, Recover(w.d, s.plan, s.execution, worker, g).startAt.value);
  }

  lemma LiveAttemptIsSeen(s: Setup, d: Durable, a: Attempt)
    requires Sound(s, d) && a in d.tables.attempts && a.planId == s.plan.id && a.executionId == s.execution
    requires a.status == AttemptStatus.Running && a.leaseExpiresAt > d.tables.now
    ensures IsLocked(d.tables, s.plan.id) ==> AttemptAlive(d.tables, s.plan.id)
  {
  }

  /** A step left running has not completed, and its last attempt has not failed. */
  lemma RunningIsOpen(s: Setup, d: Durable)
    requires Sound(s, d) && History(s, d) && s.plan.id in d.checkpoints && d.checkpoints[s.plan.id].status.Running?
    ensures var c := d.checkpoints[s.plan.id];
      && 0 <= c.currentStep == c.lastCompleted + 1 < |s.plan.steps| && !StepDone(s, d.tables, c.currentStep)
      && var latest := LatestAttempt(d.tables.attempts, s.plan.id, s.execution, s.plan.steps[c.currentStep].id);
         latest.Some? ==> latest.value.status != AttemptStatus.Failed && latest.value.status != AttemptStatus.Completed
  {
    hide StepDone, NumberedInOrder, CompletedIsLast, CleanRuns.Tracked, OnlyOurs, WithinReach;
    var c := d.checkpoints[s.plan.id];
    RunningPosition(s, d);
    LatestTellsDone(s, d.tables, c.lastCompleted, c.currentStep);
    var latest := LatestAttempt(d.tables.attempts, s.plan.id, s.execution, s.plan.steps[c.currentStep].id);
    if latest.Some? {
      assert LastNotFailed(s, d.tables, c.currentStep);
    }
  }

  lemma ReasonIsSafe(s: Setup, d: Durable, i: int)
    requires StartReason(s, d, i) && !AttemptAlive(d.tables, s.plan.id) && Sound(s, d) && History(s, d)
    ensures s.plan.id in d.checkpoints && 0 <= i < |s.plan.steps| && DonePrefix(s, d.tables, i)
    ensures d.checkpoints[s.plan.id].status.Running? ==> SafeRestart(s, d, i)
    ensures !d.checkpoints[s.plan.id].status.Running? ==> Restartable(d.checkpoints[s.plan.id].status)
  {
    hide StepDone, NumberedInOrder, CompletedIsLast, CleanRuns.Tracked, OnlyOurs, WithinReach, LatestAttempt, AttemptAlive;
    var c := d.checkpoints[s.plan.id];
    if c.status.Running? {
      RunningIsOpen(s, d);
      var latest := LatestAttempt(d.tables.attempts, s.plan.id, s.execution, s.plan.steps[c.currentStep].id);
      var action :| GoesOn(action) && MayRestart(s, d.tables, c, action);
      if action.CancelPending? {
        LiveAttemptIsSeen(s, d, latest.value);
      }
    }
  }

  // ----- When the attempt check complains -----

  lemma OursJoinDistinct(s: Setup, t: Tables)
    requires OnlyOurs(s, t)
    ensures IntegrityChecker.JoinsDistinct(t.attempts, s.plan.id)
  {
    forall a, b | a in t.attempts && b in t.attempts && IntegrityChecker.GroupKey(a) == IntegrityChecker.GroupKey(b)
      ensures a.stepId == b.stepId
    {
      var prefix := s.execution + ":";
      assert IntegrityChecker.GroupKey(a) == prefix + a.stepId && IntegrityChecker.GroupKey(b) == prefix + b.stepId;
      assert a.stepId == (prefix + a.stepId)[|prefix|..];
      assert b.stepId == (prefix + b.stepId)[|prefix|..];
    }
  }

  lemma CheckComplainsInHistory(s: Setup, d: Durable)
    requires History(s, d)
    ensures AttemptsConsistent(d.tables, s.plan.id) <==>
      IntegrityChecker.OneRunning(d.tables.attempts, s.plan.id) && CleanRuns.EndedOnce(d.tables, s.plan.id)
  {
    HistoryParts(s, d);
    hide History, OnlyOurs, CleanRuns.Tracked, CleanRuns.EndedOnce, IntegrityChecker.JoinsDistinct, IntegrityChecker.OneRunning,
         IntegrityChecker.KeyedConsistent;
    OursJoinDistinct(s, d.tables);
    CleanRuns.TrackedCheck(d.tables, s.plan.id);
  }

  /** In a run the attempt check complains exactly while two attempts of one step are running or one has ended twice alike. */
  lemma CheckComplainsExactly(s: Setup, moves: seq<Move>)
    requires GoodSetup(s)
    ensures var t := DoAll(s, Beginning(s), moves).d.tables;
      AttemptsConsistent(t, s.plan.id) <==> IntegrityChecker.OneRunning(t.attempts, s.plan.id) && CleanRuns.EndedOnce(t, s.plan.id)
  {
    RunKeepsInv(s, moves);
    InvParts(s, DoAll(s, Beginning(s), moves));
    hide DoAll, Beginning, Inv, Good, Sound, History, AttemptsConsistent, IntegrityChecker.OneRunning, CleanRuns.EndedOnce;
    CheckComplainsInHistory(s, DoAll(s, Beginning(s), moves).d);
  }

  ghost predicate NoneStarted(a: seq<Attempt>, b: seq<Attempt>) {
    SameIdentities(a, b) && forall i :: 0 <= i < |a| ==> b[i].status.Running? ==> a[i].status.Running?
  }

  lemma {:induction false} FewerRunning(before: seq<Attempt>, after: seq<Attempt>, plan: Id, execution: Id, step: Id)
    requires NoneStarted(before, after)
    ensures IntegrityChecker.RunningCount(IntegrityChecker.RowsOf(after, plan, execution, step))
         <= IntegrityChecker.RunningCount(IntegrityChecker.RowsOf(before, plan, execution, step))
  {
    if before != [] {
      FewerRunning(Init(before), Init(after), plan, execution, step);
      CleanRuns.RunningOneMore(before, plan, execution, step);
      CleanRuns.RunningOneMore(after, plan, execution, step);
    }
  }

  lemma NoneStartedKeepsOne(before: seq<Attempt>, after: seq<Attempt>, plan: Id)
    requires IntegrityChecker.OneRunning(before, plan) && NoneStarted(before, after)
    ensures IntegrityChecker.OneRunning(after, plan)
  {
    hide NoneStarted, IntegrityChecker.RunningCount, IntegrityChecker.RowsOf;
    forall e, st
      ensures IntegrityChecker.RunningCount(IntegrityChecker.RowsOf(after, plan, e, st)) <= 1
    {
      FewerRunning(before, after, plan, e, st);
      assert IntegrityChecker.RunningCount(IntegrityChecker.RowsOf(before, plan, e, st)) <= 1;
    }
  }

  /** How many attempts of step `k` are running. */
  function Active(s: Setup, t: Tables, k: nat): nat
    requires k < |s.plan.steps|
  {
    IntegrityChecker.RunningCount(IntegrityChecker.RowsOf(t.attempts, s.plan.id, s.execution, s.plan.steps[k].id))
  }

  lemma OneMoreRunning(s: Setup, t: Tables, a: Attempt, k: nat)
    requires IntegrityChecker.OneRunning(t.attempts, s.plan.id) && k < |s.plan.steps|
    requires OfStep(a, s.plan.id, s.execution, s.plan.steps[k].id) && a.status.Running?
    ensures IntegrityChecker.OneRunning(t.attempts + [a], s.plan.id) <==> Active(s, t, k) == 0
  {
    hide IntegrityChecker.RunningCount, IntegrityChecker.RowsOf;
    var after := t.attempts + [a];
    assert Init(after) == t.attempts && Last(after) == a;
    CleanRuns.RunningOneMore(after, s.plan.id, s.execution, s.plan.steps[k].id);
    assert IntegrityChecker.RunningCount(IntegrityChecker.RowsOf(t.attempts, s.plan.id, s.execution, s.plan.steps[k].id)) <= 1;
    if Active(s, t, k) == 0 {
      forall e, st
        ensures IntegrityChecker.RunningCount(IntegrityChecker.RowsOf(after, s.plan.id, e, st)) <= 1
      {
        CleanRuns.RunningOneMore(after, s.plan.id, e, st);
        assert IntegrityChecker.RunningCount(IntegrityChecker.RowsOf(t.attempts, s.plan.id, e, st)) <= 1;
      }
    }
  }

  lemma SameEndingsStartsNone(a: seq<Attempt>, b: seq<Attempt>)
    requires SameEndings(a, b)
    ensures NoneStarted(a, b)
  {
  }

  /** Consistent tables of a run are in order, and the other way round but for attempts that run side by side. */
  lemma ConsistentIsOrdered(s: Setup, t: Tables)
    requires CleanRuns.Tracked(t) && OnlyOurs(s, t)
    ensures CleanRuns.EndedOnce(t, s.plan.id) <==> CleanRuns.InOrder(t)
  {
    hide CleanRuns.Tracked, CleanRuns.InOrder, CleanRuns.EndedOnce;
    CleanRuns.InOrderIsTracked(t);
  }

  lemma GentleKeepsConsistent(s: Setup, d: Durable, d': Durable)
    requires History(s, d) && History(s, d') && Gentle(d.tables, d'.tables) && AttemptsConsistent(d.tables, s.plan.id)
    ensures AttemptsConsistent(d'.tables, s.plan.id)
  {
    HistoryParts(s, d);
    HistoryParts(s, d');
    CheckComplainsInHistory(s, d);
    CheckComplainsInHistory(s, d');
    hide History, SameEndings, OnlyOurs, NoneStarted, CleanRuns.Tracked, CleanRuns.InOrder, CleanRuns.EndedOnce, AttemptsConsistent,
         IntegrityChecker.OneRunning;
    ConsistentIsOrdered(s, d.tables);
    ConsistentIsOrdered(s, d'.tables);
    SameEndingsStartsNone(d.tables.attempts, d'.tables.attempts);
    NoneStartedKeepsOne(d.tables.attempts, d'.tables.attempts, s.plan.id);
  }

  lemma BeginTables(s: Setup, w: World, m: Move)
    requires Begins(s, w, m)
    ensures var i := w.ps[m.p].step;
            var made := CreateAttempt(w.d.tables, s.plan.id, s.execution, s.plan.steps[i].id, m.act.effect, None, m.act.worker);
      && made.result.Ok? && Do(s, w, m).d.tables == made.tables
      && made.tables.attempts == w.d.tables.attempts + [made.result.value] && made.result.value.status.Running?
      && OfStep(made.result.value, s.plan.id, s.execution, s.plan.steps[i].id)
  {
    hide Admits, ResolveKey, KeyTaken, MaxAttempt;
  }

  lemma BegunOrdered(t: Tables, plan: Id, execution: Id, step: Id, effect: SideEffect, worker: Id)
    requires CleanRuns.InOrder(t)
    ensures CleanRuns.InOrder(CreateAttempt(t, plan, execution, step, effect, None, worker).tables)
  {
    hide CleanRuns.InOrder, CreateAttempt;
    CleanRuns.OrderlyKeepsOrder(t, OpCreate(plan, execution, step, effect, None, worker));
  }

  lemma BeginBreaksExactly(s: Setup, w: World, m: Move)
    requires Inv(s, w) && Begins(s, w, m) && History(s, Do(s, w, m).d) && AttemptsConsistent(w.d.tables, s.plan.id)
    ensures AttemptsConsistent(Do(s, w, m).d.tables, s.plan.id) <==> Active(s, w.d.tables, w.ps[m.p].step) == 0
  {
    InvParts(s, w);
    BeginTables(s, w, m);
    HistoryParts(s, w.d);
    HistoryParts(s, Do(s, w, m).d);
    CheckComplainsInHistory(s, w.d);
    CheckComplainsInHistory(s, Do(s, w, m).d);
    hide Inv, Good, Sound, History, Do, Exact, WithinReach, RunningIsFresh, OnlyOurs, RowsAgree, ProcessOk, NumberedInOrder, CreateAttempt,
         CleanRuns.Tracked, CleanRuns.InOrder, CleanRuns.EndedOnce, AttemptsConsistent, IntegrityChecker.OneRunning, Active;
    var i, t, t' := w.ps[m.p].step, w.d.tables, Do(s, w, m).d.tables;
    ConsistentIsOrdered(s, t);
    ConsistentIsOrdered(s, t');
    BegunOrdered(t, s.plan.id, s.execution, s.plan.steps[i].id, m.act.effect, m.act.worker);
    OneMoreRunning(s, t, Last(t'.attempts), i);
  }

  lemma EndStartsNone(t: Tables, plan: Id, execution: Id, step: Id, n: nat, status: AttemptStatus)
    requires Ending(status)
    ensures NoneStarted(t.attempts, FinalizeAttempt(t, plan, execution, step, n, status).tables.attempts)
  {
  }

  /** Ending an attempt keeps the records in order exactly if the ledger has no such end of it. */
  lemma EndOrderedExactly(s: Setup, t: Tables, i: nat, n: nat, status: AttemptStatus)
    requires CleanRuns.InOrder(t) && i < |s.plan.steps| && Ending(status)
    requires FinalizeAttempt(t, s.plan.id, s.execution, s.plan.steps[i].id, n, status).result.Ok?
    ensures var t' := FinalizeAttempt(t, s.plan.id, s.execution, s.plan.steps[i].id, n, status).tables;
      CleanRuns.InOrder(t') <==> CleanRuns.Finals(t.ledger, s.plan.id, s.execution, s.plan.steps[i].id, n, status) == 0
  {
    hide FinalizeAttempt, CleanRuns.Finals, CleanRuns.Recorded, CleanRuns.EndedOnce, NumberedInOrder, CleanRuns.NothingAhead,
         CleanRuns.AllStartedOnce, CleanRuns.RunningUnended, IntegrityChecker.EventsNameRows;
    var op := OpFinalize(s.plan.id, s.execution, s.plan.steps[i].id, n, status);
    CleanRuns.InOrderIsTracked(t);
    CleanRuns.UsableKeepsTracked(t, op);
    CleanRuns.FinalizeKeepsRecorded(t, op);
  }

  /** How often the ledger says that the attempt a process has in flight ended so. */
  function EndsOnRecord(s: Setup, w: World, p: Process, status: AttemptStatus): nat
    requires p.InFlight? && p.step < |s.plan.steps|
  {
    CleanRuns.Finals(w.d.tables.ledger, s.plan.id, s.execution, s.plan.steps[p.step].id, p.number, status)
  }

  lemma EndBreaksExactly(s: Setup, w: World, m: Move)
    requires Inv(s, w) && Ends(s, w, m) && History(s, Do(s, w, m).d) && AttemptsConsistent(w.d.tables, s.plan.id)
    ensures AttemptsConsistent(Do(s, w, m).d.tables, s.plan.id) <==> EndsOnRecord(s, w, w.ps[m.p], m.act.status) == 0
  {
    var p, t, t' := w.ps[m.p], w.d.tables, Do(s, w, m).d.tables;
    var id := s.plan.steps[p.step].id;
    var ended := FinalizeAttempt(t, s.plan.id, s.execution, id, p.number, m.act.status).tables;
    InvParts(s, w);
    EndTables(s, w, m);
    HistoryParts(s, w.d);
    HistoryParts(s, Do(s, w, m).d);
    CheckComplainsInHistory(s, w.d);
    CheckComplainsInHistory(s, Do(s, w, m).d);
    hide Inv, Good, Sound, History, Do, OnlyOurs, FinalizeAttempt, NoneStarted, CleanRuns.Tracked, CleanRuns.InOrder, CleanRuns.EndedOnce,
         CleanRuns.Finals, CleanRuns.Quiet, AttemptsConsistent, IntegrityChecker.OneRunning, Admits;
    ConsistentIsOrdered(s, t);
    EndTracked(s, t, p.step, p.number, m.act.status);
    ConsistentIsOrdered(s, ended);
    ConsistentIsOrdered(s, t');
    EndOrderedExactly(s, t, p.step, p.number, m.act.status);
    EndStartsNone(t, s.plan.id, s.execution, id, p.number, m.act.status);
    NoneStartedKeepsOne(t.attempts, ended.attempts, s.plan.id);
    if m.act.status.Cancelled? {
      QuietSameOrder(s, ended, t');
    }
  }

  lemma QuietSameOrder(s: Setup, t: Tables, t': Tables)
    requires CleanRuns.Tracked(t) && OnlyOurs(s, t) && CleanRuns.Quiet(t, t') && t'.attempts == t.attempts
    ensures CleanRuns.EndedOnce(t', s.plan.id) <==> CleanRuns.EndedOnce(t, s.plan.id)
  {
    var extra := t'.ledger[|t.ledger|..];
    assert t'.ledger == t.ledger + extra;
    hide CleanRuns.Tracked;
    forall a | a in t.attempts
      ensures CleanRuns.Finals(t'.ledger, a.planId, a.executionId, a.stepId, a.number, a.status)
           == CleanRuns.Finals(t.ledger, a.planId, a.executionId, a.stepId, a.number, a.status)
    {
      CleanRuns.SilentEventsCountNothing(t.ledger, extra, a.planId, a.executionId, a.stepId, a.number);
    }
  }

  /** While the check is silent, a move makes it complain exactly in two ways: a process begins an attempt of a step over one
      that still runs, be it of a dead process or of a living one; or it ends an attempt for which the ledger already has an
      end of that kind, such as the cancellation by a recovery. */
  lemma CheckBrokenExactly(s: Setup, w: World, m: Move)
    requires GoodSetup(s) && Inv(s, w) && AttemptsConsistent(w.d.tables, s.plan.id)
    ensures !AttemptsConsistent(Do(s, w, m).d.tables, s.plan.id) <==>
      || (Begins(s, w, m) && Active(s, w.d.tables, w.ps[m.p].step) > 0)
      || (Ends(s, w, m) && EndsOnRecord(s, w, w.ps[m.p], m.act.status) > 0)
  {
    MoveKeepsInv(s, w, m);
    InvParts(s, w);
    InvParts(s, Do(s, w, m));
    hide Do, Inv, Good, Sound, History, Gentle, AttemptsConsistent, Active, EndsOnRecord, GoodSetup;
    if Begins(s, w, m) {
      BeginBreaksExactly(s, w, m);
    } else if Ends(s, w, m) {
      EndBreaksExactly(s, w, m);
    } else {
      OtherMovesAreGentle(s, w, m);
      GentleKeepsConsistent(s, w.d, Do(s, w, m).d);
    }
  }

  // ----- Operator retries -----

  /** Where a completed step lies ahead of the checkpoint a retry of the checkpoint's open step would run it again; the
      tables stay sound exactly when there is none. In a run there never is one, since an attempt completes and the
      checkpoint advances in one transaction. */
  lemma RetryIsSoundExactly(s: Setup, d: Durable, step: nat)
    requires Sound(s, d) && s.plan.id in d.checkpoints && LastOf(d, s.plan.id) < step < |s.plan.steps|
    ensures Sound(s, Retried(s, d, step)) <==> forall k: nat :: LastOf(d, s.plan.id) < k < |s.plan.steps| ==> !StepDone(s, d.tables, k)
  {
    hide StepDone, NumberedInOrder, CompletedIsLast;
    var d' := Retried(s, d, step);
    if Sound(s, d') {
      forall k: nat | LastOf(d, s.plan.id) < k < |s.plan.steps|
        ensures !StepDone(s, d.tables, k)
      {
        assert StepDone(s, d'.tables, k) <==> StepDone(s, d.tables, k);
      }
    }
  }

  lemma RetriesSeeNothingAhead(s: Setup, moves: seq<Move>)
    requires GoodSetup(s)
    ensures var d := DoAll(s, Beginning(s), moves).d;
      forall k: nat :: LastOf(d, s.plan.id) < k < |s.plan.steps| ==> !StepDone(s, d.tables, k)
  {
    hide StepDone, DoAll, GoodSetup, Beginning;
    CompletedStepsAreAPrefix(s, moves);
  }

  /** The checkpoint row used for a retry here is the one the operator action writes. */
  lemma RetriedIsTheOperatorsRow(s: Setup, d: Durable, desk: OperatorRetry.Desk, plan: seq<string>, place: seq<nat>, r: OperatorRetry.Request)
    requires s.plan.id in d.checkpoints && desk.checkpoint == Some(d.checkpoints[s.plan.id]) && r.now == d.tables.now
    requires OperatorRetry.WellOrdered(desk, plan, place) && OperatorRetry.RetryStep(desk, r).result.Ok?
    ensures var t := OperatorRetry.Target(desk.steps, r.stepId, desk.checkpoint.value.currentStep);
      t.Some? && OperatorRetry.RetryStep(desk, r).desk.checkpoint == Some(Retried(s, d, t.value).checkpoints[s.plan.id])
  {
    OperatorRetry.RetryOutcome(desk, plan, place, r);
    hide OperatorRetry.RetryStep, OperatorRetry.WellOrdered, OperatorRetry.Target;
  }
}
