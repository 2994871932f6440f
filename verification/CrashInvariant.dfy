/** What every run keeps true, whoever is alive: what holds of the tables, of the step rows and of each process. */
module CrashInvariant {
  import opened Common
  import opened ExecutionTables
  import opened AttemptIdentity
  import opened Normalisers
  import opened StateStore
  import opened Reconciliation
  import opened Recovery
  import opened CrashRecovery
  import opened RecoveryProgress
  import opened CrashModel
  import IntegrityChecker
  import CleanRuns
  import Rows = SnapshotStore

  // ----- The invariant -----

  /** The completed steps are exactly those the checkpoint counts. */
  ghost predicate Exact(s: Setup, d: Durable) {
    forall k: nat :: k < |s.plan.steps| ==> (StepDone(s, d.tables, k) <==> k <= LastOf(d, s.plan.id))
  }

  /** The furthest step that can have attempts. */
  function Reach(s: Setup, d: Durable): int {
    if s.plan.id in d.checkpoints then d.checkpoints[s.plan.id].lastCompleted + 1 else -1
  }

  ghost predicate WithinReach(s: Setup, d: Durable) {
    forall a, k: nat :: a in d.tables.attempts && k < |s.plan.steps| && OfStep(a, s.plan.id, s.execution, s.plan.steps[k].id) ==>
      k <= Reach(s, d)
  }

  /** The last attempt of a step has not failed. */
  ghost predicate LastNotFailed(s: Setup, t: Tables, k: nat)
    requires k < |s.plan.steps|
  {
    var id := s.plan.steps[k].id;
    forall a :: a in t.attempts && IsAttempt(a, s.plan.id, s.execution, id, MaxAttempt(t.attempts, s.plan.id, s.execution, id)) ==>
      a.status != AttemptStatus.Failed
  }

  /** A checkpoint that says running was not left by a failure. */
  ghost predicate RunningIsFresh(s: Setup, d: Durable) {
    s.plan.id in d.checkpoints && d.checkpoints[s.plan.id].status.Running?
    && 0 <= d.checkpoints[s.plan.id].lastCompleted + 1 < |s.plan.steps| ==>
      LastNotFailed(s, d.tables, d.checkpoints[s.plan.id].lastCompleted + 1)
  }

  ghost predicate OnlyOurs(s: Setup, t: Tables) {
    forall a :: a in t.attempts ==> a.planId == s.plan.id && a.executionId == s.execution
  }

  /** What the past has left. */
  ghost predicate History(s: Setup, d: Durable) {
    Exact(s, d) && WithinReach(s, d) && RunningIsFresh(s, d) && CleanRuns.Tracked(d.tables) && OnlyOurs(s, d.tables)
  }

  /** The completed steps are those with a completed row. */
  ghost predicate RowsAgree(s: Setup, t: Tables, rows: seq<Rows.RowStatus>) {
    |rows| == |s.plan.steps| && forall k: nat :: k < |rows| ==> (StepDone(s, t, k) <==> rows[k].Completed?)
  }

  ghost predicate Good(s: Setup, d: Durable, rows: seq<Rows.RowStatus>) {
    Sound(s, d) && History(s, d) && RowsAgree(s, d.tables, rows)
  }

  /** A process works no further ahead than at the first open step; others may have left it behind. */
  predicate ProcessOk(s: Setup, d: Durable, p: Process) {
    p.Dead? ||
    (s.plan.id in d.checkpoints &&
     match p
     case Closing(outcome) => Stopping(outcome)
     case Dead => true
     case _ => p.step < |s.plan.steps| && p.step <= d.checkpoints[s.plan.id].lastCompleted + 1)
  }

  ghost predicate Inv(s: Setup, w: World) {
    Good(s, w.d, w.rows) && forall p :: p in w.ps ==> ProcessOk(s, w.d, p)
  }

  /** The checkpoint stays and its progress is not lowered. */
  predicate Onward(s: Setup, d: Durable, d': Durable) {
    (s.plan.id in d.checkpoints ==> s.plan.id in d'.checkpoints) && LastOf(d, s.plan.id) <= LastOf(d', s.plan.id)
  }

  lemma StaysOk(s: Setup, d: Durable, d': Durable, p: Process)
    requires ProcessOk(s, d, p) && Onward(s, d, d')
    ensures ProcessOk(s, d', p)
  {
  }

  /** With the completed steps exactly counted, little else is left to say of sound tables. */
  lemma ExactIsSound(s: Setup, d: Durable)
    requires Exact(s, d) && CleanRuns.Tracked(d.tables) && LockIsOurs(s, d.tables) && s.plan.id in d.checkpoints
    requires var c := d.checkpoints[s.plan.id];
      && -1 <= c.lastCompleted < |s.plan.steps|
      && (c.status.Running? ==> c.currentStep == c.lastCompleted + 1 < |s.plan.steps|)
    ensures Sound(s, d)
  {
    hide NumberedInOrder, CleanRuns.NothingAhead, CleanRuns.AllStartedOnce, CleanRuns.RunningUnended, IntegrityChecker.EventsNameRows;
    forall a, k: nat | a in d.tables.attempts && LastOf(d, s.plan.id) < k < |s.plan.steps|
                       && OfStep(a, s.plan.id, s.execution, s.plan.steps[k].id)
      ensures a.status != AttemptStatus.Completed
    {
      assert !StepDone(s, d.tables, k);
    }
    hide StepDone, MaxAttempt;
  }

  // ----- What advancing keeps of the past -----

  lemma SameEndingsSameCompletions(a: seq<Attempt>, b: seq<Attempt>)
    requires SameEndings(a, b)
    ensures SameCompletions(a, b)
  {
  }

  lemma ExactAdvances(s: Setup, d: Durable, d': Durable)
    requires Sound(s, d') && Exact(s, d) && Advances(s, d, d')
    ensures Exact(s, d')
  {
    hide StepDone, NumberedInOrder, CompletedIsLast, CleanRuns.Tracked, CleanRuns.InOrder, SameEndings;
    SameEndingsSameCompletions(d.tables.attempts, d'.tables.attempts);
    forall k: nat | k < |s.plan.steps|
      ensures StepDone(s, d'.tables, k) <==> k <= LastOf(d', s.plan.id)
    {
      SameCompletionsSameDone(s, d.tables, d'.tables, k);
    }
  }

  lemma ReachAdvances(s: Setup, d: Durable, d': Durable)
    requires WithinReach(s, d) && OnlyOurs(s, d.tables) && Advances(s, d, d') && -1 <= LastOf(d, s.plan.id)
    ensures WithinReach(s, d') && OnlyOurs(s, d'.tables)
  {
    hide CleanRuns.Tracked;
    forall a | a in d'.tables.attempts
      ensures exists b :: b in d.tables.attempts && OfStep(a, b.planId, b.executionId, b.stepId)
    {
      var i :| 0 <= i < |d'.tables.attempts| && d'.tables.attempts[i] == a;
      assert d.tables.attempts[i] in d.tables.attempts;
    }
  }

  lemma NotFailedAdvances(s: Setup, t: Tables, t': Tables, k: nat)
    requires k < |s.plan.steps| && LastNotFailed(s, t, k) && SameEndings(t.attempts, t'.attempts)
    ensures LastNotFailed(s, t', k)
  {
    var id := s.plan.steps[k].id;
    SameEndingsSameCompletions(t.attempts, t'.attempts);
    SameCompletionsSameMax(t.attempts, t'.attempts, s.plan.id, s.execution, id);
    forall a | a in t'.attempts && IsAttempt(a, s.plan.id, s.execution, id, MaxAttempt(t'.attempts, s.plan.id, s.execution, id))
      ensures a.status != AttemptStatus.Failed
    {
      var i :| 0 <= i < |t'.attempts| && t'.attempts[i] == a;
      assert t.attempts[i] in t.attempts;
    }
  }

  lemma NeverAttemptedNotFailed(s: Setup, d: Durable, k: nat)
    requires WithinReach(s, d) && k < |s.plan.steps| && k > Reach(s, d)
    ensures LastNotFailed(s, d.tables, k)
  {
  }

  lemma FreshAdvances(s: Setup, d: Durable, d': Durable)
    requires RunningIsFresh(s, d) && WithinReach(s, d) && Advances(s, d, d')
    ensures RunningIsFresh(s, d')
  {
    hide CleanRuns.Tracked, LastNotFailed, SameEndings, WithinReach;
    if s.plan.id in d'.checkpoints && d'.checkpoints[s.plan.id].status.Running?
       && 0 <= d'.checkpoints[s.plan.id].lastCompleted + 1 < |s.plan.steps| {
      var k := d'.checkpoints[s.plan.id].lastCompleted + 1;
      if k > Reach(s, d) {
        NeverAttemptedNotFailed(s, d, k);
      }
      NotFailedAdvances(s, d.tables, d'.tables, k);
    }
  }

  lemma HistoryAdvances(s: Setup, d: Durable, d': Durable)
    requires Sound(s, d) && Sound(s, d') && History(s, d) && Advances(s, d, d')
    ensures History(s, d')
  {
    LastInRange(s, d);
    hide Sound, Exact, WithinReach, RunningIsFresh, CleanRuns.Tracked, OnlyOurs, SameEndings, Forward;
    ExactAdvances(s, d, d');
    ReachAdvances(s, d, d');
    FreshAdvances(s, d, d');
  }

  lemma LastInRange(s: Setup, d: Durable)
    requires Sound(s, d)
    ensures -1 <= LastOf(d, s.plan.id)
    ensures s.plan.id in d.checkpoints ==> LastOf(d, s.plan.id) < |s.plan.steps|
  {
  }

  lemma RowsAdvance(s: Setup, t: Tables, t': Tables, rows: seq<Rows.RowStatus>)
    requires RowsAgree(s, t, rows) && SameCompletions(t.attempts, t'.attempts)
    ensures RowsAgree(s, t', rows)
  {
    forall k: nat | k < |rows|
      ensures StepDone(s, t', k) <==> StepDone(s, t, k)
    {
      SameCompletionsSameDone(s, t, t', k);
    }
  }

  lemma SameEndingsOf(s: Setup, d: Durable, d': Durable)
    requires Advances(s, d, d')
    ensures SameEndings(d.tables.attempts, d'.tables.attempts) && SameCompletions(d.tables.attempts, d'.tables.attempts)
    ensures Onward(s, d, d')
  {
    SameEndingsSameCompletions(d.tables.attempts, d'.tables.attempts);
    hide CleanRuns.InOrder, CleanRuns.Tracked, SameEndings, SameCompletions;
  }

  lemma GoodAdvances(s: Setup, d: Durable, d': Durable, rows: seq<Rows.RowStatus>)
    requires Good(s, d, rows) && Sound(s, d') && Advances(s, d, d')
    ensures Good(s, d', rows) && Onward(s, d, d')
  {
    hide Sound, History, Advances, RowsAgree;
    SameEndingsOf(s, d, d');
    HistoryAdvances(s, d, d');
    RowsAdvance(s, d.tables, d'.tables, rows);
  }

  lemma GoodParts(s: Setup, d: Durable, rows: seq<Rows.RowStatus>)
    requires Good(s, d, rows)
    ensures Sound(s, d) && History(s, d) && RowsAgree(s, d.tables, rows)
  {
  }

  // ----- Moves that begin and end nothing -----

  lemma CutShortKeeps(s: Setup, d: Durable, part: Part)
    requires GoodSetup(s) && Sound(s, d)
    ensures Sound(s, CutShort(s, d, part)) && Advances(s, d, CutShort(s, d, part))
  {
    hide Sound, Keeps, Advances, Expire, MarkCorrupted, AcquireOrReuse, RecoverState, StateOf, AttemptCancelled;
    AdvancesRefl(s, d);
    match part
    case Sweep => ExpireKeeps(s, d); ExpireAdvances(s, d); KeepsSound(s, d, Expire(d, s.plan.id));
    case Mark => MarkKeeps(s, d); MarkAdvances(s, d); KeepsSound(s, d, MarkCorrupted(d, s.plan.id));
    case TakeLock(worker) => TakeLockKeeps(s, d, worker);
    case CancelRunning(evidence) => CancelRunningKeeps(s, d, evidence);
    case WriteStatus =>
      RecoverStateAdvances(s, d);
      if s.plan.id in d.checkpoints {
        RecoverStateSound(s, d);
      } else {
        NothingToRecover(s, d);
      }
  }

  lemma NothingToRecover(s: Setup, d: Durable)
    requires GoodSetup(s) && s.plan.id !in d.checkpoints
    ensures RecoverState(d, StateOf(s.plan)).durable == d
  {
    SetupFacts(s);
  }

  lemma CancelRunningKeeps(s: Setup, d: Durable, evidence: StepEvidence)
    requires GoodSetup(s) && Sound(s, d)
    ensures Sound(s, AttemptCancelled(s, d, evidence)) && Advances(s, d, AttemptCancelled(s, d, evidence))
  {
    hide Sound, Keeps, FinalizeAttempt, ReconOf, Advances, Diagnose, LatestAttempt, CompletedIsLast, NumberedInOrder, GoodSetup;
    SetupFacts(s);
    AdvancesRefl(s, d);
    if AttemptCancelled(s, d, evidence) != d {
      var c := d.checkpoints[s.plan.id];
      RunningPosition(s, d);
      DiagnosisFacts(d.tables, ReconOf(s.plan), s.execution, c, evidence);
      var a := Diagnose(d.tables, ReconOf(s.plan), s.execution, c, evidence).attempt;
      RunningCancelled(s, d, a);
      KeepsSound(s, d, AttemptCancelled(s, d, evidence));
      CancelBothAdvances(s, d, "", None, a);
    }
  }

  lemma ClockKeeps(s: Setup, d: Durable, ms: nat)
    requires Sound(s, d)
    ensures var d' := d.(tables := d.tables.(now := d.tables.now + ms)); Sound(s, d') && Advances(s, d, d')
  {
    hide Advances, Sound, CleanRuns.Quiet;
    var d' := d.(tables := d.tables.(now := d.tables.now + ms));
    CleanRuns.QuietOp(d.tables, OpTick(ms));
    QuietAdvances(s, d, d'.tables);
    assert Keeps(s, d, d');
    KeepsSound(s, d, d');
  }

  lemma CancelRequestKeeps(s: Setup, d: Durable)
    requires Sound(s, d)
    ensures var d' := RequestCancellation(d, s.plan.id).durable; Sound(s, d') && Advances(s, d, d')
  {
    hide Sound, Gentle;
    var d' := RequestCancellation(d, s.plan.id).durable;
    SameTablesGentle(d.tables);
    assert Keeps(s, d, d');
    KeepsSound(s, d, d');
  }

  lemma HeartbeatKeeps(s: Setup, d: Durable, step: Id, n: nat, worker: Id)
    requires Sound(s, d)
    ensures var d' := d.(tables := HeartbeatAttempt(d.tables, s.plan.id, s.execution, step, n, worker).tables);
      Sound(s, d') && Advances(s, d, d')
  {
    hide Sound, Advances, Keeps, CleanRuns.Quiet, HeartbeatAttempt;
    var d' := d.(tables := HeartbeatAttempt(d.tables, s.plan.id, s.execution, step, n, worker).tables);
    CleanRuns.QuietOp(d.tables, OpHeartbeat(s.plan.id, s.execution, step, n, worker));
    QuietAdvances(s, d, d'.tables);
    HeartbeatKeepsRows(s, d, step, n, worker);
    KeepsSound(s, d, d');
  }

  lemma HeartbeatKeepsRows(s: Setup, d: Durable, step: Id, n: nat, worker: Id)
    ensures Keeps(s, d, d.(tables := HeartbeatAttempt(d.tables, s.plan.id, s.execution, step, n, worker).tables))
  {
    hide HasRunning, SyncLease;
  }

  lemma CloseKeeps(s: Setup, d: Durable, outcome: CheckpointStatus, worker: Id)
    requires Sound(s, d) && s.plan.id in d.checkpoints && Stopping(outcome)
    ensures var d' := FinalizeTransition(d, s.plan.id, s.execution, worker, Finalised(outcome)).durable;
      Sound(s, d') && Advances(s, d, d')
  {
    hide Sound, Advances, FinalizeTransition;
    StopSound(s, d, worker, Finalised(outcome));
    TransitionAdvances(s, d, worker, Finalised(outcome));
  }

  lemma ReleaseKeepsAll(s: Setup, d: Durable, worker: Id)
    requires Sound(s, d)
    ensures var d' := ReleaseFor(d, s.plan.id, s.execution, worker); Sound(s, d') && Advances(s, d, d')
  {
    hide Sound, Advances, ReleaseFor;
    ReleaseSound(s, d, worker);
    ReleaseAdvances(s, d, worker);
  }

  // ----- Pauses and retries -----

  /** Writing the row with the same progress, stopped or paused for a retry. */
  lemma RowStops(s: Setup, d: Durable, d': Durable)
    requires Sound(s, d) && Exact(s, d) && s.plan.id in d.checkpoints && d'.tables == d.tables && s.plan.id in d'.checkpoints
    requires d'.checkpoints[s.plan.id].lastCompleted == d.checkpoints[s.plan.id].lastCompleted
    requires !d'.checkpoints[s.plan.id].status.Running?
    ensures Sound(s, d') && Advances(s, d, d')
  {
    hide StepDone, NumberedInOrder, CompletedIsLast, Gentle;
    SameTablesGentle(d.tables);
  }

  lemma OneRowChanges(s: Setup, t: Tables, rows: seq<Rows.RowStatus>, i: nat, row: Rows.RowStatus)
    requires RowsAgree(s, t, rows) && i < |rows| && !StepDone(s, t, i) && !row.Completed?
    ensures RowsAgree(s, t, rows[i := row])
  {
    hide StepDone;
  }

  /** A process at a step that is still open is at the first open one. */
  lemma OpenIsNext(s: Setup, d: Durable, p: Process)
    requires Exact(s, d) && ProcessOk(s, d, p) && (p.At? || p.InFlight? || p.Stuck?) && !StepDone(s, d.tables, p.step)
    ensures s.plan.id in d.checkpoints && p.step == d.checkpoints[s.plan.id].lastCompleted + 1 == LastOf(d, s.plan.id) + 1
    ensures p.step == Reach(s, d)
  {
    hide StepDone, Sound, WithinReach, RunningIsFresh, CleanRuns.Tracked, OnlyOurs;
  }

  lemma AwaitKeeps(s: Setup, d: Durable, i: nat, worker: Id)
    requires Sound(s, d) && Exact(s, d) && s.plan.id in d.checkpoints
    ensures var d' := ReleaseFor(AwaitReview(d, s.plan.id, i).durable, s.plan.id, s.execution, worker);
      Sound(s, d') && Advances(s, d, d')
  {
    hide Sound, Advances, ReleaseFor, Exact;
    var reviewed := AwaitReview(d, s.plan.id, i).durable;
    RowStops(s, d, reviewed);
    ReleaseKeepsAll(s, reviewed, worker);
    AdvancesTrans(s, d, reviewed, ReleaseFor(reviewed, s.plan.id, s.execution, worker));
  }

  lemma PauseKeeps(s: Setup, d: Durable, rows: seq<Rows.RowStatus>, p: Process, row: Rows.RowStatus, worker: Id)
    requires Good(s, d, rows) && ProcessOk(s, d, p) && (p.At? || p.Stuck?) && InPlan(s, rows, p.step)
    ensures var t := PauseTurn(s, d, rows, p.step, row, worker, p);
      Good(s, t.d, t.rows) && Onward(s, d, t.d) && ProcessOk(s, t.d, t.next)
  {
    GoodParts(s, d, rows);
    HistoryParts(s, d);
    hide Good, Sound, Advances, History, RowsAgree, ReleaseFor, Exact, StepDone, AwaitReview;
    var t := PauseTurn(s, d, rows, p.step, row, worker, p);
    if t.next.Dead? {
      CompletedRowStays(s, d.tables, rows, p.step, row);
      AwaitKeeps(s, d, p.step, worker);
      GoodAdvances(s, d, t.d, rows);
      GoodParts(s, t.d, rows);
      AwaitSameDone(s, d, p.step, worker);
      OneRowChanges(s, t.d.tables, rows, p.step, row);
      GoodWhole(s, t.d, t.rows);
    }
  }

  lemma GoodWhole(s: Setup, d: Durable, rows: seq<Rows.RowStatus>)
    requires Sound(s, d) && History(s, d) && RowsAgree(s, d.tables, rows)
    ensures Good(s, d, rows)
  {
  }

  lemma HistoryParts(s: Setup, d: Durable)
    requires History(s, d)
    ensures Exact(s, d) && WithinReach(s, d) && RunningIsFresh(s, d) && CleanRuns.Tracked(d.tables) && OnlyOurs(s, d.tables)
    ensures NumberedInOrder(d.tables.attempts)
  {
  }

  /** No row leaves the completed status. */
  lemma CompletedRowStays(s: Setup, t: Tables, rows: seq<Rows.RowStatus>, i: nat, row: Rows.RowStatus)
    requires RowsAgree(s, t, rows) && i < |rows| && Rows.IsValidTransition(rows[i], row) && !row.Completed?
    ensures !StepDone(s, t, i)
  {
    hide StepDone;
  }

  lemma AwaitSameDone(s: Setup, d: Durable, i: nat, worker: Id)
    ensures ReleaseFor(AwaitReview(d, s.plan.id, i).durable, s.plan.id, s.execution, worker).tables.attempts == d.tables.attempts
    ensures forall k: nat :: k < |s.plan.steps| ==>
      (StepDone(s, ReleaseFor(AwaitReview(d, s.plan.id, i).durable, s.plan.id, s.execution, worker).tables, k) <==> StepDone(s, d.tables, k))
  {
  }

  lemma RetryKeeps(s: Setup, d: Durable, rows: seq<Rows.RowStatus>, step: nat)
    requires Good(s, d, rows) && RetryAllowed(s, d, step)
    ensures Good(s, Retried(s, d, step), RetriedRows(rows, step)) && Onward(s, d, Retried(s, d, step))
  {
    GoodParts(s, d, rows);
    HistoryParts(s, d);
    RetryPastProgress(s, d, step);
    hide Good, Sound, Advances, History, RowsAgree, Exact, StepDone, RetriedRows;
    var d' := Retried(s, d, step);
    RowStops(s, d, d');
    GoodAdvances(s, d, d', rows);
    GoodParts(s, d', rows);
    RetriedRowsAgree(s, d'.tables, rows, step);
    GoodWhole(s, d', RetriedRows(rows, step));
  }

  lemma RetryPastProgress(s: Setup, d: Durable, step: nat)
    requires Exact(s, d) && RetryAllowed(s, d, step)
    ensures step > d.checkpoints[s.plan.id].lastCompleted
  {
    hide StepDone;
  }

  lemma RetriedRowsAgree(s: Setup, t: Tables, rows: seq<Rows.RowStatus>, step: nat)
    requires RowsAgree(s, t, rows) && step < |s.plan.steps| && !StepDone(s, t, step)
    ensures RowsAgree(s, t, RetriedRows(rows, step))
  {
    hide StepDone;
  }

  lemma SnapshotKeeps(s: Setup, t: Tables, rows: seq<Rows.RowStatus>, rows': seq<Rows.RowStatus>)
    requires RowsAgree(s, t, rows) && SnapshotAllowed(rows, rows')
    ensures RowsAgree(s, t, rows')
  {
    hide StepDone;
  }

  // ----- Beginning an attempt -----

  lemma BegunDone(s: Setup, t: Tables, t': Tables, a: Attempt, k: nat)
    requires t'.attempts == t.attempts + [a] && a.status == AttemptStatus.Running && k < |s.plan.steps|
    ensures StepDone(s, t', k) <==> StepDone(s, t, k)
  {
  }

  lemma BegunMax(attempts: seq<Attempt>, a: Attempt)
    requires a.number == MaxAttempt(attempts, a.planId, a.executionId, a.stepId) + 1
    ensures MaxAttempt(attempts + [a], a.planId, a.executionId, a.stepId) == a.number
    ensures forall p, e, st :: !OfStep(a, p, e, st) ==> MaxAttempt(attempts + [a], p, e, st) == MaxAttempt(attempts, p, e, st)
  {
    assert Init(attempts + [a]) == attempts && Last(attempts + [a]) == a;
  }

  /** The new attempt `a` of step `i`, the first open one. */
  predicate Begun(s: Setup, t: Tables, t': Tables, a: Attempt, i: nat) {
    && i < |s.plan.steps| && !StepDone(s, t, i)
    && t'.attempts == t.attempts + [a] && t'.locks == t.locks && t'.recovery == t.recovery
    && OfStep(a, s.plan.id, s.execution, s.plan.steps[i].id) && a.status == AttemptStatus.Running
    && a.number == MaxAttempt(t.attempts, s.plan.id, s.execution, s.plan.steps[i].id) + 1
  }

  lemma BegunNotFailed(s: Setup, t: Tables, t': Tables, a: Attempt, i: nat)
    requires Begun(s, t, t', a, i)
    ensures LastNotFailed(s, t', i)
  {
    BegunMax(t.attempts, a);
    hide StepDone;
  }

  /** The row says running at the open step, with the progress it had. */
  predicate RunsAt(s: Setup, d: Durable, d': Durable, i: nat) {
    && s.plan.id in d.checkpoints && s.plan.id in d'.checkpoints
    && var c, c' := d.checkpoints[s.plan.id], d'.checkpoints[s.plan.id];
       i == c.lastCompleted + 1 && c'.currentStep == i && c'.status.Running? && c'.lastCompleted == c.lastCompleted
  }

  lemma BegunHistory(s: Setup, d: Durable, d': Durable, a: Attempt, i: nat)
    requires GoodSetup(s) && History(s, d) && Begun(s, d.tables, d'.tables, a, i) && RunsAt(s, d, d', i)
    requires CleanRuns.Tracked(d'.tables)
    ensures History(s, d')
  {
    hide StepDone, CleanRuns.Tracked, LastNotFailed;
    BegunNotFailed(s, d.tables, d'.tables, a, i);
    forall k: nat | k < |s.plan.steps|
      ensures StepDone(s, d'.tables, k) <==> StepDone(s, d.tables, k)
    {
      BegunDone(s, d.tables, d'.tables, a, k);
    }
  }

  lemma BegunRows(s: Setup, t: Tables, t': Tables, a: Attempt, i: nat, rows: seq<Rows.RowStatus>, row: Rows.RowStatus)
    requires RowsAgree(s, t, rows) && Begun(s, t, t', a, i) && !row.Completed?
    ensures RowsAgree(s, t', rows[i := row])
  {
    forall k: nat | k < |s.plan.steps|
      ensures StepDone(s, t', k) <==> StepDone(s, t, k)
    {
      BegunDone(s, t, t', a, k);
    }
    hide StepDone;
  }

  lemma LockStaysOurs(s: Setup, d: Durable)
    requires Sound(s, d)
    ensures LockIsOurs(s, d.tables)
    ensures s.plan.id in d.checkpoints ==> -1 <= d.checkpoints[s.plan.id].lastCompleted < |s.plan.steps|
  {
  }

  lemma BeginKeeps(s: Setup, d: Durable, rows: seq<Rows.RowStatus>, i: nat, worker: Id, effect: SideEffect)
    requires GoodSetup(s) && Good(s, d, rows) && ProcessOk(s, d, At(i)) && InPlan(s, rows, i)
    ensures var t := BeginTurn(s, d, rows, i, worker, effect);
      Good(s, t.d, t.rows) && Onward(s, d, t.d) && ProcessOk(s, t.d, t.next)
  {
    GoodParts(s, d, rows);
    HistoryParts(s, d);
    LockStaysOurs(s, d);
    hide Good, Sound, History, Exact, RowsAgree, CleanRuns.Tracked, StepDone, NumberedInOrder, MaxAttempt, ResolveKey, KeyTaken, GoodSetup;
    var id, t := s.plan.steps[i].id, BeginTurn(s, d, rows, i, worker, effect);
    if t.next.InFlight? {
      var made := CreateAttempt(d.tables, s.plan.id, s.execution, id, effect, None, worker);
      var a := made.result.value;
      OpenRow(s, d.tables, rows, i, Rows.Running);
      OpenIsNext(s, d, At(i));
      CleanRuns.UsableKeepsTracked(d.tables, OpCreate(s.plan.id, s.execution, id, effect, None, worker));
      BegunHistory(s, d, t.d, a, i);
      HistoryParts(s, t.d);
      ExactIsSound(s, t.d);
      BegunRows(s, d.tables, t.d.tables, a, i, rows, Rows.Running);
      GoodWhole(s, t.d, t.rows);
    }
  }

  /** The guard keeps everyone from a step that is completed. */
  lemma OpenRow(s: Setup, t: Tables, rows: seq<Rows.RowStatus>, i: nat, next: Rows.RowStatus)
    requires RowsAgree(s, t, rows) && i < |rows| && Admits(rows[i], next)
    ensures !StepDone(s, t, i)
  {
    hide StepDone;
  }

  // ----- Ending it -----

  ghost predicate SameIdentities(a: seq<Attempt>, b: seq<Attempt>) {
    |a| == |b| && forall i :: 0 <= i < |a| ==> IsAttempt(b[i], a[i].planId, a[i].executionId, a[i].stepId, a[i].number)
  }

  lemma {:induction false} SameIdentitiesSameMax(a: seq<Attempt>, b: seq<Attempt>, plan: Id, execution: Id, step: Id)
    requires SameIdentities(a, b)
    ensures MaxAttempt(b, plan, execution, step) == MaxAttempt(a, plan, execution, step)
  {
    if a != [] {
      SameIdentitiesSameMax(Init(a), Init(b), plan, execution, step);
    }
  }

  lemma FinalizedKeepsIdentities(t: Tables, plan: Id, execution: Id, step: Id, n: nat, status: AttemptStatus)
    ensures SameIdentities(t.attempts, FinalizeAttempt(t, plan, execution, step, n, status).tables.attempts)
  {
  }

  /** Ending an attempt of an open step without success completes nothing. */
  lemma UnsuccessfulKeeps(s: Setup, t: Tables, i: nat, n: nat, status: AttemptStatus)
    requires i < |s.plan.steps| && !StepDone(s, t, i) && (status == AttemptStatus.Failed || status == AttemptStatus.Cancelled)
    ensures var t' := FinalizeAttempt(t, s.plan.id, s.execution, s.plan.steps[i].id, n, status).tables;
      SameCompletions(t.attempts, t'.attempts) && t'.locks == t.locks && t'.recovery == t.recovery
  {
    forall j | 0 <= j < |t.attempts| && IsAttempt(t.attempts[j], s.plan.id, s.execution, s.plan.steps[i].id, n)
      ensures t.attempts[j].status != AttemptStatus.Completed
    {
      assert t.attempts[j] in t.attempts;
    }
  }

  lemma SuccessMarksStep(s: Setup, t: Tables, i: nat, n: nat, k: nat)
    requires GoodSetup(s) && i < |s.plan.steps| && k < |s.plan.steps|
    requires FinalizeAttempt(t, s.plan.id, s.execution, s.plan.steps[i].id, n, AttemptStatus.Completed).result.Ok?
    ensures var t' := FinalizeAttempt(t, s.plan.id, s.execution, s.plan.steps[i].id, n, AttemptStatus.Completed).tables;
      StepDone(s, t', k) <==> StepDone(s, t, k) || k == i
  {
    var id := s.plan.steps[i].id;
    var t' := FinalizeAttempt(t, s.plan.id, s.execution, id, n, AttemptStatus.Completed).tables;
    if StepDone(s, t', k) && k != i {
      var b :| b in t'.attempts && OfStep(b, s.plan.id, s.execution, s.plan.steps[k].id) && b.status == AttemptStatus.Completed;
      var j :| 0 <= j < |t'.attempts| && t'.attempts[j] == b;
      assert t.attempts[j] in t.attempts;
      assert s.plan.steps[k].id != id;
    }
    if StepDone(s, t, k) {
      var b :| b in t.attempts && OfStep(b, s.plan.id, s.execution, s.plan.steps[k].id) && b.status == AttemptStatus.Completed;
      var j :| 0 <= j < |t.attempts| && t.attempts[j] == b;
      assert t'.attempts[j] in t'.attempts;
    }
    var a :| a in t.attempts && IsAttempt(a, s.plan.id, s.execution, id, n);
    var j :| 0 <= j < |t.attempts| && t.attempts[j] == a;
    assert t'.attempts[j] in t'.attempts;
  }

  lemma SameIdentitiesOurs(s: Setup, t: Tables, t': Tables)
    requires OnlyOurs(s, t) && SameIdentities(t.attempts, t'.attempts)
    ensures OnlyOurs(s, t')
  {
  }

  lemma SameIdentitiesReach(s: Setup, d: Durable, d': Durable)
    requires WithinReach(s, d) && SameIdentities(d.tables.attempts, d'.tables.attempts) && Reach(s, d) <= Reach(s, d')
    ensures WithinReach(s, d')
  {
    forall a | a in d'.tables.attempts
      ensures exists b :: b in d.tables.attempts && OfStep(a, b.planId, b.executionId, b.stepId)
    {
      var i :| 0 <= i < |d'.tables.attempts| && d'.tables.attempts[i] == a;
      assert d.tables.attempts[i] in d.tables.attempts;
    }
  }

  lemma FinalizeKeepsLocks(t: Tables, plan: Id, execution: Id, step: Id, n: nat, status: AttemptStatus)
    ensures FinalizeAttempt(t, plan, execution, step, n, status).tables.locks == t.locks
  {
  }

  lemma UnreachedIsFresh(s: Setup, d: Durable, d': Durable, k: nat)
    requires WithinReach(s, d) && SameIdentities(d.tables.attempts, d'.tables.attempts) && Reach(s, d) < k < |s.plan.steps|
    ensures LastNotFailed(s, d'.tables, k)
  {
    forall a | a in d'.tables.attempts
      ensures !OfStep(a, s.plan.id, s.execution, s.plan.steps[k].id)
    {
      var i :| 0 <= i < |d'.tables.attempts| && d'.tables.attempts[i] == a;
      assert d.tables.attempts[i] in d.tables.attempts;
    }
  }

  /** The records after an attempt in flight has ended. */
  lemma EndTracked(s: Setup, t: Tables, i: nat, n: nat, status: AttemptStatus)
    requires CleanRuns.Tracked(t) && OnlyOurs(s, t) && i < |s.plan.steps| && Ending(status)
    ensures var t' := FinalizeAttempt(t, s.plan.id, s.execution, s.plan.steps[i].id, n, status).tables;
      && CleanRuns.Tracked(t') && OnlyOurs(s, t') && SameIdentities(t.attempts, t'.attempts) && t'.locks == t.locks
  {
    hide CleanRuns.Tracked, OnlyOurs, FinalizeAttempt, SameIdentities;
    var id := s.plan.steps[i].id;
    CleanRuns.UsableKeepsTracked(t, OpFinalize(s.plan.id, s.execution, id, n, status));
    FinalizedKeepsIdentities(t, s.plan.id, s.execution, id, n, status);
    SameIdentitiesOurs(s, t, FinalizeAttempt(t, s.plan.id, s.execution, id, n, status).tables);
    FinalizeKeepsLocks(t, s.plan.id, s.execution, id, n, status);
  }

  /** An attempt of the first open step in flight, with tables as the runs leave them. */
  ghost predicate Flying(s: Setup, d: Durable, i: nat) {
    && GoodSetup(s) && Sound(s, d) && History(s, d) && s.plan.id in d.checkpoints && i < |s.plan.steps|
    && i == d.checkpoints[s.plan.id].lastCompleted + 1 && !StepDone(s, d.tables, i)
  }

  /** The durable state after the attempt has ended; a cancelled one still holds the lock. */
  function EndedState(s: Setup, d: Durable, i: nat, n: nat, status: AttemptStatus): Durable
    requires i < |s.plan.steps|
  {
    var d' := d.(tables := FinalizeAttempt(d.tables, s.plan.id, s.execution, s.plan.steps[i].id, n, status).tables);
    match status
    case Completed => AfterStep(d', s.plan.id, i, |s.plan.steps|).durable
    case Failed => FailStep(d', s.plan.id, i).durable
    case _ => AwaitReview(d', s.plan.id, i).durable
  }

  lemma EndedPlace(s: Setup, d: Durable, i: nat, n: nat, status: AttemptStatus)
    requires i < |s.plan.steps| && s.plan.id in d.checkpoints && i == d.checkpoints[s.plan.id].lastCompleted + 1
    ensures var d' := EndedState(s, d, i, n, status);
      && d'.tables == FinalizeAttempt(d.tables, s.plan.id, s.execution, s.plan.steps[i].id, n, status).tables
      && s.plan.id in d'.checkpoints
      && var c := d'.checkpoints[s.plan.id];
         && c.lastCompleted == (if status.Completed? then i else i - 1)
         && (c.status.Running? ==> status.Completed? && c.currentStep == i + 1 < |s.plan.steps|)
  {
    hide FinalizeAttempt;
  }

  lemma EndedDone(s: Setup, d: Durable, i: nat, n: nat, status: AttemptStatus, k: nat)
    requires GoodSetup(s) && i < |s.plan.steps| && !StepDone(s, d.tables, i) && Ending(status) && k < |s.plan.steps|
    requires FinalizeAttempt(d.tables, s.plan.id, s.execution, s.plan.steps[i].id, n, status).result.Ok?
    ensures var t' := FinalizeAttempt(d.tables, s.plan.id, s.execution, s.plan.steps[i].id, n, status).tables;
      StepDone(s, t', k) <==> StepDone(s, d.tables, k) || (status.Completed? && k == i)
  {
    hide FinalizeAttempt, StepDone, SameCompletions, GoodSetup;
    if status.Completed? {
      SuccessMarksStep(s, d.tables, i, n, k);
    } else {
      UnsuccessfulKeeps(s, d.tables, i, n, status);
      SameCompletionsSameDone(s, d.tables, FinalizeAttempt(d.tables, s.plan.id, s.execution, s.plan.steps[i].id, n, status).tables, k);
    }
  }

  lemma EndedExact(s: Setup, d: Durable, i: nat, n: nat, status: AttemptStatus)
    requires Flying(s, d, i) && Ending(status)
    requires FinalizeAttempt(d.tables, s.plan.id, s.execution, s.plan.steps[i].id, n, status).result.Ok?
    ensures Exact(s, EndedState(s, d, i, n, status))
  {
    var d' := EndedState(s, d, i, n, status);
    EndedPlace(s, d, i, n, status);
    HistoryParts(s, d);
    hide FinalizeAttempt, EndedState, StepDone, GoodSetup, Sound, History;
    forall k: nat | k < |s.plan.steps|
      ensures StepDone(s, d'.tables, k) <==> k <= LastOf(d', s.plan.id)
    {
      EndedDone(s, d, i, n, status, k);
    }
  }

  lemma EndedRecords(s: Setup, d: Durable, i: nat, n: nat, status: AttemptStatus)
    requires Flying(s, d, i) && Ending(status)
    ensures var d' := EndedState(s, d, i, n, status);
      && WithinReach(s, d') && CleanRuns.Tracked(d'.tables) && OnlyOurs(s, d'.tables) && LockIsOurs(s, d'.tables)
      && SameIdentities(d.tables.attempts, d'.tables.attempts)
  {
    EndedPlace(s, d, i, n, status);
    HistoryParts(s, d);
    LockStaysOurs(s, d);
    EndTracked(s, d.tables, i, n, status);
    hide FinalizeAttempt, EndedState, StepDone, GoodSetup, Sound, History, Exact, WithinReach, CleanRuns.Tracked, OnlyOurs, SameIdentities,
         NumberedInOrder, Flying;
    SameIdentitiesReach(s, d, EndedState(s, d, i, n, status));
  }

  lemma EndedFresh(s: Setup, d: Durable, i: nat, n: nat, status: AttemptStatus)
    requires Flying(s, d, i) && Ending(status)
    ensures RunningIsFresh(s, EndedState(s, d, i, n, status))
  {
    EndedPlace(s, d, i, n, status);
    HistoryParts(s, d);
    EndedRecords(s, d, i, n, status);
    hide FinalizeAttempt, EndedState, StepDone, GoodSetup, Sound, History, Exact, WithinReach, LastNotFailed, CleanRuns.Tracked, OnlyOurs,
         SameIdentities, NumberedInOrder;
    if status.Completed? && i + 1 < |s.plan.steps| {
      UnreachedIsFresh(s, d, EndedState(s, d, i, n, status), i + 1);
    }
  }

  lemma EndedGood(s: Setup, d: Durable, i: nat, n: nat, status: AttemptStatus)
    requires Flying(s, d, i) && Ending(status)
    requires FinalizeAttempt(d.tables, s.plan.id, s.execution, s.plan.steps[i].id, n, status).result.Ok?
    ensures Sound(s, EndedState(s, d, i, n, status)) && History(s, EndedState(s, d, i, n, status))
  {
    EndedPlace(s, d, i, n, status);
    EndedExact(s, d, i, n, status);
    EndedRecords(s, d, i, n, status);
    EndedFresh(s, d, i, n, status);
    hide FinalizeAttempt, EndedState, StepDone, GoodSetup, Sound, Exact, WithinReach, RunningIsFresh, CleanRuns.Tracked, OnlyOurs, SameIdentities;
    ExactIsSound(s, EndedState(s, d, i, n, status));
  }

  lemma EndedRows(s: Setup, d: Durable, i: nat, n: nat, status: AttemptStatus, rows: seq<Rows.RowStatus>)
    requires GoodSetup(s) && RowsAgree(s, d.tables, rows) && i < |s.plan.steps| && !StepDone(s, d.tables, i) && Ending(status)
    requires FinalizeAttempt(d.tables, s.plan.id, s.execution, s.plan.steps[i].id, n, status).result.Ok?
    ensures RowsAgree(s, FinalizeAttempt(d.tables, s.plan.id, s.execution, s.plan.steps[i].id, n, status).tables, rows[i := EndedRow(status)])
  {
    hide FinalizeAttempt, StepDone, GoodSetup;
    var t' := FinalizeAttempt(d.tables, s.plan.id, s.execution, s.plan.steps[i].id, n, status).tables;
    forall k: nat | k < |s.plan.steps|
      ensures StepDone(s, t', k) <==> StepDone(s, d.tables, k) || (status.Completed? && k == i)
    {
      EndedDone(s, d, i, n, status, k);
    }
  }

  lemma EndTurnIs(s: Setup, d: Durable, rows: seq<Rows.RowStatus>, i: nat, n: nat, status: AttemptStatus, worker: Id)
    requires InPlan(s, rows, i) && Ending(status)
    ensures var t := EndTurn(s, d, rows, i, n, status, worker);
      && (t.next == InFlight(i, n) ==> t.d == d && t.rows == rows)
      && (t.next != InFlight(i, n) ==>
            && Admits(rows[i], EndedRow(status)) && s.plan.id in d.checkpoints
            && FinalizeAttempt(d.tables, s.plan.id, s.execution, s.plan.steps[i].id, n, status).result.Ok?
            && t.rows == rows[i := EndedRow(status)]
            && t.d == (if status.Cancelled? then ReleaseFor(EndedState(s, d, i, n, status), s.plan.id, s.execution, worker)
                       else EndedState(s, d, i, n, status))
            && t.next == (match status
                          case Completed => if i + 1 < |s.plan.steps| then At(i + 1) else Closing(CheckpointStatus.Completed)
                          case Failed => Stuck(i)
                          case _ => Dead))
  {
    hide FinalizeAttempt, ReleaseFor, Admits;
  }

  lemma EndKeeps(s: Setup, d: Durable, rows: seq<Rows.RowStatus>, i: nat, n: nat, status: AttemptStatus, worker: Id)
    requires GoodSetup(s) && Good(s, d, rows) && ProcessOk(s, d, InFlight(i, n)) && InPlan(s, rows, i) && Ending(status)
    ensures var t := EndTurn(s, d, rows, i, n, status, worker);
      Good(s, t.d, t.rows) && Onward(s, d, t.d) && ProcessOk(s, t.d, t.next)
  {
    GoodParts(s, d, rows);
    HistoryParts(s, d);
    EndTurnIs(s, d, rows, i, n, status, worker);
    hide Good, Sound, History, Exact, RowsAgree, StepDone, GoodSetup, FinalizeAttempt, ReleaseFor, EndTurn, EndedState, Admits;
    var t := EndTurn(s, d, rows, i, n, status, worker);
    if t.next != InFlight(i, n) {
      OpenRow(s, d.tables, rows, i, EndedRow(status));
      OpenIsNext(s, d, InFlight(i, n));
      var ended := EndedState(s, d, i, n, status);
      EndedGood(s, d, i, n, status);
      EndedPlace(s, d, i, n, status);
      EndedRows(s, d, i, n, status, rows);
      GoodWhole(s, ended, t.rows);
      if status.Cancelled? {
        ReleaseKeepsAll(s, ended, worker);
        GoodAdvances(s, ended, t.d, t.rows);
      }
    }
  }

  // ----- Every run -----

  /** Whatever a process does, tables and rows stay as they should be, and so does the process. */
  lemma TurnKeeps(s: Setup, d: Durable, rows: seq<Rows.RowStatus>, p: Process, act: Act)
    requires GoodSetup(s) && Good(s, d, rows) && ProcessOk(s, d, p)
    ensures var t := TurnOf(s, d, rows, p, act);
      Good(s, t.d, t.rows) && Onward(s, d, t.d) && ProcessOk(s, t.d, t.next)
  {
    GoodParts(s, d, rows);
    hide Good, Sound, History, RowsAgree, BeginTurn, EndTurn, PauseTurn, HeartbeatAttempt, ReleaseFor, GoodSetup, FinalizeTransition, Advances;
    match (act, p)
    case (Begin(worker, effect), At(i)) => if InPlan(s, rows, i) { BeginKeeps(s, d, rows, i, worker, effect); }
    case (End(status, worker), InFlight(i, n)) =>
      if InPlan(s, rows, i) && Ending(status) {
        EndKeeps(s, d, rows, i, n, status, worker);
      }
    case (Pause(row, worker), At(i)) => if InPlan(s, rows, i) { PauseKeeps(s, d, rows, p, row, worker); }
    case (Pause(row, worker), Stuck(i)) => if InPlan(s, rows, i) { PauseKeeps(s, d, rows, p, row, worker); }
    case _ => QuietTurnKeeps(s, d, rows, p, act);
  }

  predicate QuietAct(p: Process, act: Act) {
    !(act.Begin? && p.At?) && !(act.End? && p.InFlight?) && !(act.Pause? && (p.At? || p.Stuck?))
  }

  /** The acts that leave the rows alone, begin nothing and end nothing. */
  lemma QuietTurnAdvances(s: Setup, d: Durable, rows: seq<Rows.RowStatus>, p: Process, act: Act)
    requires Sound(s, d) && ProcessOk(s, d, p) && QuietAct(p, act)
    ensures var t := TurnOf(s, d, rows, p, act);
      Sound(s, t.d) && Advances(s, d, t.d) && t.rows == rows && (ProcessOk(s, t.d, p) ==> ProcessOk(s, t.d, t.next))
  {
    hide Sound, Advances, HeartbeatAttempt, ReleaseFor, FinalizeTransition;
    AdvancesRefl(s, d);
    match (act, p)
    case (Close(worker), Stuck(_)) => CloseKeeps(s, d, CheckpointStatus.Failed, worker);
    case (Close(worker), Closing(outcome)) => CloseKeeps(s, d, outcome, worker);
    case (Heartbeat(worker), InFlight(i, n)) => if InPlan(s, rows, i) { HeartbeatKeeps(s, d, s.plan.steps[i].id, n, worker); }
    case (Stop(worker), _) => ReleaseKeepsAll(s, d, worker);
    case _ =>
  }

  lemma QuietTurnKeeps(s: Setup, d: Durable, rows: seq<Rows.RowStatus>, p: Process, act: Act)
    requires Good(s, d, rows) && ProcessOk(s, d, p) && QuietAct(p, act)
    ensures var t := TurnOf(s, d, rows, p, act);
      Good(s, t.d, t.rows) && Onward(s, d, t.d) && ProcessOk(s, t.d, t.next)
  {
    GoodParts(s, d, rows);
    hide Good, Sound, TurnOf, Advances, ProcessOk, Onward;
    QuietTurnAdvances(s, d, rows, p, act);
    GoodAdvances(s, d, TurnOf(s, d, rows, p, act).d, rows);
    StaysOk(s, d, TurnOf(s, d, rows, p, act).d, p);
  }

  lemma InvParts(s: Setup, w: World)
    requires Inv(s, w)
    ensures Good(s, w.d, w.rows) && Sound(s, w.d) && History(s, w.d) && RowsAgree(s, w.d.tables, w.rows)
    ensures forall p :: p in w.ps ==> ProcessOk(s, w.d, p)
  {
  }

  /** The living go on where they are. */
  lemma OthersGoOn(s: Setup, w: World, d': Durable, rows': seq<Rows.RowStatus>)
    requires Inv(s, w) && Good(s, d', rows') && Onward(s, w.d, d')
    ensures Inv(s, World(d', rows', w.ps))
  {
    hide Good, ProcessOk, Onward;
    forall p | p in w.ps
      ensures ProcessOk(s, d', p)
    {
      StaysOk(s, w.d, d', p);
    }
  }

  lemma AdvancesInv(s: Setup, w: World, d': Durable)
    requires Inv(s, w) && Sound(s, d') && Advances(s, w.d, d')
    ensures Inv(s, w.(d := d'))
  {
    InvParts(s, w);
    hide Inv, Good, Sound, Advances, Onward;
    GoodAdvances(s, w.d, d', w.rows);
    OthersGoOn(s, w, d', w.rows);
  }

  lemma ProcessTurns(s: Setup, w: World, p: nat, act: Act)
    ensures Do(s, w, ProcessMove(p, act)) ==
      if p < |w.ps| then
        var t := TurnOf(s, w.d, w.rows, w.ps[p], act);
        World(t.d, t.rows, w.ps[p := t.next])
      else w
  {
    hide TurnOf;
  }

  lemma ProcessMoveInv(s: Setup, w: World, p: nat, act: Act)
    requires GoodSetup(s) && Inv(s, w)
    ensures Inv(s, Do(s, w, ProcessMove(p, act)))
  {
    InvParts(s, w);
    ProcessTurns(s, w, p, act);
    hide Inv, Do, Good, Sound, History, RowsAgree, TurnOf, ProcessOk, Onward, GoodSetup;
    if p < |w.ps| {
      assert w.ps[p] in w.ps;
      var t := TurnOf(s, w.d, w.rows, w.ps[p], act);
      TurnKeeps(s, w.d, w.rows, w.ps[p], act);
      OthersGoOn(s, w, t.d, t.rows);
      NextInv(s, World(t.d, t.rows, w.ps), p, t.next);
    }
  }

  lemma NextInv(s: Setup, w: World, p: nat, next: Process)
    requires Inv(s, w) && p < |w.ps| && ProcessOk(s, w.d, next)
    ensures Inv(s, w.(ps := w.ps[p := next]))
  {
    hide Good, ProcessOk;
  }

  lemma StartedInv(s: Setup, w: World, entry: Entry)
    requires Inv(s, w) && Sound(s, entry.durable) && Advances(s, w.d, entry.durable)
    requires entry.startAt.Some? ==> ReadyAt(s, entry.durable, entry.startAt.value)
    ensures Inv(s, Started(w, entry))
  {
    AdvancesInv(s, w, entry.durable);
    hide Good, Sound, Advances, StepDone;
  }

  lemma LaunchInv(s: Setup, w: World, worker: Id, g: Gates)
    requires GoodSetup(s) && Inv(s, w)
    ensures Inv(s, Do(s, w, LaunchMove(worker, g)))
  {
    InvParts(s, w);
    hide Launch, Sound, Good, History, Advances, Inv, ReadyAt, GoodSetup;
    LaunchOutcome(s, w.d, worker, g);
    LaunchAdvances(s, w.d, worker, g);
    StartedInv(s, w, Launch(w.d, s.plan, s.execution, worker, g));
  }

  lemma RecoverInv(s: Setup, w: World, worker: Id, g: Gates)
    requires GoodSetup(s) && Inv(s, w)
    ensures Inv(s, Do(s, w, RecoverMove(worker, g)))
  {
    InvParts(s, w);
    hide Recover, Sound, Good, History, Advances, Inv, ReadyAt, StartReason, AttemptAlive, GoodSetup;
    RecoverOutcome(s, w.d, worker, g);
    RecoverAdvances(s, w.d, worker, g);
    StartedInv(s, w, Recover(w.d, s.plan, s.execution, worker, g));
  }

  lemma SnapshotInv(s: Setup, w: World, rows: seq<Rows.RowStatus>)
    requires Inv(s, w) && SnapshotAllowed(w.rows, rows)
    ensures Inv(s, w.(rows := rows))
  {
    hide Sound, History, ProcessOk, RowsAgree, SnapshotAllowed;
    SnapshotKeeps(s, w.d.tables, w.rows, rows);
  }

  lemma RetryInv(s: Setup, w: World, step: nat)
    requires Inv(s, w) && RetryAllowed(s, w.d, step)
    ensures Inv(s, w.(d := Retried(s, w.d, step), rows := RetriedRows(w.rows, step)))
  {
    InvParts(s, w);
    hide Inv, Good, Onward, RetryAllowed, Retried, RetriedRows;
    RetryKeeps(s, w.d, w.rows, step);
    OthersGoOn(s, w, Retried(s, w.d, step), RetriedRows(w.rows, step));
  }

  /** The first step without a completed row is the first open one. */
  lemma FirstOpenIsNext(s: Setup, d: Durable, rows: seq<Rows.RowStatus>)
    requires Exact(s, d) && RowsAgree(s, d.tables, rows) && s.plan.id in d.checkpoints && FirstOpen(rows) < |rows|
    requires -1 <= LastOf(d, s.plan.id)
    ensures FirstOpen(rows) <= d.checkpoints[s.plan.id].lastCompleted + 1
  {
    hide StepDone;
    var i := FirstOpen(rows);
    if i > 0 {
      assert StepDone(s, d.tables, i - 1);
    }
  }

  lemma ResumeInv(s: Setup, w: World, step: nat, worker: Id)
    requires GoodSetup(s) && Inv(s, w)
    ensures Inv(s, Resumed(s, w, step, worker))
  {
    InvParts(s, w);
    HistoryParts(s, w.d);
    LastInRange(s, w.d);
    hide Inv, Good, Sound, History, Exact, RowsAgree, CleanRuns.Tracked, NumberedInOrder, Advances, AcquireOrReuse, StepDone, ProcessOk;
    var taken := w.d.(tables := AcquireOrReuse(w.d.tables, s.plan.id, s.execution, worker).tables);
    TakeLockKeeps(s, w.d, worker);
    AdvancesInv(s, w, taken);
    var w' := Resumed(s, w, step, worker);
    if |w'.ps| > |w.ps| {
      FirstOpenIsNext(s, w.d, w.rows);
      PausedRow(s, w, taken, step);
      JoinedInv(s, World(taken, w'.rows, w.ps), FirstOpen(w.rows));
    }
  }

  lemma TakeLockKeeps(s: Setup, d: Durable, worker: Id)
    requires Sound(s, d)
    ensures var d' := d.(tables := AcquireOrReuse(d.tables, s.plan.id, s.execution, worker).tables); Sound(s, d') && Advances(s, d, d')
  {
    hide Sound, Advances, Keeps, AcquireOrReuse;
    AcquireKeeps(s, d, worker);
    LockAdvances(s, d, worker);
    KeepsSound(s, d, d.(tables := AcquireOrReuse(d.tables, s.plan.id, s.execution, worker).tables));
  }

  /** An approved step is pending again. */
  lemma PausedRow(s: Setup, w: World, d: Durable, step: nat)
    requires Inv(s, w.(d := d)) && step < |w.rows| && w.rows[step].PausedForReview?
    ensures Inv(s, World(d, w.rows[step := Rows.Pending], w.ps))
  {
    hide Sound, History, StepDone, ProcessOk;
  }

  lemma JoinedInv(s: Setup, w: World, i: nat)
    requires Inv(s, w) && ProcessOk(s, w.d, At(i))
    ensures Inv(s, w.(ps := w.ps + [At(i)]))
  {
    hide Good, ProcessOk;
  }

  /** Every move keeps the invariant. */
  lemma MoveKeepsInv(s: Setup, w: World, m: Move)
    requires GoodSetup(s) && Inv(s, w)
    ensures Inv(s, Do(s, w, m))
  {
    InvParts(s, w);
    hide Inv, Good, Sound, History, RowsAgree, GoodSetup, RetryAllowed, Retried, RetriedRows, CutShort, SnapshotAllowed, Advances, TurnOf,
         Launch, Recover, ProcessOk;
    match m
    case LaunchMove(worker, gates) => LaunchInv(s, w, worker, gates);
    case RecoverMove(worker, gates) => RecoverInv(s, w, worker, gates);
    case CutShortMove(part) => CutShortKeeps(s, w.d, part); AdvancesInv(s, w, CutShort(s, w.d, part));
    case RetryMove(step) => if RetryAllowed(s, w.d, step) { RetryInv(s, w, step); }
    case ResumeMove(step, worker) => ResumeInv(s, w, step, worker);
    case CancelRequestMove => CancelRequestKeeps(s, w.d); AdvancesInv(s, w, RequestCancellation(w.d, s.plan.id).durable);
    case SnapshotMove(rows) => if SnapshotAllowed(w.rows, rows) { SnapshotInv(s, w, rows); }
    case TickMove(ms) => ClockKeeps(s, w.d, ms); AdvancesInv(s, w, w.d.(tables := w.d.tables.(now := w.d.tables.now + ms)));
    case ProcessMove(p, act) => ProcessMoveInv(s, w, p, act);
  }

  lemma BeginningInv(s: Setup)
    ensures Inv(s, Beginning(s))
  {
    CleanRuns.EmptyIsClean();
    hide CleanRuns.Tracked, CleanRuns.InOrder, CleanRuns.Clean;
  }

  /** The invariant holds after any run. */
  lemma {:induction false} RunKeepsInv(s: Setup, moves: seq<Move>)
    requires GoodSetup(s)
    ensures Inv(s, DoAll(s, Beginning(s), moves))
  {
    hide Inv, Do;
    if moves == [] {
      BeginningInv(s);
    } else {
      RunKeepsInv(s, Init(moves));
      MoveKeepsInv(s, DoAll(s, Beginning(s), Init(moves)), Last(moves));
    }
  }
}
