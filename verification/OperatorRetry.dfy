/** The operator's `retry_step` (services/executionStateStore.js) and the snapshot checks that look at its result
    (`collectExecutionSnapshotIssues` in services/executionReconciliation.js). */
module OperatorRetry {
  import opened Common
  import ExecutionTables
  import opened StateStore
  import Rows = SnapshotStore

  datatype StepRow = StepRow(
    id: string, stageId: Option<string>, sequence: int, status: Rows.RowStatus,
    startedAt: Option<string>, finishedAt: Option<string>, pauseReason: Option<string>, reviewAcknowledged: bool)

  datatype StageRow = StageRow(
    id: string, sequence: int, status: Rows.RowStatus,
    startedAt: Option<string>, finishedAt: Option<string>, pauseReason: Option<string>)

  /** The rows of one execution and its plan's checkpoint; steps and stages as `ORDER BY sequence` lists them. */
  datatype Desk = Desk(
    checkpoint: Option<Checkpoint>, execution: Option<Rows.RowStatus>, requiresReview: bool,
    steps: seq<StepRow>, stages: seq<StageRow>)

  datatype RetryError = ExecutionNotFound | InvalidTransition | ReasonRequired | StepNotFound

  datatype Retried = Retried(desk: Desk, result: Result<int, RetryError>)

  datatype Request = Request(planId: string, executionId: string, operatorId: string, reason: string, stepId: Option<string>, now: nat)

  // ----- The action -----

  predicate StoppedExecution(status: Rows.RowStatus) {
    status.Completed? || status.Cancelled? || status.Failed?
  }

  predicate InReview(desk: Desk)
    requires desk.checkpoint.Some? && desk.execution.Some?
  {
    || desk.checkpoint.value.status.AwaitingReview? || desk.checkpoint.value.status.PauseForOperatorRecovery?
    || desk.execution.value.PausedForReview? || desk.requiresReview
  }

  /** Why the request is turned away before any row is looked at. */
  function Refusal(desk: Desk, r: Request): Option<RetryError> {
    if ExecutionTables.Blank(r.planId) || ExecutionTables.Blank(r.executionId) then Some(ExecutionNotFound)
    else if ExecutionTables.Blank(r.operatorId) then Some(InvalidTransition)
    else if ExecutionTables.Blank(r.reason) then Some(ReasonRequired)
    else if desk.checkpoint.None? || desk.execution.None? then Some(ExecutionNotFound)
    else
      var failed := desk.checkpoint.value.status.Failed? || desk.execution.value.Failed?;
      if (Terminal(desk.checkpoint.value.status) || StoppedExecution(desk.execution.value)) && !failed then Some(InvalidTransition)
      else if !InReview(desk) && !failed then Some(InvalidTransition)
      else None
  }

  function FindStep(steps: seq<StepRow>, wanted: StepRow -> bool): (r: Option<nat>)
    ensures r.Some? ==> r.value < |steps| && wanted(steps[r.value]) && forall i :: 0 <= i < r.value ==> !wanted(steps[i])
    ensures r.None? ==> forall i :: 0 <= i < |steps| ==> !wanted(steps[i])
  {
    if steps == [] then None
    else if wanted(steps[0]) then Some(0)
    else
      match FindStep(steps[1..], wanted)
      case Some(i) =>
        assert forall j :: 0 < j <= i ==> steps[j] == steps[1..][j - 1];
        Some(i + 1)
      case None =>
        assert forall j :: 0 < j < |steps| ==> steps[j] == steps[1..][j - 1];
        None
  }

  /** The named step, or else the first failed one, the first paused one, the one after the checkpoint's position. */
  function Target(steps: seq<StepRow>, stepId: Option<string>, currentStep: int): (r: Option<nat>)
    ensures r.Some? ==> r.value < |steps|
  {
    if stepId.Some? && stepId.value != "" then FindStep(steps, (s: StepRow) => s.id == stepId.value)
    else
      var failed := FindStep(steps, (s: StepRow) => s.status.Failed?);
      var paused := FindStep(steps, (s: StepRow) => s.status.PausedForReview?);
      if failed.Some? then failed
      else if paused.Some? then paused
      else FindStep(steps, (s: StepRow) => s.sequence == currentStep + 1)
  }

  function ResetStep(s: StepRow, target: StepRow): StepRow {
    var later := s.sequence >= target.sequence && !s.status.Completed?;
    s.(status :=
         if s.sequence == target.sequence then Rows.Pending
         else if s.sequence > target.sequence && !s.status.Completed? then Rows.Pending
         else s.status,
       startedAt := if later then None else s.startedAt,
       finishedAt := if later then None else s.finishedAt,
       pauseReason := if later then None else s.pauseReason,
       reviewAcknowledged := s.reviewAcknowledged || s.id == target.id)
  }

  function ResetStage(s: StageRow, sequence: int): StageRow {
    s.(status := if s.sequence >= sequence then Rows.Pending else s.status,
       pauseReason := if s.sequence >= sequence then None else s.pauseReason,
       startedAt := if s.sequence >= sequence then None else s.startedAt,
       finishedAt := if s.sequence >= sequence && !s.status.Completed? then None else s.finishedAt)
  }

  function ResetSteps(steps: seq<StepRow>, target: StepRow): (r: seq<StepRow>)
    ensures |r| == |steps|
  {
    seq(|steps|, i requires 0 <= i < |steps| => ResetStep(steps[i], target))
  }

  function ResetStages(stages: seq<StageRow>, sequence: int): (r: seq<StageRow>)
    ensures |r| == |stages|
  {
    seq(|stages|, i requires 0 <= i < |stages| => ResetStage(stages[i], sequence))
  }

  /** The sequence of a stage, 0 when no stage has the id. */
  function StageSequence(stages: seq<StageRow>, id: string): int {
    if stages == [] then 0 else if stages[0].id == id then stages[0].sequence else StageSequence(stages[1..], id)
  }

  function Min(a: int, b: int): int {
    if a < b then a else b
  }

  function Max(a: int, b: int): int {
    if a < b then b else a
  }

  function RetryStep(desk: Desk, r: Request): Retried {
    var refusal := Refusal(desk, r);
    if refusal.Some? then Retried(desk, Err(refusal.value))
    else
      var c := desk.checkpoint.value;
      var found := Target(desk.steps, r.stepId, c.currentStep);
      if found.None? then Retried(desk, Err(StepNotFound))
      else
        var target := desk.steps[found.value];
        var index := Max(0, target.sequence - 1);
        var row := c.(status := CheckpointStatus.Paused, cancellationRequested := false, currentStep := index,
                      lastCompleted := Min(c.lastCompleted, index - 1), updatedAt := r.now);
        var stages :=
          if target.stageId.None? then desk.stages
          else ResetStages(desk.stages, StageSequence(desk.stages, target.stageId.value));
        Retried(Desk(Some(row), Some(Rows.Paused), false, ResetSteps(desk.steps, target), stages), Ok(index))
  }

  // ----- The snapshot checks -----

  function CompletedSteps(steps: seq<StepRow>): nat {
    if steps == [] then 0
    else
      var here := if Last(steps).status.Completed? then 1 else 0;
      CompletedSteps(Init(steps)) + here
  }

  predicate InStage(s: StepRow, stage: StageRow) {
    stage.id == match s.stageId case Some(id) => id case None => ""
  }

  predicate StageAgrees(stage: StageRow, steps: seq<StepRow>) {
    && (stage.status.Completed? ==> forall s :: s in steps && InStage(s, stage) ==> s.status.Completed?)
    && (stage.status.Failed? ==>
          (forall s :: s in steps ==> !InStage(s, stage))
          || exists s :: s in steps && InStage(s, stage) && (s.status.Failed? || s.status.Cancelled?))
  }

  predicate StagesAgree(steps: seq<StepRow>, stages: seq<StageRow>) {
    stages != [] ==>
      && (forall s :: s in steps && s.stageId.Some? && s.stageId.value != "" ==>
            exists stage :: stage in stages && stage.id == s.stageId.value)
      && forall stage :: stage in stages ==> StageAgrees(stage, steps)
  }

  predicate StatusesAgree(checkpoint: CheckpointStatus, execution: Rows.RowStatus) {
    && (checkpoint.Completed? ==> execution.Completed?)
    && (checkpoint.Failed? ==> execution.Failed?)
    && (checkpoint.Cancelled? ==> execution.Cancelled?)
    && (checkpoint.Running? ==> execution.Running? || execution.Pending?)
    && (checkpoint.AwaitingReview? || checkpoint.PauseForOperatorRecovery? || checkpoint.Paused? ==>
          execution.Paused? || execution.PausedForReview? || execution.Pending? || execution.Running?)
  }

  predicate PositionAgrees(c: Checkpoint, steps: seq<StepRow>, plan: seq<string>) {
    (c.status.Running? || c.status.Paused? || c.status.AwaitingReview? || c.status.PauseForOperatorRecovery?)
    && 0 <= c.currentStep < |plan| ==>
      var at := FindStep(steps, (s: StepRow) => s.id == plan[c.currentStep]);
      at.Some? && !steps[at.value].status.Completed?
  }

  predicate ProgressAgrees(c: Checkpoint, steps: seq<StepRow>, plan: seq<string>) {
    var completed := CompletedSteps(steps);
    && c.lastCompleted + 1 <= completed
    && (|plan| > 0 ==> completed <= |plan|)
    && (!c.status.Completed? && |plan| > 0 ==> completed <= c.lastCompleted + 1)
  }

  function IdsOf(steps: seq<StepRow>): (r: set<string>)
    ensures forall id :: id in r <==> exists s :: s in steps && s.id == id
  {
    set s | s in steps :: s.id
  }

  /** What the snapshot checks demand of an execution with rows, given the plan's step ids. */
  predicate SnapshotAgrees(desk: Desk, plan: seq<string>) {
    desk.execution.Some? ==>
      && IdsOf(desk.steps) == Elements(plan)
      && StagesAgree(desk.steps, desk.stages)
      && (desk.checkpoint.Some? ==>
            && ProgressAgrees(desk.checkpoint.value, desk.steps, plan)
            && StatusesAgree(desk.checkpoint.value.status, desk.execution.value)
            && PositionAgrees(desk.checkpoint.value, desk.steps, plan))
  }

  // ----- What agreement means -----

  /** The rows name the plan's steps; stages say what their steps say; and, with a checkpoint, as many rows are completed as it
      counts (all of them once it is completed), its status and the execution's go together, and its position is open. */
  ghost predicate RowsTellTheSame(desk: Desk, plan: seq<string>) {
    && (forall id :: (exists s :: s in desk.steps && s.id == id) <==> id in plan)
    && (forall g :: g in desk.stages ==> StageTellsTheSame(desk, g))
    && (forall s :: s in desk.steps && desk.stages != [] && s.stageId.Some? && s.stageId.value != "" ==>
          exists g :: g in desk.stages && s.stageId == Some(g.id))
    && (desk.checkpoint.Some? && desk.execution.Some? ==>
          && var c, done := desk.checkpoint.value, |set i | 0 <= i < |desk.steps| && desk.steps[i].status.Completed?|;
             && c.lastCompleted + 1 <= done
             && (plan != [] ==> done <= |plan| && (done == c.lastCompleted + 1 || c.status.Completed?))
             && GoTogether(c.status, desk.execution.value)
             && (0 <= c.currentStep < |plan| && c.status in {CheckpointStatus.Running, CheckpointStatus.Paused,
                                                             CheckpointStatus.AwaitingReview, CheckpointStatus.PauseForOperatorRecovery} ==>
                   exists k :: 0 <= k < |desk.steps| && desk.steps[k].id == plan[c.currentStep] && !desk.steps[k].status.Completed?
                            && forall j :: 0 <= j < k ==> desk.steps[j].id != plan[c.currentStep]))
  }

  /** No step of a completed stage is open, and a failed stage that has steps has one that failed or was cancelled. */
  predicate StageTellsTheSame(desk: Desk, g: StageRow) {
    var own := set i | 0 <= i < |desk.steps| && (desk.steps[i].stageId == Some(g.id) || (desk.steps[i].stageId.None? && g.id == ""));
    && (g.status.Completed? ==> forall i :: i in own ==> desk.steps[i].status.Completed?)
    && (g.status.Failed? && own != {} ==> exists i :: i in own && (desk.steps[i].status.Failed? || desk.steps[i].status.Cancelled?))
  }

  predicate GoTogether(c: CheckpointStatus, e: Rows.RowStatus) {
    match c
    case Completed => e == Rows.Completed
    case Failed => e == Rows.Failed
    case Cancelled => e == Rows.Cancelled
    case Running => e in {Rows.Running, Rows.Pending}
    case AwaitingReview => e in {Rows.Paused, Rows.PausedForReview, Rows.Pending, Rows.Running}
    case PauseForOperatorRecovery => e in {Rows.Paused, Rows.PausedForReview, Rows.Pending, Rows.Running}
    case Paused => e in {Rows.Paused, Rows.PausedForReview, Rows.Pending, Rows.Running}
    case _ => true
  }

  lemma {:induction false} CompletedStepsCount(steps: seq<StepRow>)
    ensures CompletedSteps(steps) == |set i | 0 <= i < |steps| && steps[i].status.Completed?|
  {
    var done := set i | 0 <= i < |steps| && steps[i].status.Completed?;
    if steps == [] {
      assert done == {};
    } else {
      var k := |steps| - 1;
      CompletedStepsCount(Init(steps));
      var before := set i | 0 <= i < |Init(steps)| && Init(steps)[i].status.Completed?;
      assert done == if steps[k].status.Completed? then before + {k} else before;
    }
  }

  lemma StageAgreementMeans(desk: Desk, g: StageRow)
    ensures StageAgrees(g, desk.steps) <==> StageTellsTheSame(desk, g)
  {
    var own := set i | 0 <= i < |desk.steps| && (desk.steps[i].stageId == Some(g.id) || (desk.steps[i].stageId.None? && g.id == ""));
    forall i | 0 <= i < |desk.steps|
      ensures i in own <==> InStage(desk.steps[i], g)
    {
    }
    assert forall s :: s in desk.steps ==> exists i :: 0 <= i < |desk.steps| && desk.steps[i] == s;
    assert forall i :: 0 <= i < |desk.steps| ==> desk.steps[i] in desk.steps;
  }

  lemma IdsMean(steps: seq<StepRow>, plan: seq<string>)
    ensures IdsOf(steps) == Elements(plan) <==> forall id :: (exists s :: s in steps && s.id == id) <==> id in plan
  {
    forall id
      ensures id in Elements(plan) <==> id in plan
    {
    }
    if forall id :: (exists s :: s in steps && s.id == id) <==> id in plan {
      assert forall id :: id in IdsOf(steps) <==> id in Elements(plan);
    } else {
      var id :| !((exists s :: s in steps && s.id == id) <==> id in plan);
      assert id in IdsOf(steps) <==> id !in Elements(plan);
    }
  }

  lemma PositionMeans(c: Checkpoint, steps: seq<StepRow>, plan: seq<string>)
    ensures PositionAgrees(c, steps, plan) <==>
      (0 <= c.currentStep < |plan| && c.status in {CheckpointStatus.Running, CheckpointStatus.Paused,
                                                   CheckpointStatus.AwaitingReview, CheckpointStatus.PauseForOperatorRecovery} ==>
         exists k :: 0 <= k < |steps| && steps[k].id == plan[c.currentStep] && !steps[k].status.Completed?
                  && forall j :: 0 <= j < k ==> steps[j].id != plan[c.currentStep])
  {
  }

  lemma AgreementMeans(desk: Desk, plan: seq<string>)
    ensures SnapshotAgrees(desk, plan) <==> (desk.execution.Some? ==> RowsTellTheSame(desk, plan))
  {
    IdsMean(desk.steps, plan);
    CompletedStepsCount(desk.steps);
    forall g
      ensures StageAgrees(g, desk.steps) <==> StageTellsTheSame(desk, g)
    {
      StageAgreementMeans(desk, g);
    }
    if desk.checkpoint.Some? {
      PositionMeans(desk.checkpoint.value, desk.steps, plan);
    }
    hide StageAgrees, StageTellsTheSame, IdsOf, PositionAgrees, CompletedSteps, Elements;
  }

  // ----- What an operator may ask for, and what it does to the rows -----

  /** A failed plan, or one that is not over and waits for a review. */
  predicate MayBeRetried(desk: Desk, r: Request) {
    && !ExecutionTables.Blank(r.planId) && !ExecutionTables.Blank(r.executionId)
    && !ExecutionTables.Blank(r.operatorId) && !ExecutionTables.Blank(r.reason)
    && desk.checkpoint.Some? && desk.execution.Some?
    && var c, e := desk.checkpoint.value.status, desk.execution.value;
       || c.Failed? || e.Failed?
       || (&& !c.Completed? && !c.Cancelled? && !c.ExecutionAbandoned? && !c.Corrupted? && !e.Completed? && !e.Cancelled?
           && (c.AwaitingReview? || c.PauseForOperatorRecovery? || e.PausedForReview? || desk.requiresReview))
  }

  /** How a step qualifies: by its name if one is given; else failed steps come before paused ones, and these before the one after
      the checkpoint's position. */
  predicate Qualifies(desk: Desk, r: Request, s: StepRow)
    requires desk.checkpoint.Some?
  {
    if r.stepId.Some? && r.stepId.value != "" then s.id == r.stepId.value
    else if exists x :: x in desk.steps && x.status.Failed? then s.status.Failed?
    else if exists x :: x in desk.steps && x.status.PausedForReview? then s.status.PausedForReview?
    else s.sequence == desk.checkpoint.value.currentStep + 1
  }

  /** The first step that qualifies. */
  predicate IsTarget(desk: Desk, r: Request, k: nat) {
    && desk.checkpoint.Some? && k < |desk.steps| && Qualifies(desk, r, desk.steps[k])
    && forall j :: 0 <= j < k ==> !Qualifies(desk, r, desk.steps[j])
  }

  predicate StepsResetFrom(before: seq<StepRow>, after: seq<StepRow>, k: nat) {
    && |after| == |before| && k < |before|
    && forall i :: 0 <= i < |before| ==>
         var b, a, open := before[i], after[i], before[i].sequence >= before[k].sequence && !before[i].status.Completed?;
         && a.id == b.id && a.stageId == b.stageId && a.sequence == b.sequence
         && a.status == (if open || b.sequence == before[k].sequence then Rows.Pending else b.status)
         && (open ==> a.startedAt.None? && a.finishedAt.None? && a.pauseReason.None?)
         && (!open ==> a.startedAt == b.startedAt && a.finishedAt == b.finishedAt && a.pauseReason == b.pauseReason)
         && (a.reviewAcknowledged <==> b.reviewAcknowledged || b.id == before[k].id)
  }

  /** From the target's stage on every stage is pending again. */
  predicate StagesResetFor(before: seq<StageRow>, after: seq<StageRow>, stageId: Option<string>) {
    && |after| == |before| && (stageId.None? ==> after == before)
    && forall k :: 0 <= k < |before| && stageId == Some(before[k].id) && (forall j :: 0 <= j < k ==> before[j].id != before[k].id) ==>
         forall i :: 0 <= i < |before| ==>
           && after[i].id == before[i].id && after[i].sequence == before[i].sequence
           && (before[i].sequence < before[k].sequence ==> after[i] == before[i])
           && (before[i].sequence >= before[k].sequence ==>
                 after[i].status == Rows.Pending && after[i].pauseReason.None? && after[i].startedAt.None?)
  }

  lemma {:induction false} StageSequenceIsFirst(stages: seq<StageRow>, id: string)
    ensures forall k :: 0 <= k < |stages| && stages[k].id == id && (forall j :: 0 <= j < k ==> stages[j].id != stages[k].id) ==>
      StageSequence(stages, id) == stages[k].sequence
  {
    if stages != [] && stages[0].id != id {
      StageSequenceIsFirst(stages[1..], id);
      assert forall k :: 1 <= k < |stages| ==> stages[k] == stages[1..][k - 1];
    }
  }

  lemma RefusedExactly(desk: Desk, r: Request)
    ensures Refusal(desk, r).None? <==> MayBeRetried(desk, r)
    ensures Refusal(desk, r).None? ==> desk.checkpoint.Some? && desk.execution.Some?
  {
  }

  lemma TargetIsFirst(desk: Desk, r: Request)
    requires desk.checkpoint.Some?
    ensures var t := Target(desk.steps, r.stepId, desk.checkpoint.value.currentStep);
      && (t.Some? ==> IsTarget(desk, r, t.value))
      && (t.None? ==> forall k: nat :: !IsTarget(desk, r, k))
  {
    assert forall i :: 0 <= i < |desk.steps| ==> desk.steps[i] in desk.steps;
  }

  lemma ResetStepsMeans(steps: seq<StepRow>, k: nat)
    requires k < |steps|
    ensures StepsResetFrom(steps, ResetSteps(steps, steps[k]), k)
  {
  }

  lemma NoStageReset(stages: seq<StageRow>)
    ensures StagesResetFor(stages, stages, None)
  {
  }

  lemma ResetStagesMeans(stages: seq<StageRow>, id: string)
    ensures StagesResetFor(stages, ResetStages(stages, StageSequence(stages, id)), Some(id))
  {
    StageSequenceIsFirst(stages, id);
    hide StageSequence;
  }

  // ----- The imperative forms -----

  class ReviewedExecution {
    var checkpoint: Option<Checkpoint>
    var execution: Option<Rows.RowStatus>
    var requiresReview: bool
    var steps: seq<StepRow>
    var stages: seq<StageRow>

    ghost function View(): Desk
      reads this
    {
      Desk(checkpoint, execution, requiresReview, steps, stages)
    }

    constructor (desk: Desk)
      ensures View() == desk
    {
      checkpoint, execution, requiresReview, steps, stages :=
        desk.checkpoint, desk.execution, desk.requiresReview, desk.steps, desk.stages;
    }

    method ApplyRetryStep(r: Request) returns (result: Result<int, RetryError>)
      modifies this
      ensures Retried(View(), result) == RetryStep(old(View()), r)
      ensures result.Ok? <==> MayBeRetried(old(View()), r) && exists k: nat :: IsTarget(old(View()), r, k)
      ensures result.Err? ==> View() == old(View())
      ensures result.Ok? ==>
        && checkpoint.Some? && checkpoint.value.status.Paused? && !checkpoint.value.cancellationRequested
        && checkpoint.value.currentStep == result.value
        && checkpoint.value.lastCompleted ==
             (if old(checkpoint).value.lastCompleted < result.value then old(checkpoint).value.lastCompleted else result.value - 1)
        && execution == Some(Rows.Paused) && !requiresReview
        && exists k: nat :: IsTarget(old(View()), r, k) && result.value == Max(0, old(steps)[k].sequence - 1)
                         && StepsResetFrom(old(steps), steps, k) && StagesResetFor(old(stages), stages, old(steps)[k].stageId)
    {
      RefusedExactly(View(), r);
      hide Refusal, Target, IsTarget, MayBeRetried, StepsResetFrom, StagesResetFor, ResetSteps, ResetStages, StageSequence, Qualifies;
      var refusal := Refusal(Desk(checkpoint, execution, requiresReview, steps, stages), r);
      if refusal.Some? {
        return Err(refusal.value);
      }
      var c := checkpoint.value;
      TargetIsFirst(View(), r);
      var found := Target(steps, r.stepId, c.currentStep);
      if found.None? {
        return Err(StepNotFound);
      }
      var target := steps[found.value];
      ResetStepsMeans(steps, found.value);
      if target.stageId.Some? {
        ResetStagesMeans(stages, target.stageId.value);
      } else {
        NoStageReset(stages);
      }
      var index := if target.sequence - 1 < 0 then 0 else target.sequence - 1;
      var last := if c.lastCompleted < index - 1 then c.lastCompleted else index - 1;
      checkpoint := Some(c.(status := CheckpointStatus.Paused, cancellationRequested := false, currentStep := index,
                            lastCompleted := last, updatedAt := r.now));
      execution, requiresReview := Some(Rows.Paused), false;
      if target.stageId.Some? {
        stages := ResetStages(stages, StageSequence(stages, target.stageId.value));
      }
      steps := ResetSteps(steps, target);
      result := Ok(index);
    }

    /** Every check of the source, one after another; true when nothing was reported. */
    method CollectSnapshotIssues(plan: seq<string>) returns (silent: bool)
      ensures silent == SnapshotAgrees(View(), plan)
      ensures silent <==> (execution.Some? ==> RowsTellTheSame(View(), plan))
    {
      AgreementMeans(View(), plan);
      if execution.None? {
        return true;
      }
      silent := true;
      var planIds, snapshotIds := Elements(plan), IdsOf(steps);
      if planIds != snapshotIds {
        silent := false;
      }
      var stagesAgree := CheckStages();
      silent := silent && stagesAgree;
      if checkpoint.Some? {
        var c := checkpoint.value;
        var completed := CountCompleted();
        if completed < c.lastCompleted + 1 {
          silent := false;
        }
        if |plan| > 0 && completed > |plan| {
          silent := false;
        }
        if !StatusesAgree(c.status, execution.value) {
          silent := false;
        }
        if !c.status.Completed? && |plan| > 0 && completed > c.lastCompleted + 1 {
          silent := false;
        }
        if (c.status.Running? || c.status.Paused? || c.status.AwaitingReview? || c.status.PauseForOperatorRecovery?)
           && 0 <= c.currentStep < |plan| {
          var wanted := plan[c.currentStep];
          var at := FindStep(steps, (s: StepRow) => s.id == wanted);
          if at.None? || steps[at.value].status.Completed? {
            silent := false;
          }
        }
      }
    }

    method CountCompleted() returns (n: nat)
      ensures n == CompletedSteps(steps)
    {
      n := 0;
      for k := 0 to |steps|
        invariant n == CompletedSteps(steps[..k])
      {
        assert Init(steps[..k + 1]) == steps[..k];
        if steps[k].status.Completed? {
          n := n + 1;
        }
      }
      assert steps[..|steps|] == steps;
    }

    method CheckStages() returns (silent: bool)
      ensures silent == StagesAgree(steps, stages)
    {
      silent := true;
      if |stages| == 0 {
        return;
      }
      for k := 0 to |steps|
        invariant silent <==> forall i :: 0 <= i < k && steps[i].stageId.Some? && steps[i].stageId.value != "" ==>
                                exists stage :: stage in stages && stage.id == steps[i].stageId.value
      {
        var s := steps[k];
        if s.stageId.Some? && s.stageId.value != "" && !(exists stage :: stage in stages && stage.id == s.stageId.value) {
          silent := false;
        }
      }
      for k := 0 to |stages|
        invariant silent <==>
          (forall s :: s in steps && s.stageId.Some? && s.stageId.value != "" ==>
             exists stage :: stage in stages && stage.id == s.stageId.value)
          && forall i :: 0 <= i < k ==> StageAgrees(stages[i], steps)
      {
        var stage := stages[k];
        if stage.status.Completed? && exists s :: s in steps && InStage(s, stage) && !s.status.Completed? {
          silent := false;
        }
        if stage.status.Failed? && (exists s :: s in steps && InStage(s, stage))
           && forall s :: s in steps && InStage(s, stage) ==> !s.status.Failed? && !s.status.Cancelled? {
          silent := false;
        }
      }
    }
  }

  // ----- What a retry does to the agreement -----

  /** Steps are numbered 1..n in plan order and completed exactly up to `last`. */
  predicate PrefixCompleted(steps: seq<StepRow>, last: int) {
    && -1 <= last < |steps|
    && forall i :: 0 <= i < |steps| ==> (steps[i].status.Completed? <==> i <= last)
  }

  predicate Numbered(steps: seq<StepRow>, plan: seq<string>) {
    |steps| == |plan| && forall i :: 0 <= i < |steps| ==> steps[i].sequence == i + 1 && steps[i].id == plan[i]
  }

  /** Stage ids are distinct and not empty, and stage sequences increase. */
  predicate StagesOrdered(stages: seq<StageRow>) {
    && (forall i, j :: 0 <= i < j < |stages| ==> stages[i].id != stages[j].id && stages[i].sequence < stages[j].sequence)
    && forall i :: 0 <= i < |stages| ==> stages[i].id != ""
  }

  /** `place` says where the stage of each step stands among the stages; steps come stage by stage. */
  predicate StageMajor(steps: seq<StepRow>, stages: seq<StageRow>, place: seq<nat>) {
    && |place| == |steps|
    && (forall i :: 0 <= i < |steps| ==> place[i] < |stages| && steps[i].stageId == Some(stages[place[i]].id))
    && forall i, j :: 0 <= i < j < |steps| ==> place[i] <= place[j]
  }

  predicate AllStagesAgree(steps: seq<StepRow>, stages: seq<StageRow>) {
    forall stage :: stage in stages ==> StageAgrees(stage, steps)
  }

  /** The views agree before: a completed prefix, a position past it, stage-major order, consistent stages. */
  ghost predicate WellOrdered(desk: Desk, plan: seq<string>, place: seq<nat>) {
    && desk.checkpoint.Some? && desk.execution.Some?
    && Distinct(plan) && Numbered(desk.steps, plan)
    && PrefixCompleted(desk.steps, desk.checkpoint.value.lastCompleted)
    && desk.checkpoint.value.currentStep > desk.checkpoint.value.lastCompleted
    && StagesOrdered(desk.stages) && StageMajor(desk.steps, desk.stages, place)
    && AllStagesAgree(desk.steps, desk.stages)
  }

  lemma {:induction false} StageSequenceFinds(stages: seq<StageRow>, k: nat)
    requires k < |stages| && forall i :: 0 <= i < k ==> stages[i].id != stages[k].id
    ensures StageSequence(stages, stages[k].id) == stages[k].sequence
  {
    if k > 0 {
      assert stages[1..][k - 1] == stages[k];
      StageSequenceFinds(stages[1..], k - 1);
    }
  }

  lemma {:induction false} CountPrefix(steps: seq<StepRow>, n: nat)
    requires n <= |steps| && forall i :: 0 <= i < |steps| ==> (steps[i].status.Completed? <==> i < n)
    ensures CompletedSteps(steps) == n
  {
    if steps != [] {
      CountPrefix(Init(steps), if n == |steps| then n - 1 else n);
    }
  }

  lemma {:induction false} CountPrefixWithHole(steps: seq<StepRow>, n: nat, hole: nat)
    requires hole < n <= |steps|
    requires forall i :: 0 <= i < |steps| ==> (steps[i].status.Completed? <==> i < n && i != hole)
    ensures CompletedSteps(steps) == n - 1
  {
    if hole == |steps| - 1 {
      CountPrefix(Init(steps), n - 1);
    } else {
      CountPrefixWithHole(Init(steps), if n == |steps| then n - 1 else n, hole);
    }
  }

  /** Without a named step the target lies past the completed prefix. */
  lemma UnnamedTargetIsOpen(desk: Desk, plan: seq<string>, place: seq<nat>, r: Request)
    requires WellOrdered(desk, plan, place) && (r.stepId.None? || r.stepId.value == "")
    ensures var t := Target(desk.steps, r.stepId, desk.checkpoint.value.currentStep);
      t.Some? ==> t.value > desk.checkpoint.value.lastCompleted
  {
  }

  lemma PlaceIsStage(steps: seq<StepRow>, stages: seq<StageRow>, place: seq<nat>, i: nat, a: nat)
    requires StagesOrdered(stages) && StageMajor(steps, stages, place) && i < |steps| && a < |stages|
    ensures InStage(steps[i], stages[a]) <==> place[i] == a
  {
  }

  lemma StagesStayConsistent(steps: seq<StepRow>, plan: seq<string>, stages: seq<StageRow>, place: seq<nat>, t: nat)
    requires Numbered(steps, plan) && StagesOrdered(stages) && StageMajor(steps, stages, place)
    requires AllStagesAgree(steps, stages) && t < |steps|
    ensures StageSequence(stages, steps[t].stageId.value) == stages[place[t]].sequence
    ensures StagesAgree(ResetSteps(steps, steps[t]), ResetStages(stages, stages[place[t]].sequence))
  {
    StageSequenceFinds(stages, place[t]);
    var after, stages' := ResetSteps(steps, steps[t]), ResetStages(stages, stages[place[t]].sequence);
    forall s | s in after && s.stageId.Some? && s.stageId.value != ""
      ensures exists stage :: stage in stages' && stage.id == s.stageId.value
    {
      var i :| 0 <= i < |after| && after[i] == s;
      assert stages'[place[i]] in stages';
    }
    forall stage | stage in stages'
      ensures StageAgrees(stage, after)
    {
      var a :| 0 <= a < |stages'| && stages'[a] == stage;
      if a < place[t] {
        EarlierStageUntouched(steps, plan, stages, place, t, a);
      } else {
        assert stages[a].sequence >= stages[place[t]].sequence;
      }
    }
  }

  lemma EarlierStageUntouched(steps: seq<StepRow>, plan: seq<string>, stages: seq<StageRow>, place: seq<nat>, t: nat, a: nat)
    requires Numbered(steps, plan) && StagesOrdered(stages) && StageMajor(steps, stages, place)
    requires AllStagesAgree(steps, stages) && t < |steps| && a < place[t]
    ensures StageAgrees(ResetStage(stages[a], stages[place[t]].sequence), ResetSteps(steps, steps[t]))
  {
    var after, stage := ResetSteps(steps, steps[t]), stages[a];
    assert stage in stages && StageAgrees(stage, steps);
    assert stage.sequence < stages[place[t]].sequence;
    forall i | 0 <= i < |steps|
      ensures InStage(after[i], stage) <==> InStage(steps[i], stage)
      ensures InStage(steps[i], stage) ==> after[i].status == steps[i].status
    {
      PlaceIsStage(steps, stages, place, i, a);
    }
    KeptRowsKeepStage(steps, after, stage);
  }

  /** A stage whose own steps keep stage and status still agrees with its steps. */
  lemma KeptRowsKeepStage(before: seq<StepRow>, after: seq<StepRow>, stage: StageRow)
    requires |before| == |after| && StageAgrees(stage, before)
    requires forall i :: 0 <= i < |before| ==> (InStage(after[i], stage) <==> InStage(before[i], stage))
    requires forall i :: 0 <= i < |before| && InStage(before[i], stage) ==> after[i].status == before[i].status
    ensures StageAgrees(stage, after)
  {
    if stage.status.Failed? && exists s :: s in before && InStage(s, stage) && (s.status.Failed? || s.status.Cancelled?) {
      var s :| s in before && InStage(s, stage) && (s.status.Failed? || s.status.Cancelled?);
      var i :| 0 <= i < |before| && before[i] == s;
      assert after[i] in after;
    }
    forall s | s in after && InStage(s, stage)
      ensures stage.status.Completed? ==> s.status.Completed?
      ensures exists b :: b in before && InStage(b, stage)
    {
      var i :| 0 <= i < |after| && after[i] == s;
      assert before[i] in before;
    }
  }

  lemma ResetPrefix(steps: seq<StepRow>, plan: seq<string>, last: int, t: nat)
    requires Numbered(steps, plan) && PrefixCompleted(steps, last) && t < |steps|
    ensures var after := ResetSteps(steps, steps[t]);
      && (forall i :: 0 <= i < |steps| ==> (after[i].status.Completed? <==> i <= last && i != t))
      && CompletedSteps(after) == (if t <= last then last else last + 1)
  {
    var after := ResetSteps(steps, steps[t]);
    if t <= last {
      CountPrefixWithHole(after, last + 1, t);
    } else {
      CountPrefix(after, last + 1);
    }
  }

  lemma SameIds(steps: seq<StepRow>, plan: seq<string>)
    requires |steps| == |plan| && forall i :: 0 <= i < |steps| ==> steps[i].id == plan[i]
    ensures IdsOf(steps) == Elements(plan)
  {
    forall id
      ensures id in IdsOf(steps) <==> id in Elements(plan)
    {
      if id in IdsOf(steps) {
        var s :| s in steps && s.id == id;
        var i :| 0 <= i < |steps| && steps[i] == s;
        assert plan[i] == id;
      }
      if id in Elements(plan) {
        var i :| 0 <= i < |plan| && plan[i] == id;
        assert steps[i] in steps;
      }
    }
  }

  lemma ResetPosition(steps: seq<StepRow>, plan: seq<string>, t: nat, c: Checkpoint)
    requires Distinct(plan) && Numbered(steps, plan) && t < |steps| && c.currentStep == t
    ensures PositionAgrees(c, ResetSteps(steps, steps[t]), plan)
  {
    var after := ResetSteps(steps, steps[t]);
    assert after[t].id == plan[t] && after[t].status == Rows.Pending;
    var at := FindStep(after, (s: StepRow) => s.id == plan[c.currentStep]);
    assert at.Some?;
    assert after[at.value].id == plan[at.value];
  }

  lemma RetryOutcome(desk: Desk, plan: seq<string>, place: seq<nat>, r: Request)
    requires WellOrdered(desk, plan, place) && RetryStep(desk, r).result.Ok?
    ensures var c := desk.checkpoint.value; var t := Target(desk.steps, r.stepId, c.currentStep);
      t.Some? && RetryStep(desk, r).desk == Desk(
        Some(c.(status := CheckpointStatus.Paused, cancellationRequested := false, currentStep := t.value,
                lastCompleted := Min(c.lastCompleted, t.value - 1), updatedAt := r.now)),
        Some(Rows.Paused), false, ResetSteps(desk.steps, desk.steps[t.value]),
        ResetStages(desk.stages, desk.stages[place[t.value]].sequence))
  {
    var t := Target(desk.steps, r.stepId, desk.checkpoint.value.currentStep).value;
    hide Target, Refusal, AllStagesAgree, ResetSteps, ResetStages;
    StageSequenceFinds(desk.stages, place[t]);
  }

  /** From agreeing views, the snapshot checks are silent after a retry exactly when the retried step is not an earlier
      step of the completed prefix: it is the last completed one or lies past it. */
  lemma RetryAgreesExactly(desk: Desk, plan: seq<string>, place: seq<nat>, r: Request)
    requires WellOrdered(desk, plan, place) && RetryStep(desk, r).result.Ok?
    ensures var t := Target(desk.steps, r.stepId, desk.checkpoint.value.currentStep);
      t.Some? && (SnapshotAgrees(RetryStep(desk, r).desk, plan) <==> t.value >= desk.checkpoint.value.lastCompleted)
  {
    hide RetryStep, StagesAgree, PositionAgrees, CompletedSteps, ResetSteps, ResetStages, Target, IdsOf;
    RetryOutcome(desk, plan, place, r);
    var c := desk.checkpoint.value;
    var t := Target(desk.steps, r.stepId, c.currentStep).value;
    var after := RetryStep(desk, r).desk;
    ResetPrefix(desk.steps, plan, c.lastCompleted, t);
    StagesStayConsistent(desk.steps, plan, desk.stages, place, t);
    ResetKeepsIds(desk.steps, plan, t);
    ResetPosition(desk.steps, plan, t, after.checkpoint.value);
    assert StatusesAgree(CheckpointStatus.Paused, Rows.Paused);
    assert ProgressAgrees(after.checkpoint.value, after.steps, plan) <==> t >= c.lastCompleted;
  }

  lemma ResetKeepsIds(steps: seq<StepRow>, plan: seq<string>, t: nat)
    requires Numbered(steps, plan) && t < |steps|
    ensures IdsOf(ResetSteps(steps, steps[t])) == Elements(plan)
  {
    SameIds(ResetSteps(steps, steps[t]), plan);
  }

  /** Resetting from a step past the prefix leaves the rows of the prefix alone and makes the step pending. */
  lemma ResetPastPrefix(steps: seq<StepRow>, plan: seq<string>, last: int, t: nat)
    requires Numbered(steps, plan) && PrefixCompleted(steps, last) && last < t < |steps|
    ensures var after := ResetSteps(steps, steps[t]);
      && PrefixCompleted(after, last) && after[t].status == Rows.Pending
      && forall i :: 0 <= i <= last ==> after[i].status == steps[i].status && after[i].startedAt == steps[i].startedAt
  {
    hide CompletedSteps;
    ResetPrefix(steps, plan, last, t);
  }

  /** So a retry that names no step keeps the completed prefix, puts the position past it, and leaves nothing to report. */
  lemma UnnamedRetryKeepsAgreement(desk: Desk, plan: seq<string>, place: seq<nat>, r: Request)
    requires WellOrdered(desk, plan, place) && (r.stepId.None? || r.stepId.value == "") && RetryStep(desk, r).result.Ok?
    ensures var after := RetryStep(desk, r).desk; var c := after.checkpoint.value;
      && SnapshotAgrees(after, plan)
      && c.lastCompleted == desk.checkpoint.value.lastCompleted
      && PrefixCompleted(after.steps, c.lastCompleted)
      && c.lastCompleted < c.currentStep < |after.steps|
      && after.steps[c.currentStep].status == Rows.Pending
      && forall i :: 0 <= i <= c.lastCompleted ==>
           after.steps[i].status == desk.steps[i].status && after.steps[i].startedAt == desk.steps[i].startedAt
  {
    hide SnapshotAgrees, Target, CompletedSteps, StageMajor, StagesOrdered, AllStagesAgree, Refusal, RetryStep, ResetSteps, ResetStages,
         PrefixCompleted, Numbered;
    var last := desk.checkpoint.value.lastCompleted;
    UnnamedTargetIsOpen(desk, plan, place, r);
    RetryOutcome(desk, plan, place, r);
    RetryAgreesExactly(desk, plan, place, r);
    ResetPastPrefix(desk.steps, plan, last, Target(desk.steps, r.stepId, desk.checkpoint.value.currentStep).value);
  }
}
