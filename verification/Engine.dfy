/** The stage and step loop of services/executionEngine.js and how a checkpoint is laid over a run before it resumes. */
module Engine {
  import opened Common
  import StateStore

  datatype RunStatus = Pending | Running | Completed | Failed | Blocked | PausedForReview

  datatype Step = Step(
    id: string, stageId: string, sequence: int, stageSequence: int, dependsOn: seq<string>, status: RunStatus)

  datatype Stage = Stage(id: string, sequence: int, status: RunStatus)

  datatype Run = Run(steps: seq<Step>, stages: seq<Stage>, globalState: string, reviewStatus: string)

  // ----- Looking up and setting statuses -----

  function SetStep(run: Run, id: string, status: RunStatus): (r: Run)
    ensures |r.steps| == |run.steps| && r.stages == run.stages
  {
    run.(steps := seq(|run.steps|, i requires 0 <= i < |run.steps| =>
           if run.steps[i].id == id then run.steps[i].(status := status) else run.steps[i]))
  }

  function SetStage(run: Run, id: string, status: RunStatus): (r: Run)
    ensures |r.stages| == |run.stages| && r.steps == run.steps
  {
    run.(stages := seq(|run.stages|, i requires 0 <= i < |run.stages| =>
           if run.stages[i].id == id then run.stages[i].(status := status) else run.stages[i]))
  }

  function FindStep(steps: seq<Step>, id: string): (r: Option<Step>)
    ensures r.Some? ==> r.value in steps && r.value.id == id
    ensures r.None? <==> forall s :: s in steps ==> s.id != id
  {
    if steps == [] then None else if steps[0].id == id then Some(steps[0]) else FindStep(steps[1..], id)
  }

  function FindStage(stages: seq<Stage>, id: string): (r: Option<Stage>)
    ensures r.Some? ==> r.value in stages && r.value.id == id
    ensures r.None? <==> forall s :: s in stages ==> s.id != id
  {
    if stages == [] then None else if stages[0].id == id then Some(stages[0]) else FindStage(stages[1..], id)
  }

  function StageSteps(steps: seq<Step>, stageId: string): (r: seq<Step>)
    ensures forall s :: s in r <==> s in steps && s.stageId == stageId
  {
    if steps == [] then []
    else
      assert steps == Init(steps) + [Last(steps)];
      if Last(steps).stageId == stageId then StageSteps(Init(steps), stageId) + [Last(steps)]
      else StageSteps(Init(steps), stageId)
  }

  // ----- Sorting (stable, as the language's own sort) -----

  function OrderKey(s: Step): int {
    if s.stageSequence != 0 then s.stageSequence else s.sequence
  }

  function Insert(sorted: seq<Step>, x: Step, key: Step -> int): (r: seq<Step>)
    ensures forall s :: s in r <==> s in sorted || s == x
    ensures |r| == |sorted| + 1
  {
    if sorted == [] || key(Last(sorted)) <= key(x) then sorted + [x]
    else
      assert sorted == Init(sorted) + [Last(sorted)];
      Insert(Init(sorted), x, key) + [Last(sorted)]
  }

  function SortBy(steps: seq<Step>, key: Step -> int): (r: seq<Step>)
    ensures forall s :: s in r <==> s in steps
    ensures |r| == |steps|
  {
    if steps == [] then []
    else
      assert steps == Init(steps) + [Last(steps)];
      Insert(SortBy(Init(steps), key), Last(steps), key)
  }

  function InsertStage(sorted: seq<Stage>, x: Stage): (r: seq<Stage>)
    ensures forall s :: s in r <==> s in sorted || s == x
  {
    if sorted == [] || Last(sorted).sequence <= x.sequence then sorted + [x]
    else
      assert sorted == Init(sorted) + [Last(sorted)];
      InsertStage(Init(sorted), x) + [Last(sorted)]
  }

  function SortStages(stages: seq<Stage>): (r: seq<Stage>)
    ensures forall s :: s in r <==> s in stages
  {
    if stages == [] then []
    else
      assert stages == Init(stages) + [Last(stages)];
      InsertStage(SortStages(Init(stages)), Last(stages))
  }

  function BySequence(steps: seq<Step>): (r: seq<Step>)
    ensures forall s :: s in r <==> s in steps
    ensures |r| == |steps|
  {
    SortBy(steps, (s: Step) => s.sequence)
  }

  function StepIds(steps: seq<Step>): (r: seq<string>)
    ensures |r| == |steps| && forall i :: 0 <= i < |r| ==> r[i] == steps[i].id
  {
    seq(|steps|, i requires 0 <= i < |steps| => steps[i].id)
  }

  function StageIds(stages: seq<Stage>): (r: seq<string>)
    ensures |r| == |stages| && forall i :: 0 <= i < |r| ==> r[i] == stages[i].id
  {
    seq(|stages|, i requires 0 <= i < |stages| => stages[i].id)
  }

  // ----- `applyCheckpointToRun` -----

  function MarkSteps(run: Run, sorted: seq<Step>, last: int, n: nat): Run
    requires n <= |sorted|
  {
    if n == 0 then run
    else SetStep(MarkSteps(run, sorted, last, n - 1), sorted[n - 1].id, if n - 1 <= last then Completed else Pending)
  }

  predicate AllCompleted(steps: seq<Step>) {
    forall s :: s in steps ==> s.status == Completed
  }

  function StageMark(run: Run, id: string, active: Option<string>, running: bool): RunStatus {
    if AllCompleted(StageSteps(run.steps, id)) then Completed
    else if running && active == Some(id) then Running
    else Pending
  }

  function MarkStages(run: Run, ids: seq<string>, active: Option<string>, running: bool): Run {
    if ids == [] then run
    else
      var before := MarkStages(run, Init(ids), active, running);
      SetStage(before, Last(ids), StageMark(before, Last(ids), active, running))
  }

  function ActiveStage(sorted: seq<Step>, currentStep: int): Option<string> {
    if 0 <= currentStep < |sorted| && sorted[currentStep].stageId != "" then Some(sorted[currentStep].stageId) else None
  }

  function ApplyCheckpoint(run: Run, c: StateStore.Checkpoint, totalSteps: int): Run {
    var sorted := BySequence(run.steps);
    var marked := MarkSteps(run, sorted, c.lastCompleted, |sorted|);
    var staged := MarkStages(marked, StageIds(run.stages), ActiveStage(sorted, c.currentStep), c.status.Running?);
    if c.status.Completed? || c.lastCompleted + 1 >= totalSteps then staged.(globalState := "idle", reviewStatus := "approved")
    else if c.status.AwaitingReview? then staged.(globalState := "paused", reviewStatus := "pending")
    else staged.(globalState := "paused", reviewStatus := "approved")
  }

  method ApplyCheckpointToRun(run: Run, c: StateStore.Checkpoint, totalSteps: int) returns (r: Run)
    ensures r == ApplyCheckpoint(run, c, totalSteps)
    ensures r.globalState == if c.status.Completed? || c.lastCompleted + 1 >= totalSteps then "idle" else "paused"
    ensures r.reviewStatus == if c.status.AwaitingReview? && c.lastCompleted + 1 < totalSteps then "pending" else "approved"
  {
    var sorted := BySequence(run.steps);
    var active := None;
    if 0 <= c.currentStep < |sorted| && sorted[c.currentStep].stageId != "" {
      active := Some(sorted[c.currentStep].stageId);
    }
    r := run;
    for k := 0 to |sorted|
      invariant r == MarkSteps(run, sorted, c.lastCompleted, k)
    {
      if k <= c.lastCompleted {
        r := SetStep(r, sorted[k].id, Completed);
      } else {
        r := SetStep(r, sorted[k].id, Pending);
      }
    }
    ghost var marked := r;
    var ids := StageIds(run.stages);
    for k := 0 to |ids|
      invariant r == MarkStages(marked, ids[..k], active, c.status.Running?)
    {
      assert Init(ids[..k + 1]) == ids[..k];
      var stageSteps := StageSteps(r.steps, ids[k]);
      if |stageSteps| == 0 || AllCompleted(stageSteps) {
        r := SetStage(r, ids[k], Completed);
      } else if active == Some(ids[k]) && c.status.Running? {
        r := SetStage(r, ids[k], Running);
      } else {
        r := SetStage(r, ids[k], Pending);
      }
    }
    assert ids[..|ids|] == ids;
    if c.status.Completed? || c.lastCompleted + 1 >= totalSteps {
      r := r.(globalState := "idle", reviewStatus := "approved");
    } else if c.status.AwaitingReview? {
      r := r.(globalState := "paused", reviewStatus := "pending");
    } else {
      r := r.(globalState := "paused", reviewStatus := "approved");
    }
  }

  // ----- `continueExecution` -----

  /** What running a step comes to; a pause before the step runs is told apart from one it asks for itself. */
  datatype StepOutcome = Succeeds | Fails | AsksForReview | PausedBeforehand

  datatype Verdict = Going | Paused | StepFailed | StageHadFailed | DependencyMissing

  /** The run so far and the ids of the steps started, in order. */
  datatype Progress = Progress(run: Run, started: seq<string>, verdict: Verdict)

  function RunStep(p: Progress, id: string, stageId: string, outcome: string -> StepOutcome): Progress {
    var found := FindStep(p.run.steps, id);
    if found.None? || found.value.status in {Completed, Failed, Blocked} then p
    else
      match outcome(id)
      case PausedBeforehand =>
        p.(run := SetStage(SetStep(p.run, id, PausedForReview), stageId, PausedForReview), verdict := Paused)
      case Succeeds => p.(run := SetStep(p.run, id, Completed), started := p.started + [id])
      case Fails =>
        Progress(SetStage(SetStep(p.run, id, Failed), stageId, Failed), p.started + [id], StepFailed)
      case AsksForReview =>
        Progress(SetStage(SetStep(p.run, id, PausedForReview), stageId, PausedForReview), p.started + [id], Paused)
  }

  function StepsLoop(p: Progress, ids: seq<string>, stageId: string, outcome: string -> StepOutcome): Progress {
    if ids == [] then p
    else
      var before := StepsLoop(p, Init(ids), stageId, outcome);
      if before.verdict.Going? then RunStep(before, Last(ids), stageId, outcome) else before
  }

  function StageOrder(run: Run, stageId: string): (r: seq<Step>)
    ensures forall s :: s in r <==> s in run.steps && s.stageId == stageId
  {
    SortBy(StageSteps(run.steps, stageId), OrderKey)
  }

  predicate DependencyMet(run: Run, stageSteps: seq<Step>, dependency: string) {
    (exists s :: s in stageSteps && s.id == dependency)
    || exists s :: s in run.steps && s.id == dependency && s.status == Completed
  }

  predicate DependenciesMet(run: Run, stageSteps: seq<Step>) {
    forall s :: s in stageSteps ==> forall d :: d in s.dependsOn ==> DependencyMet(run, stageSteps, d)
  }

  /** The first step with an unmet dependency fails, and its stage with it. */
  function FailDependency(run: Run, stageId: string, stageSteps: seq<Step>): Run {
    if stageSteps == [] then SetStage(run, stageId, Failed)
    else if exists d :: d in stageSteps[0].dependsOn && !DependencyMet(run, StageOrder(run, stageId), d) then
      SetStage(SetStep(run, stageSteps[0].id, Failed), stageId, Failed)
    else FailDependency(run, stageId, stageSteps[1..])
  }

  function RunStage(p: Progress, stageId: string, outcome: string -> StepOutcome): Progress {
    var found := FindStage(p.run.stages, stageId);
    if found.None? || found.value.status == Completed then p
    else if found.value.status == Failed then p.(verdict := StageHadFailed)
    else
      var stageSteps := StageOrder(p.run, stageId);
      if stageSteps == [] then p.(run := SetStage(p.run, stageId, Completed))
      else
        var running := p.(run := SetStage(p.run, stageId, Running));
        if !DependenciesMet(running.run, stageSteps) then
          Progress(FailDependency(running.run, stageId, stageSteps), p.started, DependencyMissing)
        else
          var q := StepsLoop(running, StepIds(stageSteps), stageId, outcome);
          if q.verdict.Going? then q.(run := SetStage(q.run, stageId, Completed)) else q
  }

  function StagesLoop(p: Progress, ids: seq<string>, outcome: string -> StepOutcome): Progress {
    if ids == [] then p
    else
      var before := StagesLoop(p, Init(ids), outcome);
      if before.verdict.Going? then RunStage(before, Last(ids), outcome) else before
  }

  function StageSchedule(run: Run): seq<string> {
    StageIds(SortStages(run.stages))
  }

  function Continue(run: Run, outcome: string -> StepOutcome): Progress {
    StagesLoop(Progress(run, [], Going), StageSchedule(run), outcome)
  }

  lemma {:induction false} StagesLoopStops(p: Progress, ids: seq<string>, k: nat, outcome: string -> StepOutcome)
    requires k <= |ids| && !StagesLoop(p, ids[..k], outcome).verdict.Going?
    ensures StagesLoop(p, ids, outcome) == StagesLoop(p, ids[..k], outcome)
    decreases |ids| - k
  {
    if k < |ids| {
      assert Init(ids[..k + 1]) == ids[..k];
      StagesLoopStops(p, ids, k + 1, outcome);
    } else {
      assert ids[..k] == ids;
    }
  }

  lemma {:induction false} StepsLoopStops(p: Progress, ids: seq<string>, k: nat, stageId: string, outcome: string -> StepOutcome)
    requires k <= |ids| && !StepsLoop(p, ids[..k], stageId, outcome).verdict.Going?
    ensures StepsLoop(p, ids, stageId, outcome) == StepsLoop(p, ids[..k], stageId, outcome)
    decreases |ids| - k
  {
    if k < |ids| {
      assert Init(ids[..k + 1]) == ids[..k];
      StepsLoopStops(p, ids, k + 1, stageId, outcome);
    } else {
      assert ids[..k] == ids;
    }
  }

  method RunStageSteps(p: Progress, ids: seq<string>, stageId: string, outcome: string -> StepOutcome) returns (r: Progress)
    requires p.verdict.Going?
    ensures r == StepsLoop(p, ids, stageId, outcome)
  {
    hide SetStep, SetStage, FindStep;
    r := p;
    for k := 0 to |ids|
      invariant r == StepsLoop(p, ids[..k], stageId, outcome) && r.verdict.Going?
    {
      assert Init(ids[..k + 1]) == ids[..k];
      var current := FindStep(r.run.steps, ids[k]);
      if current.None? || current.value.status in {Completed, Failed, Blocked} {
        continue;
      }
      match outcome(ids[k]) {
        case PausedBeforehand =>
          r := r.(run := SetStage(SetStep(r.run, ids[k], PausedForReview), stageId, PausedForReview), verdict := Paused);
          StepsLoopStops(p, ids, k + 1, stageId, outcome);
          return;
        case Succeeds =>
          r := r.(run := SetStep(r.run, ids[k], Completed), started := r.started + [ids[k]]);
        case Fails =>
          r := Progress(SetStage(SetStep(r.run, ids[k], Failed), stageId, Failed), r.started + [ids[k]], StepFailed);
          StepsLoopStops(p, ids, k + 1, stageId, outcome);
          return;
        case AsksForReview =>
          r := Progress(SetStage(SetStep(r.run, ids[k], PausedForReview), stageId, PausedForReview), r.started + [ids[k]], Paused);
          StepsLoopStops(p, ids, k + 1, stageId, outcome);
          return;
      }
    }
    assert ids[..|ids|] == ids;
  }

  method ContinueExecution(run: Run, outcome: string -> StepOutcome) returns (r: Progress)
    ensures r == Continue(run, outcome)
  {
    hide SetStep, SetStage, FindStage, StageOrder, StepsLoop, DependenciesMet, FailDependency;
    var ids := StageSchedule(run);
    r := Progress(run, [], Going);
    for k := 0 to |ids|
      invariant r == StagesLoop(Progress(run, [], Going), ids[..k], outcome) && r.verdict.Going?
    {
      assert Init(ids[..k + 1]) == ids[..k];
      ghost var before := r;
      var stage := FindStage(r.run.stages, ids[k]);
      if stage.None? || stage.value.status == Completed {
        continue;
      }
      if stage.value.status == Failed {
        r := r.(verdict := StageHadFailed);
        StagesLoopStops(Progress(run, [], Going), ids, k + 1, outcome);
        return;
      }
      var stageSteps := StageOrder(r.run, ids[k]);
      if |stageSteps| == 0 {
        r := r.(run := SetStage(r.run, ids[k], Completed));
        continue;
      }
      r := r.(run := SetStage(r.run, ids[k], Running));
      if !DependenciesMet(r.run, stageSteps) {
        r := Progress(FailDependency(r.run, ids[k], stageSteps), r.started, DependencyMissing);
        StagesLoopStops(Progress(run, [], Going), ids, k + 1, outcome);
        return;
      }
      r := RunStageSteps(r, StepIds(stageSteps), ids[k], outcome);
      if !r.verdict.Going? {
        StagesLoopStops(Progress(run, [], Going), ids, k + 1, outcome);
        return;
      }
      r := r.(run := SetStage(r.run, ids[k], Completed));
      assert r == RunStage(before, ids[k], outcome);
    }
    assert ids[..|ids|] == ids;
  }
}
