/** What the stage and step loop never does, on any run and with any outcomes: it starts no step twice, none before what it
    needs, and none behind a stage that has failed. */
module LoopSafety {
  import opened Common
  import opened Engine
  import opened Resume

  ghost predicate UniqueStages(stages: seq<Stage>) {
    forall i, j :: 0 <= i < j < |stages| ==> stages[i].id != stages[j].id
  }

  ghost predicate UniqueIds(run: Run) {
    (forall i, j :: 0 <= i < j < |run.steps| ==> run.steps[i].id != run.steps[j].id) && UniqueStages(run.stages)
  }

  predicate SettledStatus(status: RunStatus) {
    status in {RunStatus.Completed, RunStatus.Failed, RunStatus.Blocked}
  }

  /** A step of the same stage, or one that was completed at the start or has been since. */
  predicate Available(start: Run, s: Step, d: string, before: seq<string>, outcome: string -> StepOutcome) {
    exists t :: t in start.steps && t.id == d
             && (t.stageId == s.stageId || t.status == RunStatus.Completed || (d in before && outcome(d).Succeeds?))
  }

  /** The stage was neither completed nor failed, and none scheduled before it had failed. */
  predicate StageMayRun(start: Run, stageId: string) {
    exists j :: 0 <= j < |StageSchedule(start)| && StageSchedule(start)[j] == stageId && StageOpenAt(start, j)
  }

  predicate StageOpenAt(start: Run, j: nat)
    requires j < |StageSchedule(start)|
  {
    && FindStage(start.stages, StageSchedule(start)[j]).Some?
    && FindStage(start.stages, StageSchedule(start)[j]).value.status !in {RunStatus.Completed, RunStatus.Failed}
    && forall i :: 0 <= i < j ==> !HasFailed(start, StageSchedule(start)[i])
  }

  predicate HasFailed(start: Run, stageId: string) {
    FindStage(start.stages, stageId).Some? && FindStage(start.stages, stageId).value.status == RunStatus.Failed
  }

  predicate Supplied(start: Run, s: Step, before: seq<string>, outcome: string -> StepOutcome) {
    forall d :: d in s.dependsOn ==> Available(start, s, d, before, outcome)
  }

  /** What must hold of a step for the loop to start it once it has started those of `before`. */
  predicate MayStart(start: Run, before: seq<string>, id: string, outcome: string -> StepOutcome) {
    exists s :: s in start.steps && s.id == id && !SettledStatus(s.status) && StageMayRun(start, s.stageId) && Supplied(start, s, before, outcome)
  }

  ghost predicate StartedWell(start: Run, started: seq<string>, outcome: string -> StepOutcome) {
    Distinct(started) && forall k :: 0 <= k < |started| ==> MayStart(start, started[..k], started[k], outcome)
  }

  /** Where the loop goes on, settled steps are as at the start and the started ones are completed. */
  ghost predicate Kept(start: Run, p: Progress, outcome: string -> StepOutcome) {
    && OnlyStatusDiffers(start.steps, p.run.steps)
    && forall i :: 0 <= i < |start.steps| ==>
         && (SettledStatus(start.steps[i].status) ==> p.run.steps[i].status == start.steps[i].status)
         && (start.steps[i].id in p.started ==> p.run.steps[i].status == RunStatus.Completed)
         && (p.run.steps[i].status == RunStatus.Completed ==>
               start.steps[i].status == RunStatus.Completed || (start.steps[i].id in p.started && outcome(start.steps[i].id).Succeeds?))
  }

  lemma OneMoreStarted(start: Run, started: seq<string>, id: string, outcome: string -> StepOutcome)
    requires StartedWell(start, started, outcome) && id !in started && MayStart(start, started, id, outcome)
    ensures StartedWell(start, started + [id], outcome)
  {
    hide MayStart;
    var longer := started + [id];
    forall k | 0 <= k < |longer|
      ensures MayStart(start, longer[..k], longer[k], outcome)
    {
      assert longer[..k] == started[..k];
      assert started[..|started|] == started;
    }
  }

  lemma SuppliedStays(start: Run, s: Step, before: seq<string>, after: seq<string>, outcome: string -> StepOutcome)
    requires Supplied(start, s, before, outcome) && before <= after
    ensures Supplied(start, s, after, outcome)
  {
    forall d | d in s.dependsOn
      ensures Available(start, s, d, after, outcome)
    {
      assert Available(start, s, d, before, outcome);
      assert d in before ==> d in after;
    }
  }

  /** The step an id stands for now, and what it was. */
  lemma Was(start: Run, p: Progress, id: string, outcome: string -> StepOutcome) returns (i: nat)
    requires UniqueIds(start) && Kept(start, p, outcome) && FindStep(p.run.steps, id).Some?
    ensures i < |start.steps| && start.steps[i].id == id && FindStep(p.run.steps, id) == Some(p.run.steps[i])
    ensures forall j :: 0 <= j < |start.steps| && start.steps[j].id == id ==> j == i
  {
    var s :| s in p.run.steps && s.id == id;
    i :| 0 <= i < |p.run.steps| && p.run.steps[i] == s;
    FindsIt(p.run.steps, i);
  }

  lemma CompletingKeeps(start: Run, p: Progress, id: string, i: nat, outcome: string -> StepOutcome)
    requires Kept(start, p, outcome) && i < |start.steps| && start.steps[i].id == id && outcome(id).Succeeds?
    requires !SettledStatus(p.run.steps[i].status) && forall j :: 0 <= j < |start.steps| && start.steps[j].id == id ==> j == i
    ensures Kept(start, p.(run := SetStep(p.run, id, RunStatus.Completed), started := p.started + [id]), outcome)
  {
  }

  /** What one step may do in its stage. */
  lemma OneStep(start: Run, p: Progress, id: string, stageId: string, outcome: string -> StepOutcome)
    requires UniqueIds(start) && p.verdict.Going? && Kept(start, p, outcome) && StartedWell(start, p.started, outcome)
    requires StageMayRun(start, stageId)
    requires forall s :: s in start.steps && s.id == id ==> s.stageId == stageId && Supplied(start, s, p.started, outcome)
    ensures var q := RunStep(p, id, stageId, outcome);
      && StartedWell(start, q.started, outcome) && p.started <= q.started
      && (q.verdict.Going? ==> Kept(start, q, outcome) && q.run.stages == p.run.stages)
  {
    hide Supplied, StageMayRun;
    if FindStep(p.run.steps, id).Some? && !SettledStatus(FindStep(p.run.steps, id).value.status) {
      var i := Was(start, p, id, outcome);
      assert start.steps[i] in start.steps;
      assert id !in p.started;
      assert MayStart(start, p.started, id, outcome);
      OneMoreStarted(start, p.started, id, outcome);
      if outcome(id).Succeeds? {
        CompletingKeeps(start, p, id, i, outcome);
      }
    }
    hide Kept, StartedWell, FindStep, SetStep, SetStage;
  }

  lemma {:induction false} StepsOfStage(start: Run, p: Progress, ids: seq<string>, stageId: string, outcome: string -> StepOutcome)
    requires UniqueIds(start) && p.verdict.Going? && Kept(start, p, outcome) && StartedWell(start, p.started, outcome)
    requires StageMayRun(start, stageId)
    requires forall s :: s in start.steps && s.id in ids ==> s.stageId == stageId && Supplied(start, s, p.started, outcome)
    ensures var q := StepsLoop(p, ids, stageId, outcome);
      && StartedWell(start, q.started, outcome) && p.started <= q.started
      && (q.verdict.Going? ==> Kept(start, q, outcome) && q.run.stages == p.run.stages)
  {
    hide RunStep, Kept, StartedWell, StageMayRun, Supplied, UniqueIds;
    if ids != [] {
      assert ids == Init(ids) + [Last(ids)];
      StepsOfStage(start, p, Init(ids), stageId, outcome);
      var before := StepsLoop(p, Init(ids), stageId, outcome);
      if before.verdict.Going? {
        forall s | s in start.steps && s.id == Last(ids)
          ensures s.stageId == stageId && Supplied(start, s, before.started, outcome)
        {
          SuppliedStays(start, s, p.started, before.started, outcome);
        }
        OneStep(start, before, Last(ids), stageId, outcome);
      }
    }
  }

  // ----- Stages -----

  /** The stages of `earlier` have been passed; the others are as at the start. */
  ghost predicate Passed(start: Run, p: Progress, earlier: seq<string>) {
    && OnlyStageStatusDiffers(start.stages, p.run.stages)
    && (forall i :: 0 <= i < |start.stages| && start.stages[i].id !in earlier ==> p.run.stages[i] == start.stages[i])
    && forall g :: g in earlier ==> !HasFailed(start, g)
  }

  lemma StageAsAtStart(start: Run, p: Progress, earlier: seq<string>, stageId: string)
    requires UniqueIds(start) && Passed(start, p, earlier) && stageId !in earlier
    ensures FindStage(p.run.stages, stageId) == FindStage(start.stages, stageId)
  {
    if g :| g in start.stages && g.id == stageId {
      var i :| 0 <= i < |start.stages| && start.stages[i] == g;
      FindsStage(start.stages, i);
      FindsStage(p.run.stages, i);
    } else {
      forall h | h in p.run.stages
        ensures h.id != stageId
      {
        var i :| 0 <= i < |p.run.stages| && p.run.stages[i] == h;
        assert start.stages[i] in start.stages;
      }
    }
  }

  /** A stage whose dependencies are met finds every step supplied. */
  lemma StageIsSupplied(start: Run, p: Progress, stageId: string, outcome: string -> StepOutcome, s: Step)
    requires UniqueIds(start) && Kept(start, p, outcome) && DependenciesMet(p.run, StageOrder(p.run, stageId))
    requires s in start.steps && s.id in StepIds(StageOrder(p.run, stageId))
    ensures s.stageId == stageId && Supplied(start, s, p.started, outcome)
  {
    var order := StageOrder(p.run, stageId);
    var k :| 0 <= k < |order| && order[k].id == s.id;
    assert order[k] in order;
    var now := order[k];
    var i := StartOf(start, p, now, outcome);
    var j :| 0 <= j < |start.steps| && start.steps[j] == s;
    assert start.steps[i] == s;
    forall d | d in s.dependsOn
      ensures Available(start, s, d, p.started, outcome)
    {
      assert DependencyMet(p.run, order, d);
      if t :| t in order && t.id == d {
        var m := StartOf(start, p, t, outcome);
        assert start.steps[m] in start.steps;
      } else {
        var t :| t in p.run.steps && t.id == d && t.status == RunStatus.Completed;
        var m := StartOf(start, p, t, outcome);
        assert start.steps[m] in start.steps;
      }
    }
  }

  lemma StartOf(start: Run, p: Progress, now: Step, outcome: string -> StepOutcome) returns (i: nat)
    requires Kept(start, p, outcome) && now in p.run.steps
    ensures i < |start.steps| && p.run.steps[i] == now && now == start.steps[i].(status := now.status)
  {
    i :| 0 <= i < |p.run.steps| && p.run.steps[i] == now;
  }

  lemma SetStageKeeps(start: Run, p: Progress, stageId: string, status: RunStatus, outcome: string -> StepOutcome)
    requires Kept(start, p, outcome)
    ensures Kept(start, p.(run := SetStage(p.run, stageId, status)), outcome)
  {
  }

  lemma SetStagePasses(start: Run, p: Progress, earlier: seq<string>, stageId: string, status: RunStatus)
    requires OnlyStageStatusDiffers(start.stages, p.run.stages) && !HasFailed(start, stageId)
    requires forall i :: 0 <= i < |start.stages| && start.stages[i].id !in earlier + [stageId] ==> p.run.stages[i] == start.stages[i]
    requires forall g :: g in earlier ==> !HasFailed(start, g)
    ensures Passed(start, p.(run := SetStage(p.run, stageId, status)), earlier + [stageId])
  {
  }

  lemma PassedOn(start: Run, p: Progress, earlier: seq<string>, stageId: string)
    requires Passed(start, p, earlier) && !HasFailed(start, stageId)
    ensures Passed(start, p, earlier + [stageId])
  {
  }

  /** What one stage may do. */
  lemma OneStage(start: Run, p: Progress, earlier: seq<string>, stageId: string, outcome: string -> StepOutcome)
    requires UniqueIds(start) && p.verdict.Going? && Kept(start, p, outcome) && StartedWell(start, p.started, outcome)
    requires Passed(start, p, earlier) && stageId !in earlier
    requires (&& !HasFailed(start, stageId) && FindStage(start.stages, stageId).Some?
              && FindStage(start.stages, stageId).value.status != RunStatus.Completed) ==> StageMayRun(start, stageId)
    ensures var q := RunStage(p, stageId, outcome);
      StartedWell(start, q.started, outcome) && (q.verdict.Going? ==> Kept(start, q, outcome) && Passed(start, q, earlier + [stageId]))
  {
    StageAsAtStart(start, p, earlier, stageId);
    hide UniqueIds, Kept, StartedWell, Passed, StageMayRun, FindStage, StageOrder, StepsLoop, DependenciesMet, FailDependency, SetStage;
    if !HasFailed(start, stageId) {
      PassedOn(start, p, earlier, stageId);
      SetStageKeeps(start, p, stageId, RunStatus.Completed, outcome);
      StagePassed(start, p, earlier, stageId, RunStatus.Completed);
      var running := p.(run := SetStage(p.run, stageId, RunStatus.Running));
      SetStageKeeps(start, p, stageId, RunStatus.Running, outcome);
      StagePassed(start, p, earlier, stageId, RunStatus.Running);
      SameOrderOnceRunning(p.run, stageId, RunStatus.Running);
      var order := StageOrder(p.run, stageId);
      if FindStage(start.stages, stageId).Some? && FindStage(start.stages, stageId).value.status != RunStatus.Completed
         && order != [] && DependenciesMet(running.run, order) {
        forall s | s in start.steps && s.id in StepIds(order)
          ensures s.stageId == stageId && Supplied(start, s, running.started, outcome)
        {
          StageIsSupplied(start, running, stageId, outcome, s);
        }
        StepsOfStage(start, running, StepIds(order), stageId, outcome);
        var q := StepsLoop(running, StepIds(order), stageId, outcome);
        if q.verdict.Going? {
          SetStageKeeps(start, q, stageId, RunStatus.Completed, outcome);
          SameStagesPassed(start, running, q, earlier + [stageId]);
          StagePassedAgain(start, q, earlier, stageId, RunStatus.Completed);
        }
      }
    }
  }

  lemma StagePassed(start: Run, p: Progress, earlier: seq<string>, stageId: string, status: RunStatus)
    requires Passed(start, p, earlier) && !HasFailed(start, stageId)
    ensures Passed(start, p.(run := SetStage(p.run, stageId, status)), earlier + [stageId])
  {
    hide HasFailed;
    SetStagePasses(start, p, earlier, stageId, status);
  }

  lemma StagePassedAgain(start: Run, p: Progress, earlier: seq<string>, stageId: string, status: RunStatus)
    requires Passed(start, p, earlier + [stageId]) && !HasFailed(start, stageId)
    ensures Passed(start, p.(run := SetStage(p.run, stageId, status)), earlier + [stageId])
  {
    hide HasFailed;
    SetStagePasses(start, p, earlier, stageId, status);
  }

  lemma SameStagesPassed(start: Run, p: Progress, q: Progress, earlier: seq<string>)
    requires Passed(start, p, earlier) && q.run.stages == p.run.stages
    ensures Passed(start, q, earlier)
  {
    hide HasFailed;
  }

  lemma ScheduleUnique(start: Run, k: nat)
    requires UniqueIds(start) && k < |StageSchedule(start)|
    ensures StageSchedule(start)[k] !in StageSchedule(start)[..k]
  {
    SortedStagesUnique(start.stages);
  }

  lemma AppendUnique(stages: seq<Stage>, x: Stage)
    requires UniqueStages(stages) && forall g :: g in stages ==> g.id != x.id
    ensures UniqueStages(stages + [x])
  {
    assert forall i :: 0 <= i < |stages| ==> stages[i] in stages;
  }

  lemma LastIsUnique(stages: seq<Stage>, g: Stage)
    requires UniqueStages(stages) && stages != [] && g in Init(stages)
    ensures g in stages && g.id != Last(stages).id
  {
    var k :| 0 <= k < |Init(stages)| && Init(stages)[k] == g;
    assert stages[k] == g;
  }

  lemma {:induction false} InsertedStageUnique(sorted: seq<Stage>, x: Stage)
    requires UniqueStages(sorted) && forall g :: g in sorted ==> g.id != x.id
    ensures UniqueStages(InsertStage(sorted, x))
  {
    if sorted == [] || Last(sorted).sequence <= x.sequence {
      AppendUnique(sorted, x);
    } else {
      assert sorted == Init(sorted) + [Last(sorted)] && Last(sorted) in sorted;
      forall g | g in Init(sorted)
        ensures g in sorted && g.id != Last(sorted).id
      {
        LastIsUnique(sorted, g);
      }
      InsertedStageUnique(Init(sorted), x);
      AppendUnique(InsertStage(Init(sorted), x), Last(sorted));
    }
  }

  lemma {:induction false} SortedStagesUnique(stages: seq<Stage>)
    requires UniqueStages(stages)
    ensures UniqueStages(SortStages(stages))
  {
    if stages != [] {
      SortedStagesUnique(Init(stages));
      forall g | g in SortStages(Init(stages))
        ensures g.id != Last(stages).id
      {
        LastIsUnique(stages, g);
      }
      hide UniqueStages;
      InsertedStageUnique(SortStages(Init(stages)), Last(stages));
    }
  }

  /** The loop up to stage `k`. */
  lemma {:induction false} StagesUpTo(start: Run, k: nat, outcome: string -> StepOutcome)
    requires UniqueIds(start) && k <= |StageSchedule(start)|
    ensures var q := StagesLoop(Progress(start, [], Going), StageSchedule(start)[..k], outcome);
      && StartedWell(start, q.started, outcome)
      && (q.verdict.Going? ==> Kept(start, q, outcome) && Passed(start, q, StageSchedule(start)[..k]))
  {
    hide UniqueIds, Kept, StartedWell, Passed, FindStage, RunStage, StageSchedule, HasFailed;
    var gs := StageSchedule(start);
    if k == 0 {
      assert gs[..0] == [];
      NothingYet(start, outcome);
    } else {
      assert Init(gs[..k]) == gs[..k - 1] && gs[..k] == gs[..k - 1] + [gs[k - 1]];
      StagesUpTo(start, k - 1, outcome);
      ScheduleUnique(start, k - 1);
      var p := StagesLoop(Progress(start, [], Going), gs[..k - 1], outcome);
      if p.verdict.Going? {
        PassedNotFailed(start, p, gs[..k - 1]);
        OpenStageMayRun(start, k - 1);
        OneStage(start, p, gs[..k - 1], gs[k - 1], outcome);
      }
    }
  }

  lemma NothingYet(start: Run, outcome: string -> StepOutcome)
    ensures var p := Progress(start, [], Going); StartedWell(start, [], outcome) && Kept(start, p, outcome) && Passed(start, p, [])
  {
  }

  lemma PassedNotFailed(start: Run, p: Progress, earlier: seq<string>)
    requires Passed(start, p, earlier)
    ensures forall i :: 0 <= i < |earlier| ==> !HasFailed(start, earlier[i])
  {
    hide HasFailed;
  }

  lemma OpenStageMayRun(start: Run, k: nat)
    requires k < |StageSchedule(start)|
    requires forall i :: 0 <= i < |StageSchedule(start)[..k]| ==> !HasFailed(start, StageSchedule(start)[..k][i])
    ensures (&& !HasFailed(start, StageSchedule(start)[k]) && FindStage(start.stages, StageSchedule(start)[k]).Some?
             && FindStage(start.stages, StageSchedule(start)[k]).value.status != RunStatus.Completed)
            ==> StageMayRun(start, StageSchedule(start)[k])
  {
    var gs := StageSchedule(start);
    hide FindStage;
    if !HasFailed(start, gs[k]) && FindStage(start.stages, gs[k]).Some?
       && FindStage(start.stages, gs[k]).value.status != RunStatus.Completed {
      assert forall i :: 0 <= i < k ==> gs[..k][i] == gs[i];
      assert StageOpenAt(start, k);
    }
  }

  // ----- The order within a stage -----

  /** The loop goes through a stage by the steps' own numbers within it, and by their sequence where they have none. */
  lemma StageGoesByItsNumbers(run: Run, stageId: string, i: nat, j: nat)
    requires i < j < |StageOrder(run, stageId)|
    ensures var order := StageOrder(run, stageId);
      (if order[i].stageSequence != 0 then order[i].stageSequence else order[i].sequence)
      <= (if order[j].stageSequence != 0 then order[j].stageSequence else order[j].sequence)
  {
    SortAscends(StageSteps(run.steps, stageId), OrderKey);
  }

  // ----- What a missing dependency leaves -----

  /** The step needs something that is neither in its stage nor completed. */
  predicate LacksOne(run: Run, stageId: string, s: Step) {
    exists d :: d in s.dependsOn && !DependencyMet(run, StageOrder(run, stageId), d)
  }

  predicate IsFirstLacking(run: Run, stageId: string, k: nat) {
    var order := StageOrder(run, stageId);
    k < |order| && LacksOne(run, stageId, order[k]) && forall j :: 0 <= j < k ==> !LacksOne(run, stageId, order[j])
  }

  lemma {:induction false} FirstLackingFails(run: Run, stageId: string, steps: seq<Step>) returns (k: nat)
    requires exists s :: s in steps && LacksOne(run, stageId, s)
    ensures k < |steps| && LacksOne(run, stageId, steps[k]) && forall j :: 0 <= j < k ==> !LacksOne(run, stageId, steps[j])
    ensures FailDependency(run, stageId, steps) == SetStage(SetStep(run, steps[k].id, RunStatus.Failed), stageId, RunStatus.Failed)
  {
    hide DependencyMet, StageOrder, SetStage, SetStep;
    if LacksOne(run, stageId, steps[0]) {
      k := 0;
    } else {
      assert steps == [steps[0]] + steps[1..];
      k := FirstLackingFails(run, stageId, steps[1..]);
      assert forall j :: 1 <= j < |steps| ==> steps[j] == steps[1..][j - 1];
      k := k + 1;
    }
  }

  /** A stage is refused for want of a dependency exactly when one of its steps lacks one; then nothing of it is started, the
      first such step and the stage have failed, and all else is as it was. */
  lemma MissingDependencyExactly(p: Progress, stageId: string, outcome: string -> StepOutcome)
    requires p.verdict.Going? && FindStage(p.run.stages, stageId).Some?
    requires FindStage(p.run.stages, stageId).value.status !in {RunStatus.Completed, RunStatus.Failed}
    ensures var q := RunStage(p, stageId, outcome); var order := StageOrder(p.run, stageId);
      && (q.verdict.DependencyMissing? <==> exists s :: s in order && LacksOne(p.run, stageId, s))
      && (q.verdict.DependencyMissing? ==>
            && q.started == p.started
            && q.run.stages == SetStage(p.run, stageId, RunStatus.Failed).stages
            && exists k: nat :: IsFirstLacking(p.run, stageId, k) && q.run.steps == SetStep(p.run, order[k].id, RunStatus.Failed).steps)
  {
    var order := StageOrder(p.run, stageId);
    var running := p.(run := SetStage(p.run, stageId, RunStatus.Running));
    SameOrderOnceRunning(p.run, stageId, RunStatus.Running);
    SameWants(p.run, running.run, stageId);
    StageRefuses(p, stageId, outcome);
    hide StageOrder, SetStage, SetStep, FindStage, LacksOne, FailDependency, RunStage, DependenciesMet, IsFirstLacking;
    if exists s :: s in order && LacksOne(running.run, stageId, s) {
      var k := FirstLackingFails(running.run, stageId, order);
      ItIsFirst(running.run, stageId, k);
      MarkTwice(p.run, stageId, order[k].id);
      assert IsFirstLacking(p.run, stageId, k);
    }
  }

  lemma StageRefuses(p: Progress, stageId: string, outcome: string -> StepOutcome)
    requires p.verdict.Going? && FindStage(p.run.stages, stageId).Some?
    requires FindStage(p.run.stages, stageId).value.status !in {RunStatus.Completed, RunStatus.Failed}
    ensures var running := SetStage(p.run, stageId, RunStatus.Running); var order := StageOrder(p.run, stageId);
      if order != [] && !DependenciesMet(running, order)
      then RunStage(p, stageId, outcome) == Progress(FailDependency(running, stageId, order), p.started, DependencyMissing)
      else !RunStage(p, stageId, outcome).verdict.DependencyMissing?
  {
    var running := p.(run := SetStage(p.run, stageId, RunStatus.Running));
    SameOrderOnceRunning(p.run, stageId, RunStatus.Running);
    NoOtherVerdict(running, StepIds(StageOrder(p.run, stageId)), stageId, outcome);
    hide StageOrder, SetStage, SetStep, FindStage, FailDependency, StepsLoop, DependenciesMet;
  }

  lemma ItIsFirst(run: Run, stageId: string, k: nat)
    requires k < |StageOrder(run, stageId)| && LacksOne(run, stageId, StageOrder(run, stageId)[k])
    requires forall j :: 0 <= j < k ==> !LacksOne(run, stageId, StageOrder(run, stageId)[j])
    ensures IsFirstLacking(run, stageId, k)
  {
    hide LacksOne, StageOrder;
  }

  lemma SameWants(run: Run, running: Run, stageId: string)
    requires running == SetStage(run, stageId, RunStatus.Running)
    ensures forall s :: LacksOne(running, stageId, s) <==> LacksOne(run, stageId, s)
    ensures forall k: nat :: IsFirstLacking(running, stageId, k) <==> IsFirstLacking(run, stageId, k)
    ensures DependenciesMet(running, StageOrder(run, stageId)) <==>
            !exists s :: s in StageOrder(run, stageId) && LacksOne(run, stageId, s)
  {
    SameOrderOnceRunning(run, stageId, RunStatus.Running);
    hide StageOrder;
    assert forall stageSteps, d :: DependencyMet(running, stageSteps, d) <==> DependencyMet(run, stageSteps, d);
  }

  lemma MarkTwice(run: Run, stageId: string, id: string)
    ensures var r := SetStage(SetStep(SetStage(run, stageId, RunStatus.Running), id, RunStatus.Failed), stageId, RunStatus.Failed);
      r.steps == SetStep(run, id, RunStatus.Failed).steps && r.stages == SetStage(run, stageId, RunStatus.Failed).stages
  {
  }

  lemma {:induction false} NoOtherVerdict(p: Progress, ids: seq<string>, stageId: string, outcome: string -> StepOutcome)
    requires p.verdict.Going?
    ensures StepsLoop(p, ids, stageId, outcome).verdict in {Going, Paused, StepFailed}
  {
    hide SetStep, SetStage, FindStep;
    if ids != [] {
      NoOtherVerdict(p, Init(ids), stageId, outcome);
    }
  }

  /** On any run, with any outcomes: no step is started twice, and none unless it was open, no stage scheduled before its own
      had failed, and all it needs is in its own stage or completed by then. */
  lemma NothingStartsTooEarly(start: Run, outcome: string -> StepOutcome)
    requires UniqueIds(start)
    ensures StartedWell(start, Continue(start, outcome).started, outcome)
  {
    hide UniqueIds, StartedWell, StagesLoop, StageSchedule;
    var gs := StageSchedule(start);
    assert gs[..|gs|] == gs;
    StagesUpTo(start, |gs|, outcome);
  }
}
