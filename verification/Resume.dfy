/** Laying a checkpoint over a run and continuing it covers exactly the remaining steps. */
module Resume {
  import opened Common
  import StateStore
  import opened Engine

  // ----- Sorting -----

  function Count(steps: seq<Step>, which: Step -> bool): nat {
    if steps == [] then 0
    else
      var here := if which(Last(steps)) then 1 else 0;
      Count(Init(steps), which) + here
  }

  lemma {:induction false} CountSplits(a: seq<Step>, b: seq<Step>, which: Step -> bool)
    ensures Count(a + b, which) == Count(a, which) + Count(b, which)
  {
    if b == [] {
      assert a + b == a;
    } else {
      CountSplits(a, Init(b), which);
      assert Init(a + b) == a + Init(b);
    }
  }

  lemma {:induction false} InsertCounts(sorted: seq<Step>, x: Step, key: Step -> int, which: Step -> bool)
    ensures Count(Insert(sorted, x, key), which) == Count(sorted, which) + Count([x], which)
  {
    if sorted == [] || key(Last(sorted)) <= key(x) {
      CountSplits(sorted, [x], which);
    } else {
      InsertCounts(Init(sorted), x, key, which);
      assert Init(Insert(sorted, x, key)) == Insert(Init(sorted), x, key);
    }
  }

  lemma {:induction false} SortCounts(steps: seq<Step>, key: Step -> int, which: Step -> bool)
    ensures Count(SortBy(steps, key), which) == Count(steps, which)
  {
    if steps != [] {
      SortCounts(Init(steps), key, which);
      InsertCounts(SortBy(Init(steps), key), Last(steps), key, which);
      assert Init([Last(steps)]) == [];
    }
  }

  ghost predicate AscendingBy(steps: seq<Step>, key: Step -> int) {
    forall i, j :: 0 <= i < j < |steps| ==> key(steps[i]) <= key(steps[j])
  }

  lemma {:induction false} InsertAscends(sorted: seq<Step>, x: Step, key: Step -> int)
    requires AscendingBy(sorted, key)
    ensures AscendingBy(Insert(sorted, x, key), key)
  {
    if sorted == [] || key(Last(sorted)) <= key(x) {
    } else {
      InsertAscends(Init(sorted), x, key);
      var r := Insert(Init(sorted), x, key);
      forall i | 0 <= i < |r|
        ensures key(r[i]) <= key(Last(sorted))
      {
        assert r[i] in r;
        if r[i] in Init(sorted) {
          var k :| 0 <= k < |Init(sorted)| && Init(sorted)[k] == r[i];
        }
      }
    }
  }

  lemma {:induction false} SortAscends(steps: seq<Step>, key: Step -> int)
    ensures AscendingBy(SortBy(steps, key), key)
  {
    if steps != [] {
      SortAscends(Init(steps), key);
      InsertAscends(SortBy(Init(steps), key), Last(steps), key);
    }
  }

  ghost predicate DistinctKeys(steps: seq<Step>, key: Step -> int) {
    forall i, j :: 0 <= i < j < |steps| ==> key(steps[i]) != key(steps[j])
  }

  lemma {:induction false} CountTwo(steps: seq<Step>, which: Step -> bool, i: nat, j: nat)
    requires i < j < |steps| && which(steps[i]) && which(steps[j])
    ensures Count(steps, which) >= 2
  {
    if j < |steps| - 1 {
      CountTwo(Init(steps), which, i, j);
    } else {
      CountOne(Init(steps), which, i);
    }
  }

  lemma {:induction false} CountOne(steps: seq<Step>, which: Step -> bool, i: nat)
    requires i < |steps| && which(steps[i])
    ensures Count(steps, which) >= 1
  {
    if i < |steps| - 1 {
      CountOne(Init(steps), which, i);
    }
  }

  lemma {:induction false} CountNone(steps: seq<Step>, which: Step -> bool)
    requires forall i :: 0 <= i < |steps| ==> !which(steps[i])
    ensures Count(steps, which) == 0
  {
    if steps != [] {
      CountNone(Init(steps), which);
    }
  }

  lemma {:induction false} CountAtMostOne(steps: seq<Step>, key: Step -> int, x: int)
    requires DistinctKeys(steps, key)
    ensures Count(steps, (s: Step) => key(s) == x) <= 1
  {
    if steps != [] {
      if key(Last(steps)) == x {
        CountNone(Init(steps), (s: Step) => key(s) == x);
      } else {
        CountAtMostOne(Init(steps), key, x);
      }
    }
  }

  /** Sorting by a key without repetitions gives a strictly increasing list. */
  lemma SortIsStrict(steps: seq<Step>, key: Step -> int)
    requires DistinctKeys(steps, key)
    ensures forall i, j :: 0 <= i < j < |steps| ==> key(SortBy(steps, key)[i]) < key(SortBy(steps, key)[j])
  {
    var sorted := SortBy(steps, key);
    SortAscends(steps, key);
    forall i, j | 0 <= i < j < |steps|
      ensures key(sorted[i]) < key(sorted[j])
    {
      var x := key(sorted[i]);
      if key(sorted[j]) == x {
        CountAtMostOne(steps, key, x);
        SortCounts(steps, key, (s: Step) => key(s) == x);
        CountTwo(sorted, (s: Step) => key(s) == x, i, j);
        assert false;
      }
    }
  }

  /** How many steps come before a sequence number. */
  function Rank(steps: seq<Step>, sequence: int): nat {
    Count(steps, (s: Step) => s.sequence < sequence)
  }

  lemma {:induction false} CountPrefix(steps: seq<Step>, which: Step -> bool, k: nat)
    requires k <= |steps| && forall i :: 0 <= i < |steps| ==> (which(steps[i]) <==> i < k)
    ensures Count(steps, which) == k
  {
    if steps != [] {
      CountPrefix(Init(steps), which, if k == |steps| then k - 1 else k);
    }
  }

  function Sequence(s: Step): int {
    s.sequence
  }

  lemma SameKeySameDistinct(steps: seq<Step>, key: Step -> int)
    requires DistinctKeys(steps, Sequence) && forall s: Step :: key(s) == s.sequence
    ensures DistinctKeys(steps, key)
  {
  }

  lemma BySequenceIncreases(steps: seq<Step>)
    requires DistinctKeys(steps, Sequence)
    ensures forall i, j :: 0 <= i < j < |steps| ==> BySequence(steps)[i].sequence < BySequence(steps)[j].sequence
  {
    var key := (s: Step) => s.sequence;
    SameKeySameDistinct(steps, key);
    SortIsStrict(steps, key);
    assert BySequence(steps) == SortBy(steps, key);
    hide SortBy, DistinctKeys;
  }

  lemma PositionIsRank(steps: seq<Step>, k: nat)
    requires DistinctKeys(steps, Sequence) && k < |steps|
    ensures Rank(steps, BySequence(steps)[k].sequence) == k
    ensures forall i, j :: 0 <= i < j < |steps| ==> BySequence(steps)[i].sequence < BySequence(steps)[j].sequence
  {
    BySequenceIncreases(steps);
    hide SortBy, DistinctKeys, Count;
    var key := (s: Step) => s.sequence;
    var sorted := BySequence(steps);
    assert sorted == SortBy(steps, key);
    var x := sorted[k].sequence;
    var below := (s: Step) => s.sequence < x;
    SortCounts(steps, key, below);
    CountPrefix(sorted, below, k);
  }

  // ----- Laying the checkpoint over the run -----

  ghost predicate DistinctSteps(steps: seq<Step>) {
    DistinctKeys(steps, Sequence) && forall i, j :: 0 <= i < j < |steps| ==> steps[i].id != steps[j].id
  }

  predicate OnlyStatusDiffers(a: seq<Step>, b: seq<Step>) {
    |a| == |b| && forall i :: 0 <= i < |a| ==> b[i] == a[i].(status := b[i].status)
  }

  lemma {:induction false} MarkedSteps(run: Run, sorted: seq<Step>, last: int, n: nat, i: nat)
    requires n <= |sorted| && i < |run.steps|
    requires forall j, k :: 0 <= j < k < |sorted| ==> sorted[j].id != sorted[k].id
    ensures var r := MarkSteps(run, sorted, last, n);
      && r.stages == run.stages && OnlyStatusDiffers(run.steps, r.steps)
      && forall k :: 0 <= k < n && sorted[k].id == run.steps[i].id ==>
           r.steps[i].status == if k <= last then RunStatus.Completed else RunStatus.Pending
  {
    if n > 0 {
      MarkedSteps(run, sorted, last, n - 1, i);
    }
  }

  lemma SortedIdsDiffer(steps: seq<Step>, j: nat, k: nat)
    requires DistinctSteps(steps) && j < k < |steps|
    ensures BySequence(steps)[j].id != BySequence(steps)[k].id
  {
    var sorted := BySequence(steps);
    PositionIsRank(steps, j);
    assert sorted[j] in sorted && sorted[k] in sorted;
    var a :| 0 <= a < |steps| && steps[a] == sorted[j];
    var b :| 0 <= b < |steps| && steps[b] == sorted[k];
    assert sorted[j].sequence < sorted[k].sequence;
  }

  lemma SortedPosition(steps: seq<Step>, i: nat) returns (k: nat)
    requires DistinctSteps(steps) && i < |steps|
    ensures k < |steps| && BySequence(steps)[k] == steps[i] && Rank(steps, steps[i].sequence) == k
  {
    assert steps[i] in BySequence(steps);
    k :| 0 <= k < |steps| && BySequence(steps)[k] == steps[i];
    PositionIsRank(steps, k);
  }

  /** After a checkpoint is applied exactly the first `lastCompleted + 1` steps by sequence are completed. */
  lemma AppliedSteps(run: Run, c: StateStore.Checkpoint, totalSteps: int, i: nat)
    requires DistinctSteps(run.steps) && i < |run.steps|
    ensures var r := ApplyCheckpoint(run, c, totalSteps);
      && OnlyStatusDiffers(run.steps, r.steps)
      && r.steps[i].status == if Rank(run.steps, run.steps[i].sequence) <= c.lastCompleted then RunStatus.Completed else RunStatus.Pending
  {
    var steps, sorted := run.steps, BySequence(run.steps);
    forall j, k | 0 <= j < k < |sorted|
      ensures sorted[j].id != sorted[k].id
    {
      SortedIdsDiffer(steps, j, k);
    }
    MarkedSteps(run, sorted, c.lastCompleted, |sorted|, i);
    var k := SortedPosition(steps, i);
    StagesLeaveSteps(MarkSteps(run, sorted, c.lastCompleted, |sorted|), StageIds(run.stages),
                     ActiveStage(sorted, c.currentStep), c.status.Running?);
    hide Rank, MarkSteps, MarkStages, DistinctSteps, BySequence;
  }

  lemma {:induction false} StagesLeaveSteps(run: Run, ids: seq<string>, active: Option<string>, running: bool)
    ensures MarkStages(run, ids, active, running).steps == run.steps
    ensures |MarkStages(run, ids, active, running).stages| == |run.stages|
  {
    if ids != [] {
      StagesLeaveSteps(run, Init(ids), active, running);
    }
  }

  ghost predicate DistinctStages(stages: seq<Stage>) {
    forall i, j :: 0 <= i < j < |stages| ==> stages[i].id != stages[j].id && stages[i].sequence != stages[j].sequence
  }

  predicate OnlyStageStatusDiffers(a: seq<Stage>, b: seq<Stage>) {
    |a| == |b| && forall i :: 0 <= i < |a| ==> b[i] == a[i].(status := b[i].status)
  }

  lemma {:induction false} MarkedStages(run: Run, ids: seq<string>, active: Option<string>, running: bool, a: nat)
    requires a < |run.stages|
    ensures var r := MarkStages(run, ids, active, running);
      && OnlyStageStatusDiffers(run.stages, r.stages)
      && (run.stages[a].id in ids ==> r.stages[a].status == StageMark(run, run.stages[a].id, active, running))
  {
    if ids != [] {
      assert ids == Init(ids) + [Last(ids)];
      MarkedStages(run, Init(ids), active, running, a);
      StagesLeaveSteps(run, Init(ids), active, running);
    }
  }

  /** A stage is completed exactly when all its steps are; otherwise it waits, or runs if the interrupted step is in it. */
  lemma AppliedStages(run: Run, c: StateStore.Checkpoint, totalSteps: int, a: nat)
    requires a < |run.stages|
    ensures var r := ApplyCheckpoint(run, c, totalSteps);
      && OnlyStageStatusDiffers(run.stages, r.stages)
      && (r.stages[a].status == RunStatus.Completed <==>
            forall s :: s in r.steps && s.stageId == run.stages[a].id ==> s.status == RunStatus.Completed)
      && (r.stages[a].status != RunStatus.Completed ==>
            r.stages[a].status == RunStatus.Pending || (r.stages[a].status == RunStatus.Running && c.status.Running?))
  {
    hide MarkSteps, MarkStages, ActiveStage, BySequence;
    var sorted := BySequence(run.steps);
    var marked := MarkSteps(run, sorted, c.lastCompleted, |sorted|);
    var active := ActiveStage(sorted, c.currentStep);
    MarksLeaveStages(run, sorted, c.lastCompleted, |sorted|);
    assert StageIds(run.stages)[a] == run.stages[a].id;
    MarkedStages(marked, StageIds(run.stages), active, c.status.Running?, a);
    StagesLeaveSteps(marked, StageIds(run.stages), active, c.status.Running?);
  }

  lemma AppliedStageMark(run: Run, c: StateStore.Checkpoint, totalSteps: int, a: nat)
    requires a < |run.stages|
    ensures var r := ApplyCheckpoint(run, c, totalSteps);
      OnlyStageStatusDiffers(run.stages, r.stages) &&
      (r.stages[a].status == Running <==>
        && !(forall s :: s in r.steps && s.stageId == run.stages[a].id ==> s.status == RunStatus.Completed)
        && c.status.Running? && ActiveStage(BySequence(run.steps), c.currentStep) == Some(run.stages[a].id))
  {
    hide MarkSteps, MarkStages, ActiveStage, BySequence;
    var sorted := BySequence(run.steps);
    var marked := MarkSteps(run, sorted, c.lastCompleted, |sorted|);
    var active := ActiveStage(sorted, c.currentStep);
    MarksLeaveStages(run, sorted, c.lastCompleted, |sorted|);
    assert StageIds(run.stages)[a] == run.stages[a].id;
    MarkedStages(marked, StageIds(run.stages), active, c.status.Running?, a);
    StagesLeaveSteps(marked, StageIds(run.stages), active, c.status.Running?);
  }

  /** The stage that is shown running is the one with the step at the checkpoint's position, while it is interrupted there. */
  lemma RunningStageExactly(run: Run, c: StateStore.Checkpoint, totalSteps: int, a: nat)
    requires DistinctSteps(run.steps) && a < |run.stages|
    ensures var r := ApplyCheckpoint(run, c, totalSteps); var g := run.stages[a];
      OnlyStageStatusDiffers(run.stages, r.stages) &&
      (r.stages[a].status == Running <==>
        && (exists s :: s in r.steps && s.stageId == g.id && s.status != RunStatus.Completed)
        && c.status.Running? && g.id != ""
        && exists s :: s in run.steps && s.stageId == g.id && Rank(run.steps, s.sequence) == c.currentStep)
  {
    AppliedStageMark(run, c, totalSteps, a);
    ActiveIsRanked(run.steps, c.currentStep, run.stages[a].id);
    hide ApplyCheckpoint, Rank, DistinctSteps, ActiveStage, BySequence;
  }

  lemma ActiveIsRanked(steps: seq<Step>, position: int, stageId: string)
    requires DistinctSteps(steps)
    ensures ActiveStage(BySequence(steps), position) == Some(stageId) <==>
      stageId != "" && exists s :: s in steps && s.stageId == stageId && Rank(steps, s.sequence) == position
  {
    hide Rank, BySequence;
    var sorted := BySequence(steps);
    if ActiveStage(sorted, position) == Some(stageId) {
      PositionIsRank(steps, position);
      assert sorted[position] in steps;
    }
    if s :| s in steps && s.stageId == stageId && Rank(steps, s.sequence) == position {
      var i :| 0 <= i < |steps| && steps[i] == s;
      var k := SortedPosition(steps, i);
      assert sorted[k] == s && k == position;
    }
  }

  lemma {:induction false} MarksLeaveStages(run: Run, sorted: seq<Step>, last: int, n: nat)
    requires n <= |sorted|
    ensures MarkSteps(run, sorted, last, n).stages == run.stages
  {
    if n > 0 {
      MarksLeaveStages(run, sorted, last, n - 1);
    }
  }

  // ----- Continuing -----

  function Strip(s: Step): Step {
    s.(status := RunStatus.Pending)
  }

  function Outline(steps: seq<Step>): (r: seq<Step>)
    ensures |r| == |steps|
  {
    seq(|steps|, i requires 0 <= i < |steps| => Strip(steps[i]))
  }

  lemma {:induction false} OutlineOfStage(steps: seq<Step>, stageId: string)
    ensures Outline(StageSteps(steps, stageId)) == StageSteps(Outline(steps), stageId)
  {
    if steps != [] {
      OutlineOfStage(Init(steps), stageId);
      assert Init(Outline(steps)) == Outline(Init(steps));
    }
  }

  lemma {:induction false} OutlineOfInsert(sorted: seq<Step>, x: Step)
    ensures Outline(Insert(sorted, x, OrderKey)) == Insert(Outline(sorted), Strip(x), OrderKey)
  {
    if sorted == [] || OrderKey(Last(sorted)) <= OrderKey(x) {
    } else {
      OutlineOfInsert(Init(sorted), x);
      assert Init(Outline(sorted)) == Outline(Init(sorted));
    }
  }

  lemma {:induction false} OutlineOfSort(steps: seq<Step>)
    ensures Outline(SortBy(steps, OrderKey)) == SortBy(Outline(steps), OrderKey)
  {
    hide Insert;
    if steps != [] {
      OutlineOfSort(Init(steps));
      OutlineOfInsert(SortBy(Init(steps), OrderKey), Last(steps));
      assert Init(Outline(steps)) == Outline(Init(steps));
    }
  }

  /** The order of a stage's steps does not depend on statuses. */
  function Order(steps: seq<Step>, stageId: string): seq<string> {
    StepIds(SortBy(StageSteps(Outline(steps), stageId), OrderKey))
  }

  lemma OrderOfStage(run: Run, steps: seq<Step>, stageId: string)
    requires Outline(run.steps) == Outline(steps)
    ensures StepIds(StageOrder(run, stageId)) == Order(steps, stageId)
  {
    OutlineOfStage(run.steps, stageId);
    OutlineOfSort(StageSteps(run.steps, stageId));
    var order := StageOrder(run, stageId);
    assert StepIds(order) == StepIds(Outline(order));
  }

  function PendingOf(steps: seq<Step>, ids: seq<string>): (r: seq<string>)
    ensures forall id :: id in r <==> id in ids && FindStep(steps, id).Some? && FindStep(steps, id).value.status == RunStatus.Pending
  {
    if ids == [] then []
    else
      assert ids == Init(ids) + [Last(ids)];
      var found := FindStep(steps, Last(ids));
      if found.Some? && found.value.status == RunStatus.Pending then PendingOf(steps, Init(ids)) + [Last(ids)]
      else PendingOf(steps, Init(ids))
  }

  lemma PendingOfAppend(steps: seq<Step>, ids: seq<string>, id: string)
    ensures PendingOf(steps, ids + [id])
         == if FindStep(steps, id).Some? && FindStep(steps, id).value.status == RunStatus.Pending then PendingOf(steps, ids) + [id]
            else PendingOf(steps, ids)
  {
    assert Init(ids + [id]) == ids;
  }

  lemma PendingOfNone(steps: seq<Step>)
    ensures PendingOf(steps, []) == []
  {
  }

  lemma {:induction false} PendingOfSplits(steps: seq<Step>, a: seq<string>, b: seq<string>)
    ensures PendingOf(steps, a + b) == PendingOf(steps, a) + PendingOf(steps, b)
  {
    hide FindStep, PendingOf;
    if b == [] {
      PendingOfNone(steps);
      assert a + b == a && PendingOf(steps, a) + [] == PendingOf(steps, a);
    } else {
      PendingOfSplits(steps, a, Init(b));
      assert a + b == (a + Init(b)) + [Last(b)] && b == Init(b) + [Last(b)];
      PendingOfAppend(steps, a + Init(b), Last(b));
      PendingOfAppend(steps, Init(b), Last(b));
    }
  }

  /** The run differs from the start only in that the steps of `done` are completed. */
  ghost predicate DoneSoFar(start: seq<Step>, now: seq<Step>, done: set<string>) {
    && OnlyStatusDiffers(start, now)
    && forall i :: 0 <= i < |start| ==>
         now[i].status == if start[i].id in done then RunStatus.Completed else start[i].status
  }

  ghost predicate PendingOrCompleted(steps: seq<Step>) {
    forall i :: 0 <= i < |steps| ==> steps[i].status == RunStatus.Pending || steps[i].status == RunStatus.Completed
  }

  lemma {:induction false} FindsIt(steps: seq<Step>, i: nat)
    requires i < |steps| && forall j, k :: 0 <= j < k < |steps| ==> steps[j].id != steps[k].id
    ensures FindStep(steps, steps[i].id) == Some(steps[i])
  {
    if i > 0 {
      assert steps[1..][i - 1] == steps[i];
      FindsIt(steps[1..], i - 1);
    }
  }

  lemma FoundStatus(start: seq<Step>, now: seq<Step>, done: set<string>, id: string)
    requires DistinctSteps(start) && DoneSoFar(start, now, done) && FindStep(start, id).Some?
    ensures FindStep(now, id).Some?
    ensures FindStep(now, id).value.status == if id in done then RunStatus.Completed else FindStep(start, id).value.status
  {
    var i :| 0 <= i < |start| && start[i].id == id;
    FindsIt(start, i);
    FindsIt(now, i);
  }

  lemma CompletingMarksDone(start: seq<Step>, run: Run, done: set<string>, id: string)
    requires DoneSoFar(start, run.steps, done)
    ensures DoneSoFar(start, SetStep(run, id, RunStatus.Completed).steps, done + {id})
  {
  }

  lemma CompletedCountsAsDone(start: seq<Step>, now: seq<Step>, done: set<string>, id: string)
    requires DistinctSteps(start) && DoneSoFar(start, now, done)
    requires FindStep(start, id).Some? && FindStep(start, id).value.status == RunStatus.Completed
    ensures DoneSoFar(start, now, done + {id})
  {
    forall i | 0 <= i < |start| && start[i].id == id
      ensures start[i].status == RunStatus.Completed
    {
      FindsIt(start, i);
    }
  }

  lemma PendingOfOne(steps: seq<Step>, id: string)
    requires FindStep(steps, id).Some?
    ensures PendingOf(steps, [id]) == if FindStep(steps, id).value.status == RunStatus.Pending then [id] else []
  {
    assert Init([id]) == [];
  }

  lemma FoundIsSettled(steps: seq<Step>, id: string)
    requires PendingOrCompleted(steps) && FindStep(steps, id).Some?
    ensures FindStep(steps, id).value.status in {RunStatus.Pending, RunStatus.Completed}
  {
  }

  /** The step is not pending, or succeeds when it runs. */
  predicate Smooth(start: seq<Step>, id: string, outcome: string -> StepOutcome) {
    FindStep(start, id).Some? && FindStep(start, id).value.status == RunStatus.Pending ==> outcome(id).Succeeds?
  }

  /** One step that succeeds when it runs. */
  lemma SuccessfulStep(p: Progress, id: string, stageId: string, outcome: string -> StepOutcome, start: seq<Step>, done: set<string>)
    requires DistinctSteps(start) && PendingOrCompleted(start) && DoneSoFar(start, p.run.steps, done)
    requires p.verdict.Going? && Smooth(start, id, outcome) && FindStep(start, id).Some? && id !in done
    ensures var q := RunStep(p, id, stageId, outcome);
      && q.verdict.Going? && q.run.stages == p.run.stages
      && DoneSoFar(start, q.run.steps, done + {id})
      && q.started == p.started + PendingOf(start, [id])
  {
    FoundStatus(start, p.run.steps, done, id);
    FoundIsSettled(start, id);
    PendingOfOne(start, id);
    if FindStep(start, id).value.status == RunStatus.Pending {
      CompletingMarksDone(start, p.run, done, id);
    } else {
      CompletedCountsAsDone(start, p.run.steps, done, id);
    }
    SuccessRuns(p, id, stageId, outcome);
    hide DoneSoFar, DistinctSteps, PendingOrCompleted, FindStep, PendingOf, SetStep, RunStep;
    assert p.started + [] == p.started;
  }

  lemma SuccessRuns(p: Progress, id: string, stageId: string, outcome: string -> StepOutcome)
    requires FindStep(p.run.steps, id).Some?
    ensures FindStep(p.run.steps, id).value.status == RunStatus.Completed ==> RunStep(p, id, stageId, outcome) == p
    ensures FindStep(p.run.steps, id).value.status == RunStatus.Pending && outcome(id).Succeeds? ==>
      RunStep(p, id, stageId, outcome) == p.(run := SetStep(p.run, id, RunStatus.Completed), started := p.started + [id])
  {
    hide FindStep, SetStep;
  }

  lemma {:induction false} SuccessfulSteps(p: Progress, ids: seq<string>, stageId: string, outcome: string -> StepOutcome,
                                           start: seq<Step>, done: set<string>)
    requires DistinctSteps(start) && PendingOrCompleted(start) && DoneSoFar(start, p.run.steps, done)
    requires p.verdict.Going? && Distinct(ids)
    requires forall id :: id in ids ==> Smooth(start, id, outcome) && FindStep(start, id).Some? && id !in done
    ensures var q := StepsLoop(p, ids, stageId, outcome);
      && q.verdict.Going? && q.run.stages == p.run.stages
      && DoneSoFar(start, q.run.steps, done + Elements(ids))
      && q.started == p.started + PendingOf(start, ids)
  {
    hide RunStep, Smooth, DoneSoFar, DistinctSteps, PendingOrCompleted;
    if ids == [] {
      assert done + Elements(ids) == done;
    } else {
      assert ids == Init(ids) + [Last(ids)];
      SuccessfulSteps(p, Init(ids), stageId, outcome, start, done);
      SuccessfulStep(StepsLoop(p, Init(ids), stageId, outcome), Last(ids), stageId, outcome, start, done + Elements(Init(ids)));
      assert done + Elements(Init(ids)) + {Last(ids)} == done + Elements(ids);
      PendingOfSplits(start, Init(ids), [Last(ids)]);
    }
  }

  // ----- Whole stages -----

  predicate InOrder(s: Step, t: Step, stages: seq<Stage>) {
    exists a, b :: a in stages && b in stages && a.id == s.stageId && b.id == t.stageId && a.sequence < b.sequence
  }

  /** Ids and sequences are unique, every step has a stage, steps come stage by stage, a stage's own order agrees with
      the sequence, and a step depends only on steps of its own or an earlier stage. */
  ghost predicate StageMajor(run: Run) {
    && DistinctSteps(run.steps) && DistinctStages(run.stages)
    && (forall s :: s in run.steps ==> HasItsStage(s, run.stages))
    && (forall s, t :: s in run.steps && t in run.steps && InOrder(s, t, run.stages) ==> s.sequence < t.sequence)
    && (forall s, t :: s in run.steps && t in run.steps && s.stageId == t.stageId && s.sequence < t.sequence ==>
          OrderKey(s) < OrderKey(t))
    && forall s, d :: s in run.steps && d in s.dependsOn ==> DependencyPlaced(run, s, d)
  }

  predicate HasItsStage(s: Step, stages: seq<Stage>) {
    exists g :: g in stages && g.id == s.stageId
  }

  predicate DependencyPlaced(run: Run, s: Step, d: string) {
    exists t :: t in run.steps && t.id == d && (t.stageId == s.stageId || InOrder(t, s, run.stages))
  }

  /** No stage has failed, and a stage counts as completed only if its steps are. */
  ghost predicate StagesReady(run: Run) {
    forall g :: g in run.stages ==>
      g.status in {RunStatus.Pending, RunStatus.Running, RunStatus.Completed}
      && (g.status == RunStatus.Completed ==> forall s :: s in run.steps && s.stageId == g.id ==> s.status == RunStatus.Completed)
  }

  /** The ids of all steps, stage by stage. */
  function Schedule(steps: seq<Step>, stageIds: seq<string>): seq<string> {
    if stageIds == [] then [] else Schedule(steps, Init(stageIds)) + Order(steps, Last(stageIds))
  }

  ghost predicate StagesDoneSoFar(start: seq<Stage>, now: seq<Stage>, done: seq<string>) {
    && OnlyStageStatusDiffers(start, now)
    && forall i :: 0 <= i < |start| ==>
         now[i].status == if start[i].id in done then RunStatus.Completed else start[i].status
  }

  lemma OrderHas(steps: seq<Step>, stageId: string, s: Step)
    requires s in steps && s.stageId == stageId
    ensures s.id in Order(steps, stageId)
  {
    var outline, sorted := Outline(steps), SortBy(StageSteps(Outline(steps), stageId), OrderKey);
    var i :| 0 <= i < |steps| && steps[i] == s;
    assert outline[i] in outline;
    assert outline[i] in sorted;
    var k :| 0 <= k < |sorted| && sorted[k] == outline[i];
    assert Order(steps, stageId)[k] == s.id;
  }

  lemma OrderOnly(steps: seq<Step>, stageId: string, id: string) returns (s: Step)
    requires id in Order(steps, stageId)
    ensures s in steps && s.id == id && s.stageId == stageId
  {
    var sorted, order := SortBy(StageSteps(Outline(steps), stageId), OrderKey), Order(steps, stageId);
    var k :| 0 <= k < |order| && order[k] == id;
    assert sorted[k] in sorted;
    var i := OutlineMember(steps, sorted[k]);
    s := steps[i];
  }

  lemma OrderMembers(steps: seq<Step>, stageId: string)
    requires DistinctSteps(steps)
    ensures forall id :: id in Order(steps, stageId) <==> exists s :: s in steps && s.id == id && s.stageId == stageId
    ensures forall id :: id in Order(steps, stageId) ==> FindStep(steps, id).Some? && FindStep(steps, id).value.stageId == stageId
  {
    hide Order, FindStep, DistinctSteps;
    forall s | s in steps && s.stageId == stageId
      ensures s.id in Order(steps, stageId)
    {
      OrderHas(steps, stageId, s);
    }
    forall id | id in Order(steps, stageId)
      ensures exists s :: s in steps && s.id == id && s.stageId == stageId
      ensures FindStep(steps, id).Some? && FindStep(steps, id).value.stageId == stageId
    {
      var s := OrderOnly(steps, stageId, id);
      FoundIfPresent(steps, s);
    }
  }

  function SequenceOf(steps: seq<Step>, id: string): int {
    var found := FindStep(steps, id);
    if found.Some? then found.value.sequence else -1
  }

  ghost predicate Increasing(steps: seq<Step>, ids: seq<string>) {
    forall i, j :: 0 <= i < j < |ids| ==> SequenceOf(steps, ids[i]) < SequenceOf(steps, ids[j])
  }

  lemma {:induction false} StageStepsDistinct(steps: seq<Step>, stageId: string)
    requires DistinctSteps(steps)
    ensures DistinctSteps(StageSteps(steps, stageId))
  {
    if steps != [] {
      StageStepsDistinct(Init(steps), stageId);
      var some := StageSteps(Init(steps), stageId);
      forall i | 0 <= i < |some|
        ensures some[i].id != Last(steps).id && some[i].sequence != Last(steps).sequence
      {
        assert some[i] in some;
        var k :| 0 <= k < |Init(steps)| && Init(steps)[k] == some[i];
        assert Sequence(steps[k]) != Sequence(steps[|steps| - 1]);
      }
    }
  }

  lemma OutlineMember(steps: seq<Step>, o: Step) returns (i: nat)
    requires o in Outline(steps)
    ensures i < |steps| && Outline(steps)[i] == o && steps[i] in steps
  {
    i :| 0 <= i < |steps| && Outline(steps)[i] == o;
  }

  lemma KeysDiffer(run: Run, s: Step, t: Step)
    requires StageMajor(run) && s in run.steps && t in run.steps && s.stageId == t.stageId && s.sequence != t.sequence
    ensures OrderKey(s) != OrderKey(t)
  {
  }

  lemma OutlineDistinct(steps: seq<Step>)
    requires DistinctSteps(steps)
    ensures DistinctSteps(Outline(steps))
  {
    var outline := Outline(steps);
    assert forall i :: 0 <= i < |outline| ==> Sequence(outline[i]) == Sequence(steps[i]);
  }

  lemma OrderKeysDiffer(run: Run, stageId: string)
    requires StageMajor(run)
    ensures DistinctKeys(StageSteps(Outline(run.steps), stageId), OrderKey)
  {
    assert DistinctSteps(run.steps);
    hide StageMajor;
    OutlineDistinct(run.steps);
    StageStepsDistinct(Outline(run.steps), stageId);
    var some := StageSteps(Outline(run.steps), stageId);
    forall i, j | 0 <= i < j < |some|
      ensures OrderKey(some[i]) != OrderKey(some[j])
    {
      assert some[i] in some && some[j] in some && Sequence(some[i]) != Sequence(some[j]);
      var a := OutlineMember(run.steps, some[i]);
      var b := OutlineMember(run.steps, some[j]);
      KeysDiffer(run, run.steps[a], run.steps[b]);
    }
  }

  /** Within a stage the loop follows the sequence. */
  lemma OrderIncreases(run: Run, stageId: string)
    requires StageMajor(run)
    ensures Increasing(run.steps, Order(run.steps, stageId))
  {
    var some := StageSteps(Outline(run.steps), stageId);
    var sorted, order := SortBy(some, OrderKey), Order(run.steps, stageId);
    OrderKeysDiffer(run, stageId);
    SortIsStrict(some, OrderKey);
    forall i, j | 0 <= i < j < |order|
      ensures SequenceOf(run.steps, order[i]) < SequenceOf(run.steps, order[j])
    {
      assert sorted[i] in sorted && sorted[j] in sorted;
      var a := OutlineMember(run.steps, sorted[i]);
      var b := OutlineMember(run.steps, sorted[j]);
      FindsIt(run.steps, a);
      FindsIt(run.steps, b);
      assert OrderKey(run.steps[a]) < OrderKey(run.steps[b]);
      assert a != b;
      assert Sequence(run.steps[a]) != Sequence(run.steps[b]);
    }
  }

  // ----- The loop over stages -----

  lemma {:induction false} FindsStage(stages: seq<Stage>, i: nat)
    requires i < |stages| && forall j, k :: 0 <= j < k < |stages| ==> stages[j].id != stages[k].id
    ensures FindStage(stages, stages[i].id) == Some(stages[i])
  {
    if i > 0 {
      assert stages[1..][i - 1] == stages[i];
      FindsStage(stages[1..], i - 1);
    }
  }

  lemma FoundStage(start: seq<Stage>, now: seq<Stage>, earlier: seq<string>, stageId: string) returns (i: nat)
    requires DistinctStages(start) && StagesDoneSoFar(start, now, earlier)
    requires stageId !in earlier && exists g :: g in start && g.id == stageId
    ensures i < |start| && start[i].id == stageId && FindStage(now, stageId) == Some(now[i]) && now[i].status == start[i].status
  {
    i :| 0 <= i < |start| && start[i].id == stageId;
    FindsStage(now, i);
  }

  lemma {:induction false} CompletedIdsCountAsDone(start: seq<Step>, now: seq<Step>, done: set<string>, ids: seq<string>)
    requires DistinctSteps(start) && DoneSoFar(start, now, done)
    requires forall id :: id in ids ==> FindStep(start, id).Some? && FindStep(start, id).value.status == RunStatus.Completed
    ensures DoneSoFar(start, now, done + Elements(ids)) && PendingOf(start, ids) == []
  {
    hide DistinctSteps, DoneSoFar, FindStep;
    if ids == [] {
      assert done + Elements(ids) == done;
    } else {
      assert ids == Init(ids) + [Last(ids)];
      CompletedIdsCountAsDone(start, now, done, Init(ids));
      CompletedCountsAsDone(start, now, done + Elements(Init(ids)), Last(ids));
      assert done + Elements(Init(ids)) + {Last(ids)} == done + Elements(ids);
    }
  }

  lemma StageMarked(start: seq<Stage>, run: Run, earlier: seq<string>, stageId: string, status: RunStatus)
    requires StagesDoneSoFar(start, run.stages, earlier)
    ensures StagesDoneSoFar(start, SetStage(SetStage(run, stageId, status), stageId, RunStatus.Completed).stages, earlier + [stageId])
    ensures StagesDoneSoFar(start, SetStage(run, stageId, RunStatus.Completed).stages, earlier + [stageId])
  {
  }

  lemma SameOutline(start: seq<Step>, now: seq<Step>, done: set<string>)
    requires DoneSoFar(start, now, done)
    ensures Outline(now) == Outline(start)
  {
  }

  lemma DoneDependencyMet(run: Run, start: seq<Step>, done: set<string>, stageSteps: seq<Step>, d: string)
    requires DoneSoFar(start, run.steps, done) && d in done && exists s :: s in start && s.id == d
    ensures DependencyMet(run, stageSteps, d)
  {
    var t :| t in start && t.id == d;
    var j :| 0 <= j < |start| && start[j] == t;
    assert run.steps[j] in run.steps;
  }

  lemma OwnDependencyMet(run: Run, stageSteps: seq<Step>, d: string)
    requires d in StepIds(stageSteps)
    ensures DependencyMet(run, stageSteps, d)
  {
    var k :| 0 <= k < |stageSteps| && StepIds(stageSteps)[k] == d;
    assert stageSteps[k] in stageSteps;
  }

  lemma SameDependencies(start: seq<Step>, now: seq<Step>, s: Step)
    requires OnlyStatusDiffers(start, now) && s in now
    ensures exists o :: o in start && o.stageId == s.stageId && o.dependsOn == s.dependsOn
  {
    var i :| 0 <= i < |now| && now[i] == s;
    assert start[i] in start;
  }

  lemma DependenciesAreMet(run: Run, start: Run, stageId: string, done: set<string>)
    requires DoneSoFar(start.steps, run.steps, done)
    requires forall id :: id in done ==> exists s :: s in start.steps && s.id == id
    requires forall s, d :: s in start.steps && s.stageId == stageId && d in s.dependsOn ==>
      d in done || d in Order(start.steps, stageId)
    ensures DependenciesMet(run, StageOrder(run, stageId))
  {
    SameOutline(start.steps, run.steps, done);
    OrderOfStage(run, start.steps, stageId);
    assert OnlyStatusDiffers(start.steps, run.steps);
    hide Order, Outline, StageOrder, DependencyMet, OnlyStatusDiffers, DoneSoFar;
    var stageSteps := StageOrder(run, stageId);
    forall s, d | s in stageSteps && d in s.dependsOn
      ensures DependencyMet(run, stageSteps, d)
    {
      SameDependencies(start.steps, run.steps, s);
      if d in done {
        DoneDependencyMet(run, start.steps, done, stageSteps, d);
      } else {
        OwnDependencyMet(run, stageSteps, d);
      }
    }
  }

  /** What the loop has done when it reaches a stage. */
  ghost predicate Reached(start: Run, p: Progress, earlier: seq<string>, done: set<string>) {
    && p.verdict.Going? && DoneSoFar(start.steps, p.run.steps, done)
    && StagesDoneSoFar(start.stages, p.run.stages, earlier)
    && forall id :: id in done ==> exists s :: s in start.steps && s.id == id
  }

  /** The stage is known, none of its steps is done, and what they need is. */
  ghost predicate StageIsNext(start: Run, stageId: string, done: set<string>) {
    && (exists g :: g in start.stages && g.id == stageId)
    && (forall id :: id in Order(start.steps, stageId) ==> id !in done)
    && forall s, d :: s in start.steps && s.stageId == stageId && d in s.dependsOn ==>
         d in done || d in Order(start.steps, stageId)
  }

  ghost predicate StageCanRun(start: Run, stageId: string, done: set<string>, outcome: string -> StepOutcome) {
    StageIsNext(start, stageId, done) && forall id :: id in Order(start.steps, stageId) ==> Smooth(start.steps, id, outcome)
  }

  lemma {:induction false} IncreasingIsDistinct(steps: seq<Step>, ids: seq<string>)
    requires Increasing(steps, ids)
    ensures Distinct(ids)
  {
    forall i, j | 0 <= i < j < |ids|
      ensures ids[i] != ids[j]
    {
      assert SequenceOf(steps, ids[i]) < SequenceOf(steps, ids[j]);
    }
  }

  lemma CompletedStage(start: Run, stageId: string, i: nat)
    requires DistinctSteps(start.steps) && StagesReady(start)
    requires i < |start.stages| && start.stages[i].id == stageId && start.stages[i].status == RunStatus.Completed
    ensures forall id :: id in Order(start.steps, stageId) ==>
      FindStep(start.steps, id).Some? && FindStep(start.steps, id).value.status == RunStatus.Completed
  {
    assert start.stages[i] in start.stages;
    OrderMembers(start.steps, stageId);
  }

  lemma SameOrderOnceRunning(run: Run, stageId: string, status: RunStatus)
    ensures StageOrder(SetStage(run, stageId, status), stageId) == StageOrder(run, stageId)
  {
  }

  lemma EarlierMarkKept(start: seq<Stage>, run: Run, running: Run, q: Run, earlier: seq<string>, stageId: string)
    requires StagesDoneSoFar(start, run.stages, earlier)
    requires running == SetStage(run, stageId, RunStatus.Running) && q.stages == running.stages
    ensures StagesDoneSoFar(start, SetStage(q, stageId, RunStatus.Completed).stages, earlier + [stageId])
  {
  }

  lemma OpenStage(p: Progress, start: Run, stageId: string, earlier: seq<string>, done: set<string>, outcome: string -> StepOutcome)
    requires DistinctSteps(start.steps) && PendingOrCompleted(start.steps)
    requires Reached(start, p, earlier, done) && StageCanRun(start, stageId, done, outcome)
    requires forall id :: id in Order(start.steps, stageId) ==> FindStep(start.steps, id).Some?
    requires Distinct(Order(start.steps, stageId)) && Order(start.steps, stageId) != []
    requires FindStage(p.run.stages, stageId).Some?
    requires FindStage(p.run.stages, stageId).value.status in {RunStatus.Pending, RunStatus.Running}
    ensures var q := RunStage(p, stageId, outcome);
      && q.verdict.Going?
      && DoneSoFar(start.steps, q.run.steps, done + Elements(Order(start.steps, stageId)))
      && StagesDoneSoFar(start.stages, q.run.stages, earlier + [stageId])
      && q.started == p.started + PendingOf(start.steps, Order(start.steps, stageId))
  {
    hide FindStage, FindStep, Order, PendingOrCompleted, DistinctSteps, StepsLoop, DependenciesMet, StageOrder, DoneSoFar,
         StagesDoneSoFar, SetStage, Outline, Smooth;
    var order := Order(start.steps, stageId);
    var running := p.(run := SetStage(p.run, stageId, RunStatus.Running));
    SameOutline(start.steps, p.run.steps, done);
    OrderOfStage(p.run, start.steps, stageId);
    SameOrderOnceRunning(p.run, stageId, RunStatus.Running);
    DependenciesAreMet(running.run, start, stageId, done);
    SuccessfulSteps(running, order, stageId, outcome, start.steps, done);
    var q := StepsLoop(running, order, stageId, outcome);
    EarlierMarkKept(start.stages, p.run, running.run, q.run, earlier, stageId);
  }

  lemma ClosedStagesStay(start: seq<Stage>, now: seq<Stage>, earlier: seq<string>, stageId: string, i: nat)
    requires StagesDoneSoFar(start, now, earlier) && i < |start| && start[i].id == stageId && start[i].status == RunStatus.Completed
    requires forall g, h :: 0 <= g < h < |start| ==> start[g].id != start[h].id
    ensures StagesDoneSoFar(start, now, earlier + [stageId])
  {
  }

  lemma ClosedStage(p: Progress, start: Run, stageId: string, earlier: seq<string>, done: set<string>, outcome: string -> StepOutcome, i: nat)
    requires DistinctSteps(start.steps) && StagesReady(start) && Reached(start, p, earlier, done)
    requires i < |start.stages| && start.stages[i].id == stageId && start.stages[i].status == RunStatus.Completed
    requires FindStage(p.run.stages, stageId).Some? && FindStage(p.run.stages, stageId).value.status == RunStatus.Completed
    requires forall g, h :: 0 <= g < h < |start.stages| ==> start.stages[g].id != start.stages[h].id
    ensures var q := RunStage(p, stageId, outcome);
      && q.verdict.Going?
      && DoneSoFar(start.steps, q.run.steps, done + Elements(Order(start.steps, stageId)))
      && StagesDoneSoFar(start.stages, q.run.stages, earlier + [stageId])
      && q.started == p.started + PendingOf(start.steps, Order(start.steps, stageId))
  {
    hide FindStep, Order, FindStage, PendingOf, StageOrder, DistinctSteps, StagesReady, DoneSoFar, StagesDoneSoFar;
    CompletedStage(start, stageId, i);
    CompletedIdsCountAsDone(start.steps, p.run.steps, done, Order(start.steps, stageId));
    ClosedStagesStay(start.stages, p.run.stages, earlier, stageId, i);
    assert p.started + [] == p.started;
  }

  lemma SetStageKeepsSteps(run: Run, stageId: string, status: RunStatus)
    ensures SetStage(run, stageId, status).steps == run.steps
  {
  }

  lemma EmptyStage(p: Progress, start: Run, stageId: string, earlier: seq<string>, done: set<string>, outcome: string -> StepOutcome)
    requires Reached(start, p, earlier, done) && Order(start.steps, stageId) == []
    requires FindStage(p.run.stages, stageId).Some?
    requires FindStage(p.run.stages, stageId).value.status in {RunStatus.Pending, RunStatus.Running}
    ensures var q := RunStage(p, stageId, outcome);
      && q.verdict.Going?
      && DoneSoFar(start.steps, q.run.steps, done + Elements(Order(start.steps, stageId)))
      && StagesDoneSoFar(start.stages, q.run.stages, earlier + [stageId])
      && q.started == p.started + PendingOf(start.steps, Order(start.steps, stageId))
  {
    hide FindStep, Order, FindStage, StageOrder, DoneSoFar, StagesDoneSoFar, Outline, SetStage;
    SameOutline(start.steps, p.run.steps, done);
    OrderOfStage(p.run, start.steps, stageId);
    SetStageKeepsSteps(p.run, stageId, RunStatus.Completed);
    assert |StepIds(StageOrder(p.run, stageId))| == 0;
    StageMarked(start.stages, p.run, earlier, stageId, RunStatus.Running);
    assert done + Elements(Order(start.steps, stageId)) == done;
    assert p.started + [] == p.started;
  }

  /** A stage whose steps all succeed starts exactly its pending steps, in order, and ends completed. */
  lemma StageIsRun(p: Progress, start: Run, stageId: string, earlier: seq<string>, done: set<string>, outcome: string -> StepOutcome)
    requires StageMajor(start) && StagesReady(start) && PendingOrCompleted(start.steps)
    requires Reached(start, p, earlier, done) && stageId !in earlier && StageCanRun(start, stageId, done, outcome)
    ensures var q := RunStage(p, stageId, outcome);
      && q.verdict.Going?
      && DoneSoFar(start.steps, q.run.steps, done + Elements(Order(start.steps, stageId)))
      && StagesDoneSoFar(start.stages, q.run.stages, earlier + [stageId])
      && q.started == p.started + PendingOf(start.steps, Order(start.steps, stageId))
  {
    StageMajorParts(start);
    OrderMembers(start.steps, stageId);
    hide StageMajor, FindStep, FindStage, Order, PendingOrCompleted, DistinctSteps, RunStage, DoneSoFar, StagesDoneSoFar, PendingOf;
    var order := Order(start.steps, stageId);
    var i := FoundStage(start.stages, p.run.stages, earlier, stageId);
    assert start.stages[i] in start.stages;
    if start.stages[i].status == RunStatus.Completed {
      ClosedStage(p, start, stageId, earlier, done, outcome, i);
    } else if order == [] {
      EmptyStage(p, start, stageId, earlier, done, outcome);
    } else {
      OrderIncreases(start, stageId);
      IncreasingIsDistinct(start.steps, order);
      OpenStage(p, start, stageId, earlier, done, outcome);
    }
  }

  lemma StageMajorParts(start: Run)
    requires StageMajor(start)
    ensures DistinctSteps(start.steps) && DistinctStages(start.stages)
    ensures forall g, h :: 0 <= g < h < |start.stages| ==> start.stages[g].id != start.stages[h].id
  {
  }

  lemma SuccessfulStage(p: Progress, start: Run, stageId: string, earlier: seq<string>, done: set<string>, outcome: string -> StepOutcome)
    requires StageMajor(start) && StagesReady(start) && PendingOrCompleted(start.steps)
    requires Reached(start, p, earlier, done) && stageId !in earlier && StageCanRun(start, stageId, done, outcome)
    ensures var q := RunStage(p, stageId, outcome);
      && Reached(start, q, earlier + [stageId], done + Elements(Order(start.steps, stageId)))
      && q.started == p.started + PendingOf(start.steps, Order(start.steps, stageId))
  {
    hide StageMajor, StagesReady, StageCanRun, Order, PendingOrCompleted, DistinctSteps, RunStage, DoneSoFar, StagesDoneSoFar, PendingOf;
    StageIsRun(p, start, stageId, earlier, done, outcome);
    StageMajorParts(start);
    OrderMembers(start.steps, stageId);
    assert forall id :: id in done + Elements(Order(start.steps, stageId)) ==> id in done || id in Order(start.steps, stageId);
  }

  // ----- The order of stages -----

  ghost predicate Scheduled(stages: seq<Stage>) {
    forall i, j :: 0 <= i < j < |stages| ==> stages[i].id != stages[j].id && stages[i].sequence < stages[j].sequence
  }

  lemma AppendStage(stages: seq<Stage>, x: Stage)
    requires Scheduled(stages) && forall g :: g in stages ==> g.id != x.id && g.sequence < x.sequence
    ensures Scheduled(stages + [x])
  {
    assert forall i :: 0 <= i < |stages| ==> stages[i] in stages;
  }

  lemma LastStageIsLatest(stages: seq<Stage>, g: Stage)
    requires Scheduled(stages) && stages != [] && g in Init(stages)
    ensures g in stages && g.id != Last(stages).id && g.sequence < Last(stages).sequence
  {
    var k :| 0 <= k < |Init(stages)| && Init(stages)[k] == g;
    assert stages[k] == g;
  }

  lemma {:induction false} InsertStageOrders(sorted: seq<Stage>, x: Stage)
    requires Scheduled(sorted) && forall g :: g in sorted ==> g.id != x.id && g.sequence != x.sequence
    ensures Scheduled(InsertStage(sorted, x))
  {
    if sorted == [] {
      AppendStage(sorted, x);
    } else {
      assert sorted == Init(sorted) + [Last(sorted)] && Last(sorted) in sorted;
      forall g | g in Init(sorted)
        ensures g in sorted && g.id != Last(sorted).id && g.sequence < Last(sorted).sequence
      {
        LastStageIsLatest(sorted, g);
      }
      hide Scheduled;
      if Last(sorted).sequence <= x.sequence {
        assert forall g :: g in sorted ==> g in Init(sorted) || g == Last(sorted);
        AppendStage(sorted, x);
      } else {
        PrefixScheduled(sorted);
        InsertStageOrders(Init(sorted), x);
        AppendStage(InsertStage(Init(sorted), x), Last(sorted));
      }
    }
  }

  lemma PrefixScheduled(stages: seq<Stage>)
    requires Scheduled(stages) && stages != []
    ensures Scheduled(Init(stages))
  {
  }

  lemma {:induction false} SortStagesOrders(stages: seq<Stage>)
    requires DistinctStages(stages)
    ensures Scheduled(SortStages(stages))
  {
    if stages != [] {
      SortStagesOrders(Init(stages));
      forall g | g in SortStages(Init(stages))
        ensures g.id != Last(stages).id && g.sequence != Last(stages).sequence
      {
        var k :| 0 <= k < |Init(stages)| && Init(stages)[k] == g;
        assert stages[k] == g;
      }
      InsertStageOrders(SortStages(Init(stages)), Last(stages));
    }
  }

  lemma ScheduledEarlier(run: Run, a: Stage, b: Stage, k: nat)
    requires DistinctStages(run.stages) && a in run.stages && b in run.stages && a.sequence < b.sequence
    requires k < |StageSchedule(run)| && StageSchedule(run)[k] == b.id
    ensures a.id in StageSchedule(run)[..k]
  {
    SortStagesOrders(run.stages);
    var sorted, gs := SortStages(run.stages), StageSchedule(run);
    assert a in sorted && b in sorted;
    var i :| 0 <= i < |sorted| && sorted[i] == a;
    var j :| 0 <= j < |sorted| && sorted[j] == b;
    assert j == k;
    assert i < k;
    assert gs[..k][i] == a.id;
  }

  lemma ScheduleIsDistinct(run: Run, j: nat, k: nat)
    requires DistinctStages(run.stages) && j < k < |StageSchedule(run)|
    ensures StageSchedule(run)[j] != StageSchedule(run)[k]
  {
    SortStagesOrders(run.stages);
  }

  lemma {:induction false} ScheduleMembers(steps: seq<Step>, ids: seq<string>)
    requires DistinctSteps(steps)
    ensures forall id :: id in Schedule(steps, ids) <==> exists s :: s in steps && s.id == id && s.stageId in ids
    ensures forall id :: id in Schedule(steps, ids) ==> FindStep(steps, id).Some? && FindStep(steps, id).value.stageId in ids
  {
    hide FindStep, Order, DistinctSteps;
    if ids != [] {
      assert ids == Init(ids) + [Last(ids)];
      ScheduleMembers(steps, Init(ids));
      OrderMembers(steps, Last(ids));
    }
  }

  lemma NextStage(start: Run, k: nat)
    requires StageMajor(start) && k < |StageSchedule(start)|
    ensures StageIsNext(start, StageSchedule(start)[k], Elements(Schedule(start.steps, StageSchedule(start)[..k])))
  {
    var gs := StageSchedule(start);
    var earlier := Schedule(start.steps, gs[..k]);
    ScheduleMembers(start.steps, gs[..k]);
    OrderMembers(start.steps, gs[k]);
    assert SortStages(start.stages)[k] in SortStages(start.stages);
    forall id | id in Order(start.steps, gs[k])
      ensures id !in earlier
    {
      if id in earlier {
        var j :| 0 <= j < k && gs[j] == FindStep(start.steps, id).value.stageId;
        ScheduleIsDistinct(start, j, k);
        assert false;
      }
    }
    forall s, d | s in start.steps && s.stageId == gs[k] && d in s.dependsOn
      ensures d in earlier || d in Order(start.steps, gs[k])
    {
      assert DependencyPlaced(start, s, d);
      var t :| t in start.steps && t.id == d && (t.stageId == s.stageId || InOrder(t, s, start.stages));
      if t.stageId != s.stageId {
        var a, b :| a in start.stages && b in start.stages && a.id == t.stageId && b.id == s.stageId && a.sequence < b.sequence;
        ScheduledEarlier(start, a, b, k);
      }
    }
  }

  lemma NotScheduledBefore(run: Run, k: nat)
    requires DistinctStages(run.stages) && k < |StageSchedule(run)|
    ensures StageSchedule(run)[k] !in StageSchedule(run)[..k]
  {
    var gs := StageSchedule(run);
    if gs[k] in gs[..k] {
      var j :| 0 <= j < k && gs[j] == gs[k];
      ScheduleIsDistinct(run, j, k);
    }
  }

  lemma StillGoing(start: Run, p: Progress, earlier: seq<string>, done: set<string>)
    requires Reached(start, p, earlier, done)
    ensures p.verdict.Going?
  {
  }

  lemma ScheduleGrows(steps: seq<Step>, gs: seq<string>, g: string)
    ensures Schedule(steps, gs + [g]) == Schedule(steps, gs) + Order(steps, g)
    ensures Elements(Schedule(steps, gs + [g])) == Elements(Schedule(steps, gs)) + Elements(Order(steps, g))
    ensures PendingOf(steps, Schedule(steps, gs + [g])) == PendingOf(steps, Schedule(steps, gs)) + PendingOf(steps, Order(steps, g))
  {
    hide Order, PendingOf;
    assert Init(gs + [g]) == gs;
    PendingOfSplits(steps, Schedule(steps, gs), Order(steps, g));
  }

  lemma LoopGrows(p: Progress, gs: seq<string>, g: string, outcome: string -> StepOutcome)
    requires StagesLoop(p, gs, outcome).verdict.Going?
    ensures StagesLoop(p, gs + [g], outcome) == RunStage(StagesLoop(p, gs, outcome), g, outcome)
  {
    hide RunStage;
    assert Init(gs + [g]) == gs;
  }

  /** The loop over these stages has reached its end and started exactly their pending steps. */
  ghost predicate Covered(start: Run, gs: seq<string>, outcome: string -> StepOutcome) {
    var q := StagesLoop(Progress(start, [], Going), gs, outcome);
    && Reached(start, q, gs, Elements(Schedule(start.steps, gs)))
    && q.started == PendingOf(start.steps, Schedule(start.steps, gs))
  }

  lemma OneMoreStage(start: Run, gs: seq<string>, g: string, outcome: string -> StepOutcome)
    requires StageMajor(start) && StagesReady(start) && PendingOrCompleted(start.steps) && g !in gs
    requires Covered(start, gs, outcome) && StageCanRun(start, g, Elements(Schedule(start.steps, gs)), outcome)
    ensures Covered(start, gs + [g], outcome)
  {
    hide StageMajor, StagesReady, Order, PendingOrCompleted, Reached, StageCanRun, RunStage, StagesLoop, PendingOf, Schedule;
    var p := StagesLoop(Progress(start, [], Going), gs, outcome);
    SuccessfulStage(p, start, g, gs, Elements(Schedule(start.steps, gs)), outcome);
    StillGoing(start, p, gs, Elements(Schedule(start.steps, gs)));
    ScheduleGrows(start.steps, gs, g);
    LoopGrows(Progress(start, [], Going), gs, g, outcome);
  }

  lemma NothingReached(start: Run, outcome: string -> StepOutcome)
    ensures Covered(start, [], outcome)
  {
    assert Schedule(start.steps, []) == [];
  }

  /** The loop over the first `k` stages starts exactly their pending steps. */
  lemma {:induction false} SuccessfulStages(start: Run, k: nat, outcome: string -> StepOutcome)
    requires StageMajor(start) && StagesReady(start) && PendingOrCompleted(start.steps)
    requires k <= |StageSchedule(start)|
    requires forall id :: id in Schedule(start.steps, StageSchedule(start)[..k]) ==> Smooth(start.steps, id, outcome)
    ensures Covered(start, StageSchedule(start)[..k], outcome)
  {
    hide PendingOrCompleted, StagesReady, StageIsNext, StageSchedule, Schedule, Order, Smooth, Covered, StageMajor, DistinctStages, DistinctSteps;
    var gs := StageSchedule(start);
    if k == 0 {
      assert gs[..0] == [];
      NothingReached(start, outcome);
    } else {
      assert gs[..k] == gs[..k - 1] + [gs[k - 1]];
      ScheduleGrows(start.steps, gs[..k - 1], gs[k - 1]);
      SuccessfulStages(start, k - 1, outcome);
      NextStage(start, k - 1);
      AllStagesDistinct(start);
      NotScheduledBefore(start, k - 1);
      OneMoreStage(start, gs[..k - 1], gs[k - 1], outcome);
    }
  }

  lemma AllStagesDistinct(run: Run)
    requires StageMajor(run)
    ensures DistinctStages(run.stages) && DistinctSteps(run.steps)
  {
  }

  lemma {:induction false} ScheduleIncreases(run: Run, k: nat)
    requires StageMajor(run) && k <= |StageSchedule(run)|
    ensures Increasing(run.steps, Schedule(run.steps, StageSchedule(run)[..k]))
  {
    hide StageMajor, StageSchedule, Order, SequenceOf;
    var gs := StageSchedule(run);
    if k > 0 {
      assert Init(gs[..k]) == gs[..k - 1];
      ScheduleIncreases(run, k - 1);
      OrderIncreases(run, gs[k - 1]);
      var before, order := Schedule(run.steps, gs[..k - 1]), Order(run.steps, gs[k - 1]);
      forall x, y | x in before && y in order
        ensures SequenceOf(run.steps, x) < SequenceOf(run.steps, y)
      {
        EarlierStageEarlierSequence(run, k - 1, x, y);
      }
      IncreasingJoins(run.steps, before, order);
    }
  }

  lemma IncreasingJoins(steps: seq<Step>, a: seq<string>, b: seq<string>)
    requires Increasing(steps, a) && Increasing(steps, b)
    requires forall x, y :: x in a && y in b ==> SequenceOf(steps, x) < SequenceOf(steps, y)
    ensures Increasing(steps, a + b)
  {
    hide SequenceOf;
    assert forall i :: 0 <= i < |a| ==> a[i] in a;
    assert forall i :: 0 <= i < |b| ==> b[i] in b;
  }

  lemma EarlierStageEarlierSequence(run: Run, k: nat, x: string, y: string)
    requires StageMajor(run) && k < |StageSchedule(run)|
    requires x in Schedule(run.steps, StageSchedule(run)[..k]) && y in Order(run.steps, StageSchedule(run)[k])
    ensures SequenceOf(run.steps, x) < SequenceOf(run.steps, y)
  {
    var gs, sorted := StageSchedule(run), SortStages(run.stages);
    ScheduleMembers(run.steps, gs[..k]);
    OrderMembers(run.steps, gs[k]);
    SortStagesOrders(run.stages);
    var s, t := FindStep(run.steps, x).value, FindStep(run.steps, y).value;
    var j :| 0 <= j < k && gs[j] == s.stageId;
    assert sorted[j] in sorted && sorted[k] in sorted;
    assert sorted[j].sequence < sorted[k].sequence;
    assert InOrder(s, t, run.stages);
  }

  lemma {:induction false} PendingIncreases(steps: seq<Step>, ids: seq<string>)
    requires Increasing(steps, ids)
    ensures Increasing(steps, PendingOf(steps, ids))
  {
    hide SequenceOf, FindStep;
    if ids != [] {
      PendingIncreases(steps, Init(ids));
      var some := PendingOf(steps, Init(ids));
      forall i | 0 <= i < |some|
        ensures SequenceOf(steps, some[i]) < SequenceOf(steps, Last(ids))
      {
        assert some[i] in some;
        var j :| 0 <= j < |Init(ids)| && Init(ids)[j] == some[i];
        assert ids[j] == some[i];
      }
    }
  }

  lemma FoundIfPresent(steps: seq<Step>, s: Step)
    requires DistinctSteps(steps) && s in steps
    ensures FindStep(steps, s.id) == Some(s)
  {
    var i :| 0 <= i < |steps| && steps[i] == s;
    FindsIt(steps, i);
  }

  lemma PendingStarted(start: Run, ids: seq<string>, id: string)
    requires DistinctSteps(start.steps)
    requires forall x :: x in ids <==> exists s :: s in start.steps && s.id == x
    ensures id in PendingOf(start.steps, ids) <==>
      exists s :: s in start.steps && s.id == id && s.status == RunStatus.Pending
  {
    if s :| s in start.steps && s.id == id {
      FoundIfPresent(start.steps, s);
      forall t | t in start.steps && t.id == id
        ensures t == s
      {
        FoundIfPresent(start.steps, t);
      }
    }
  }

  lemma EverythingCompleted(start: Run, q: Progress, gs: seq<string>, done: set<string>)
    requires Reached(start, q, gs, done)
    requires forall s :: s in start.steps ==> s.id in done
    requires forall g :: g in start.stages ==> g.id in gs
    ensures OnlyStatusDiffers(start.steps, q.run.steps) && OnlyStageStatusDiffers(start.stages, q.run.stages)
    ensures forall s :: s in q.run.steps ==> s.status == RunStatus.Completed
    ensures forall g :: g in q.run.stages ==> g.status == RunStatus.Completed
  {
    assert forall i :: 0 <= i < |start.steps| ==> start.steps[i] in start.steps;
    assert forall i :: 0 <= i < |start.stages| ==> start.stages[i] in start.stages;
  }

  lemma EverythingScheduled(start: Run)
    requires StageMajor(start)
    ensures forall id :: id in Schedule(start.steps, StageSchedule(start)) <==> exists s :: s in start.steps && s.id == id
    ensures forall g :: g in start.stages ==> g.id in StageSchedule(start)
  {
    var gs, sorted := StageSchedule(start), SortStages(start.stages);
    ScheduleMembers(start.steps, gs);
    forall g | g in start.stages
      ensures g.id in gs
    {
      assert g in sorted;
      var k :| 0 <= k < |sorted| && sorted[k] == g;
      assert gs[k] == g.id;
    }
    forall s | s in start.steps
      ensures s.stageId in gs
    {
      assert HasItsStage(s, start.stages);
    }
  }

  lemma CoveredMeans(start: Run, gs: seq<string>, outcome: string -> StepOutcome)
    requires Covered(start, gs, outcome)
    ensures var q := StagesLoop(Progress(start, [], Going), gs, outcome);
      && q.verdict.Going? && Reached(start, q, gs, Elements(Schedule(start.steps, gs)))
      && q.started == PendingOf(start.steps, Schedule(start.steps, gs))
  {
  }

  lemma PendingSucceeds(steps: seq<Step>, id: string, outcome: string -> StepOutcome)
    requires forall s :: s in steps && s.status == RunStatus.Pending ==> outcome(s.id).Succeeds?
    ensures Smooth(steps, id, outcome)
  {
  }

  /** The stage and step loop starts exactly the pending steps, each once, in increasing sequence, and completes the run. */
  lemma ContinueCoversPending(start: Run, outcome: string -> StepOutcome)
    requires StageMajor(start) && StagesReady(start) && PendingOrCompleted(start.steps)
    requires forall s :: s in start.steps && s.status == RunStatus.Pending ==> outcome(s.id).Succeeds?
    ensures var q := Continue(start, outcome);
      && q.verdict.Going?
      && Increasing(start.steps, q.started)
      && (forall id :: id in q.started <==> exists s :: s in start.steps && s.id == id && s.status == RunStatus.Pending)
      && OnlyStatusDiffers(start.steps, q.run.steps) && OnlyStageStatusDiffers(start.stages, q.run.stages)
      && (forall s :: s in q.run.steps ==> s.status == RunStatus.Completed)
      && (forall g :: g in q.run.stages ==> g.status == RunStatus.Completed)
  {
    hide StageMajor, StagesReady, FindStep, Increasing, Reached, Schedule, StagesLoop, DistinctSteps, StageSchedule, PendingOf,
         OnlyStatusDiffers, OnlyStageStatusDiffers, Covered, PendingOrCompleted, DistinctStages, Smooth;
    var gs := StageSchedule(start);
    assert gs[..|gs|] == gs;
    var q, all := Continue(start, outcome), Schedule(start.steps, gs);
    EverythingScheduled(start);
    AllStagesDistinct(start);
    forall id | id in all
      ensures Smooth(start.steps, id, outcome)
    {
      PendingSucceeds(start.steps, id, outcome);
    }
    SuccessfulStages(start, |gs|, outcome);
    CoveredMeans(start, gs, outcome);
    ScheduleIncreases(start, |gs|);
    PendingIncreases(start.steps, all);
    forall id
      ensures id in q.started <==> exists s :: s in start.steps && s.id == id && s.status == RunStatus.Pending
    {
      PendingStarted(start, all, id);
    }
    EverythingCompleted(start, q, gs, Elements(all));
  }

  // ----- Steps that do not succeed -----

  function StopStatus(o: StepOutcome): RunStatus {
    if o.Fails? then RunStatus.Failed else RunStatus.PausedForReview
  }

  function StopVerdict(o: StepOutcome): Verdict {
    if o.Fails? then StepFailed else Paused
  }

  /** The steps of `done` are completed, `id` has stopped, and the rest is as at the start. */
  ghost predicate StoppedSteps(start: seq<Step>, now: seq<Step>, done: set<string>, id: string, status: RunStatus) {
    && OnlyStatusDiffers(start, now)
    && forall i :: 0 <= i < |start| ==>
         now[i].status == if start[i].id in done then RunStatus.Completed else if start[i].id == id then status else start[i].status
  }

  ghost predicate StoppedStages(start: seq<Stage>, now: seq<Stage>, earlier: seq<string>, id: string, status: RunStatus) {
    && OnlyStageStatusDiffers(start, now)
    && forall i :: 0 <= i < |start| ==>
         now[i].status == if start[i].id == id then status else if start[i].id in earlier then RunStatus.Completed else start[i].status
  }

  lemma TroubledStep(p: Progress, id: string, stageId: string, outcome: string -> StepOutcome, start: seq<Step>, done: set<string>)
    requires DistinctSteps(start) && DoneSoFar(start, p.run.steps, done) && id !in done && !Smooth(start, id, outcome)
    ensures var q := RunStep(p, id, stageId, outcome); var status := StopStatus(outcome(id));
      && q.verdict == StopVerdict(outcome(id)) && StoppedSteps(start, q.run.steps, done, id, status)
      && q.run.stages == SetStage(p.run, stageId, status).stages
      && q.started == p.started + if outcome(id).PausedBeforehand? then [] else [id]
  {
    FoundStatus(start, p.run.steps, done, id);
    StoppingMarks(start, p.run, done, id, StopStatus(outcome(id)));
    StageAfterStep(p.run, id, stageId, StopStatus(outcome(id)));
    TroubleRuns(p, id, stageId, outcome);
    hide FindStep, DistinctSteps, DoneSoFar, StoppedSteps, SetStep, SetStage, OnlyStatusDiffers, RunStep;
  }

  lemma TroubleRuns(p: Progress, id: string, stageId: string, outcome: string -> StepOutcome)
    requires FindStep(p.run.steps, id).Some? && FindStep(p.run.steps, id).value.status == RunStatus.Pending && !outcome(id).Succeeds?
    ensures RunStep(p, id, stageId, outcome) ==
      Progress(SetStage(SetStep(p.run, id, StopStatus(outcome(id))), stageId, StopStatus(outcome(id))),
               p.started + (if outcome(id).PausedBeforehand? then [] else [id]), StopVerdict(outcome(id)))
  {
    hide FindStep, SetStep, SetStage;
    assert p.started + [] == p.started;
  }

  lemma StoppingMarks(start: seq<Step>, run: Run, done: set<string>, id: string, status: RunStatus)
    requires DoneSoFar(start, run.steps, done) && id !in done
    ensures StoppedSteps(start, SetStep(run, id, status).steps, done, id, status)
  {
  }

  lemma StageAfterStep(run: Run, id: string, stageId: string, status: RunStatus)
    ensures SetStage(SetStep(run, id, status), stageId, status).stages == SetStage(run, stageId, status).stages
    ensures SetStage(SetStep(run, id, status), stageId, status).steps == SetStep(run, id, status).steps
  {
  }

  lemma StepsLoopGrows(p: Progress, ids: seq<string>, id: string, stageId: string, outcome: string -> StepOutcome)
    requires StepsLoop(p, ids, stageId, outcome).verdict.Going?
    ensures StepsLoop(p, ids + [id], stageId, outcome) == RunStep(StepsLoop(p, ids, stageId, outcome), id, stageId, outcome)
  {
    hide RunStep;
    assert Init(ids + [id]) == ids;
  }

  lemma TroubledSteps(p: Progress, a: seq<string>, x: string, b: seq<string>, stageId: string, outcome: string -> StepOutcome,
                      start: seq<Step>, done: set<string>)
    requires DistinctSteps(start) && PendingOrCompleted(start) && DoneSoFar(start, p.run.steps, done)
    requires p.verdict.Going? && Distinct(a + [x] + b) && !Smooth(start, x, outcome)
    requires forall id :: id in a + [x] + b ==> FindStep(start, id).Some? && id !in done
    requires forall id :: id in a ==> Smooth(start, id, outcome)
    ensures var q := StepsLoop(p, a + [x] + b, stageId, outcome); var status := StopStatus(outcome(x));
      && q.verdict == StopVerdict(outcome(x)) && StoppedSteps(start, q.run.steps, done + Elements(a), x, status)
      && q.run.stages == SetStage(p.run, stageId, status).stages
      && q.started == p.started + PendingOf(start, a) + if outcome(x).PausedBeforehand? then [] else [x]
  {
    var ids := a + [x] + b;
    Divided(a, x, b);
    hide RunStep, Smooth, DoneSoFar, DistinctSteps, PendingOrCompleted, StepsLoop, SetStage, FindStep, PendingOf, StoppedSteps, Distinct;
    SuccessfulSteps(p, a, stageId, outcome, start, done);
    var m := StepsLoop(p, a, stageId, outcome);
    StepsLoopGrows(p, a, x, stageId, outcome);
    TroubledStep(m, x, stageId, outcome, start, done + Elements(a));
    SameStagesSameMark(m.run, p.run, stageId, StopStatus(outcome(x)));
    StepsLoopStops(p, ids, |a| + 1, stageId, outcome);
  }

  lemma Divided(a: seq<string>, x: string, b: seq<string>)
    requires Distinct(a + [x] + b)
    ensures Distinct(a) && x !in a && x in a + [x] + b && (a + [x] + b)[..|a| + 1] == a + [x]
    ensures forall id :: id in a ==> id in a + [x] + b
  {
    var ids := a + [x] + b;
    assert forall i :: 0 <= i < |a| ==> a[i] == ids[i];
    assert ids[|a|] == x;
  }

  lemma SameStagesSameMark(run: Run, other: Run, stageId: string, status: RunStatus)
    requires run.stages == other.stages
    ensures SetStage(run, stageId, status).stages == SetStage(other, stageId, status).stages
  {
  }

  lemma StoppedMark(start: seq<Stage>, run: Run, earlier: seq<string>, stageId: string, status: RunStatus)
    requires StagesDoneSoFar(start, run.stages, earlier)
    ensures StoppedStages(start, SetStage(SetStage(run, stageId, RunStatus.Running), stageId, status).stages, earlier, stageId, status)
  {
  }

  /** A stage some pending step of which does not succeed. */
  lemma TroubledStage(p: Progress, start: Run, stageId: string, earlier: seq<string>, done: set<string>,
                      outcome: string -> StepOutcome, a: seq<string>, x: string, b: seq<string>)
    requires StageMajor(start) && StagesReady(start) && PendingOrCompleted(start.steps)
    requires Reached(start, p, earlier, done) && stageId !in earlier && StageIsNext(start, stageId, done)
    requires Order(start.steps, stageId) == a + [x] + b && !Smooth(start.steps, x, outcome)
    requires forall id :: id in a ==> Smooth(start.steps, id, outcome)
    ensures var q := RunStage(p, stageId, outcome); var status := StopStatus(outcome(x));
      && q.verdict == StopVerdict(outcome(x))
      && StoppedSteps(start.steps, q.run.steps, done + Elements(a), x, status)
      && StoppedStages(start.stages, q.run.stages, earlier, stageId, status)
      && q.started == p.started + PendingOf(start.steps, a) + if outcome(x).PausedBeforehand? then [] else [x]
  {
    StageMajorParts(start);
    OrderMembers(start.steps, stageId);
    OrderIncreases(start, stageId);
    IncreasingIsDistinct(start.steps, Order(start.steps, stageId));
    assert Order(start.steps, stageId)[|a|] == x;
    TroubledStageIsOpen(p, start, stageId, earlier, x, outcome);
    hide FindStage, FindStep, Order, PendingOrCompleted, DistinctSteps, StageMajor, StagesReady, RunStage, StoppedSteps, StoppedStages, PendingOf,
         Smooth, Reached, StageIsNext;
    OpenStageStops(p, start, stageId, earlier, done, outcome, a, x, b);
  }

  lemma TroubledStageIsOpen(p: Progress, start: Run, stageId: string, earlier: seq<string>, x: string, outcome: string -> StepOutcome)
    requires StageMajor(start) && StagesReady(start)
    requires StagesDoneSoFar(start.stages, p.run.stages, earlier) && stageId !in earlier
    requires x in Order(start.steps, stageId) && !Smooth(start.steps, x, outcome) && exists g :: g in start.stages && g.id == stageId
    ensures FindStage(p.run.stages, stageId).Some?
    ensures FindStage(p.run.stages, stageId).value.status in {RunStatus.Pending, RunStatus.Running}
  {
    StageMajorParts(start);
    var i := FoundStage(start.stages, p.run.stages, earlier, stageId);
    assert start.stages[i] in start.stages;
    if start.stages[i].status == RunStatus.Completed {
      CompletedStage(start, stageId, i);
    }
    hide FindStage, FindStep, Order, StageMajor, StagesDoneSoFar;
  }

  lemma OpenStageStops(p: Progress, start: Run, stageId: string, earlier: seq<string>, done: set<string>,
                       outcome: string -> StepOutcome, a: seq<string>, x: string, b: seq<string>)
    requires DistinctSteps(start.steps) && PendingOrCompleted(start.steps)
    requires Reached(start, p, earlier, done) && StageIsNext(start, stageId, done)
    requires Order(start.steps, stageId) == a + [x] + b && Distinct(a + [x] + b) && !Smooth(start.steps, x, outcome)
    requires forall id :: id in Order(start.steps, stageId) ==> FindStep(start.steps, id).Some?
    requires forall id :: id in a ==> Smooth(start.steps, id, outcome)
    requires FindStage(p.run.stages, stageId).Some?
    requires FindStage(p.run.stages, stageId).value.status in {RunStatus.Pending, RunStatus.Running}
    ensures var q := RunStage(p, stageId, outcome); var status := StopStatus(outcome(x));
      && q.verdict == StopVerdict(outcome(x))
      && StoppedSteps(start.steps, q.run.steps, done + Elements(a), x, status)
      && StoppedStages(start.stages, q.run.stages, earlier, stageId, status)
      && q.started == p.started + PendingOf(start.steps, a) + if outcome(x).PausedBeforehand? then [] else [x]
  {
    hide FindStage, FindStep, Order, PendingOrCompleted, DistinctSteps, StepsLoop, DependenciesMet, StageOrder, DoneSoFar, Distinct,
         StagesDoneSoFar, SetStage, Outline, StoppedSteps, StoppedStages, PendingOf, Smooth;
    var running := p.(run := SetStage(p.run, stageId, RunStatus.Running));
    SameOutline(start.steps, p.run.steps, done);
    OrderOfStage(p.run, start.steps, stageId);
    SameOrderOnceRunning(p.run, stageId, RunStatus.Running);
    DependenciesAreMet(running.run, start, stageId, done);
    assert |StepIds(StageOrder(p.run, stageId))| > 0;
    TroubledSteps(running, a, x, b, stageId, outcome, start.steps, done);
    StoppedMark(start.stages, p.run, earlier, stageId, StopStatus(outcome(x)));
  }

  /** The first place at which the loop meets a pending step that does not succeed. */
  lemma {:induction false} FirstTrouble(steps: seq<Step>, ids: seq<string>, outcome: string -> StepOutcome)
    returns (a: seq<string>, x: string, b: seq<string>)
    requires exists id :: id in ids && !Smooth(steps, id, outcome)
    ensures ids == a + [x] + b && !Smooth(steps, x, outcome) && forall id :: id in a ==> Smooth(steps, id, outcome)
  {
    hide Smooth;
    assert ids == Init(ids) + [Last(ids)];
    if exists id :: id in Init(ids) && !Smooth(steps, id, outcome) {
      a, x, b := FirstTrouble(steps, Init(ids), outcome);
      b := b + [Last(ids)];
    } else {
      a, x, b := Init(ids), Last(ids), [];
    }
  }

  lemma {:induction false} FirstTroubledStage(start: Run, k: nat, outcome: string -> StepOutcome) returns (j: nat)
    requires k <= |StageSchedule(start)|
    requires exists id :: id in Schedule(start.steps, StageSchedule(start)[..k]) && !Smooth(start.steps, id, outcome)
    ensures j < k && forall id :: id in Schedule(start.steps, StageSchedule(start)[..j]) ==> Smooth(start.steps, id, outcome)
    ensures exists id :: id in Order(start.steps, StageSchedule(start)[j]) && !Smooth(start.steps, id, outcome)
  {
    hide Smooth, Order, StageSchedule;
    var gs := StageSchedule(start);
    if k > 0 {
      assert Init(gs[..k]) == gs[..k - 1];
      if exists id :: id in Schedule(start.steps, gs[..k - 1]) && !Smooth(start.steps, id, outcome) {
        j := FirstTroubledStage(start, k - 1, outcome);
      } else {
        j := k - 1;
      }
    }
  }

  lemma {:induction false} SchedulePrefix(steps: seq<Step>, gs: seq<string>, j: nat) returns (rest: seq<string>)
    requires j <= |gs|
    ensures Schedule(steps, gs) == Schedule(steps, gs[..j]) + rest
  {
    hide Order;
    if j == |gs| {
      assert gs[..j] == gs;
      rest := [];
    } else {
      assert Init(gs)[..j] == gs[..j];
      rest := SchedulePrefix(steps, Init(gs), j);
      rest := rest + Order(steps, Last(gs));
    }
  }

  ghost predicate StageBefore(run: Run, g: Stage, x: Step) {
    exists h :: h in run.stages && h.id == x.stageId && g.sequence < h.sequence
  }

  /** A pending step before `x`, or `x` itself if it came to run. */
  predicate PendingUpTo(steps: seq<Step>, x: Step, ran: bool, id: string) {
    exists s :: s in steps && s.id == id && s.status == RunStatus.Pending && (s.sequence < x.sequence || (s.id == x.id && ran))
  }

  /** Exactly these were started, once each and in order. */
  ghost predicate StartedUpTo(steps: seq<Step>, started: seq<string>, x: Step, ran: bool) {
    Increasing(steps, started) && forall id :: id in started <==> PendingUpTo(steps, x, ran, id)
  }

  ghost predicate StepsStopAt(steps: seq<Step>, now: seq<Step>, x: Step, status: RunStatus) {
    && OnlyStatusDiffers(steps, now)
    && forall i :: 0 <= i < |steps| ==>
         now[i].status == if steps[i].sequence < x.sequence then RunStatus.Completed
                          else if steps[i].id == x.id then status else steps[i].status
  }

  ghost predicate StagesStopAt(start: Run, now: seq<Stage>, x: Step, status: RunStatus) {
    && OnlyStageStatusDiffers(start.stages, now)
    && forall i :: 0 <= i < |start.stages| ==>
         now[i].status == if start.stages[i].id == x.stageId then status
                          else if StageBefore(start, start.stages[i], x) then RunStatus.Completed else start.stages[i].status
  }

  /** The loop has stopped at the step `x`, with the outcome `o`. */
  ghost predicate StopsAt(start: Run, q: Progress, x: Step, o: StepOutcome) {
    && q.verdict == StopVerdict(o) && StartedUpTo(start.steps, q.started, x, !o.PausedBeforehand?)
    && StepsStopAt(start.steps, q.run.steps, x, StopStatus(o)) && StagesStopAt(start, q.run.stages, x, StopStatus(o))
  }

  /** These are the ids of the steps. */
  ghost predicate NamesAll(steps: seq<Step>, ids: seq<string>) {
    forall id :: id in ids <==> exists s :: s in steps && s.id == id
  }

  /** `before` names the steps with a lower sequence than `x`, in order. */
  ghost predicate LeadsUpTo(steps: seq<Step>, before: seq<string>, x: Step) {
    && (forall id :: id in before ==> exists s :: s in steps && s.id == id)
    && (forall s :: s in steps ==> (s.id in before <==> s.sequence < x.sequence))
    && Increasing(steps, before) && Increasing(steps, before + [x.id])
  }

  /** The steps before `x` in the schedule are those with a lower sequence. */
  lemma BeforeIsEarlier(steps: seq<Step>, before: seq<string>, x: Step, rest: seq<string>)
    requires DistinctSteps(steps) && x in steps
    requires Increasing(steps, before + [x.id] + rest) && NamesAll(steps, before + [x.id] + rest)
    ensures LeadsUpTo(steps, before, x)
  {
    var all := before + [x.id] + rest;
    hide FindStep, DistinctSteps, SequenceOf;
    FoundSequence(steps, x);
    assert all[|before|] == x.id;
    assert forall id :: id in before ==> id in all;
    forall s | s in steps
      ensures s.id in before <==> s.sequence < x.sequence
    {
      FoundSequence(steps, s);
      assert s.id in all;
      var m :| 0 <= m < |all| && all[m] == s.id;
      if s.id in before {
        var k :| 0 <= k < |before| && before[k] == s.id;
        assert all[k] == s.id;
        assert SequenceOf(steps, all[k]) < SequenceOf(steps, all[|before|]);
      } else {
        assert m >= |before|;
        assert m == |before| || SequenceOf(steps, all[|before|]) < SequenceOf(steps, all[m]);
      }
    }
    assert forall i :: 0 <= i < |before| ==> before[i] == all[i] && (before + [x.id])[i] == all[i];
  }

  lemma FoundSequence(steps: seq<Step>, s: Step)
    requires DistinctSteps(steps) && s in steps
    ensures SequenceOf(steps, s.id) == s.sequence && FindStep(steps, s.id) == Some(s)
  {
    FoundIfPresent(steps, s);
  }

  /** The stages scheduled before that of `x` are those with a lower sequence. */
  lemma EarlierStages(start: Run, j: nat, x: Step)
    requires DistinctStages(start.stages) && j < |StageSchedule(start)| && StageSchedule(start)[j] == x.stageId
    ensures forall g :: g in start.stages ==> (g.id in StageSchedule(start)[..j] <==> StageBefore(start, g, x))
  {
    var gs, sorted := StageSchedule(start), SortStages(start.stages);
    SortStagesOrders(start.stages);
    var h := sorted[j];
    assert h in sorted;
    forall g | g in start.stages
      ensures g.id in gs[..j] <==> StageBefore(start, g, x)
    {
      assert g in sorted;
      var m :| 0 <= m < |sorted| && sorted[m] == g;
      if g.id in gs[..j] {
        var k :| 0 <= k < j && gs[k] == g.id;
        assert k == m;
      }
      if StageBefore(start, g, x) {
        var h' :| h' in start.stages && h'.id == x.stageId && g.sequence < h'.sequence;
        assert h' in sorted;
        var n :| 0 <= n < |sorted| && sorted[n] == h';
        assert n == j;
        assert m < j;
        assert gs[..j][m] == g.id;
      }
    }
  }

  /** The loop up to and including the stage in which the first trouble occurs. */
  lemma LoopUntilTrouble(start: Run, j: nat, a: seq<string>, x: string, b: seq<string>, outcome: string -> StepOutcome)
    requires StageMajor(start) && StagesReady(start) && PendingOrCompleted(start.steps) && j < |StageSchedule(start)|
    requires forall id :: id in Schedule(start.steps, StageSchedule(start)[..j]) ==> Smooth(start.steps, id, outcome)
    requires Order(start.steps, StageSchedule(start)[j]) == a + [x] + b && !Smooth(start.steps, x, outcome)
    requires forall id :: id in a ==> Smooth(start.steps, id, outcome)
    ensures var q := Continue(start, outcome); var gs := StageSchedule(start); var status := StopStatus(outcome(x));
            var before := Schedule(start.steps, gs[..j]) + a;
      && q.verdict == StopVerdict(outcome(x))
      && StoppedSteps(start.steps, q.run.steps, Elements(before), x, status)
      && StoppedStages(start.stages, q.run.stages, gs[..j], gs[j], status)
      && q.started == PendingOf(start.steps, before) + if outcome(x).PausedBeforehand? then [] else [x]
  {
    hide StageMajor, StagesReady, PendingOrCompleted, Schedule, Order, Smooth, StageSchedule, StagesLoop, RunStage, PendingOf, StoppedSteps,
         StoppedStages, Reached, StageIsNext, DistinctStages, DistinctSteps;
    var gs := StageSchedule(start);
    var none := Progress(start, [], Going);
    AllStagesDistinct(start);
    SuccessfulStages(start, j, outcome);
    CoveredMeans(start, gs[..j], outcome);
    NextStage(start, j);
    NotScheduledBefore(start, j);
    var done := Schedule(start.steps, gs[..j]);
    TroubledStage(StagesLoop(none, gs[..j], outcome), start, gs[j], gs[..j], Elements(done), outcome, a, x, b);
    LoopGrows(none, gs[..j], gs[j], outcome);
    assert gs[..j + 1] == gs[..j] + [gs[j]];
    StagesLoopStops(none, gs, j + 1, outcome);
    PendingOfSplits(start.steps, done, a);
    assert Elements(done) + Elements(a) == Elements(done + a);
  }

  lemma StoppedMeans(start: Run, q: Progress, before: seq<string>, x: Step, earlier: seq<string>, o: StepOutcome)
    requires DistinctSteps(start.steps) && x in start.steps && x.status == RunStatus.Pending
    requires q.verdict == StopVerdict(o) && q.started == PendingOf(start.steps, before) + if o.PausedBeforehand? then [] else [x.id]
    requires StoppedSteps(start.steps, q.run.steps, Elements(before), x.id, StopStatus(o))
    requires StoppedStages(start.stages, q.run.stages, earlier, x.stageId, StopStatus(o))
    requires LeadsUpTo(start.steps, before, x)
    requires forall g :: g in start.stages ==> (g.id in earlier <==> StageBefore(start, g, x))
    ensures StopsAt(start, q, x, o)
  {
    hide Increasing, FindStep, PendingOf, DistinctSteps, StageBefore, StoppedSteps, StoppedStages, StartedUpTo, StepsStopAt, StagesStopAt,
         LeadsUpTo;
    StartedUntil(start.steps, q.started, before, x, !o.PausedBeforehand?);
    StoppedStepsMean(start.steps, q.run.steps, before, x, StopStatus(o));
    StoppedStagesMean(start, q.run.stages, x, earlier, StopStatus(o));
  }

  lemma StoppedStepsMean(steps: seq<Step>, now: seq<Step>, before: seq<string>, x: Step, status: RunStatus)
    requires StoppedSteps(steps, now, Elements(before), x.id, status)
    requires LeadsUpTo(steps, before, x)
    ensures StepsStopAt(steps, now, x, status)
  {
    assert forall i :: 0 <= i < |steps| ==> steps[i] in steps;
  }

  lemma StoppedStagesMean(start: Run, now: seq<Stage>, x: Step, earlier: seq<string>, status: RunStatus)
    requires StoppedStages(start.stages, now, earlier, x.stageId, status)
    requires forall g :: g in start.stages ==> (g.id in earlier <==> StageBefore(start, g, x))
    ensures StagesStopAt(start, now, x, status)
  {
    hide StageBefore;
    assert forall i :: 0 <= i < |start.stages| ==> start.stages[i] in start.stages;
  }

  lemma StartedUntil(steps: seq<Step>, started: seq<string>, before: seq<string>, x: Step, ran: bool)
    requires DistinctSteps(steps) && x in steps && x.status == RunStatus.Pending
    requires started == PendingOf(steps, before) + if ran then [x.id] else []
    requires LeadsUpTo(steps, before, x)
    ensures StartedUpTo(steps, started, x, ran)
  {
    hide DistinctSteps, FindStep, Increasing, PendingOf, LeadsUpTo, PendingUpTo;
    StartedIncreases(steps, started, before, x, ran);
    forall id
      ensures id in started <==> PendingUpTo(steps, x, ran, id)
    {
      StartedMember(steps, started, before, x, ran, id);
    }
  }

  lemma StartedIncreases(steps: seq<Step>, started: seq<string>, before: seq<string>, x: Step, ran: bool)
    requires DistinctSteps(steps) && x in steps && x.status == RunStatus.Pending && LeadsUpTo(steps, before, x)
    requires started == PendingOf(steps, before) + if ran then [x.id] else []
    ensures Increasing(steps, started)
  {
    hide DistinctSteps, FindStep, Increasing, PendingOf, LeadsUpTo;
    FoundIfPresent(steps, x);
    PendingOfAppend(steps, before, x.id);
    UpToIncreases(steps, before, x);
    assert PendingOf(steps, before) + [] == PendingOf(steps, before);
  }

  lemma StartedMember(steps: seq<Step>, started: seq<string>, before: seq<string>, x: Step, ran: bool, id: string)
    requires DistinctSteps(steps) && x in steps && x.status == RunStatus.Pending && LeadsUpTo(steps, before, x)
    requires started == PendingOf(steps, before) + if ran then [x.id] else []
    ensures id in started <==> PendingUpTo(steps, x, ran, id)
  {
    PendingBefore(steps, before, x, id);
    hide DistinctSteps, PendingOf, LeadsUpTo;
  }

  lemma UpToIncreases(steps: seq<Step>, before: seq<string>, x: Step)
    requires LeadsUpTo(steps, before, x)
    ensures Increasing(steps, PendingOf(steps, before)) && Increasing(steps, PendingOf(steps, before + [x.id]))
  {
    PendingIncreases(steps, before);
    PendingIncreases(steps, before + [x.id]);
  }

  lemma PendingBefore(steps: seq<Step>, before: seq<string>, x: Step, id: string)
    requires DistinctSteps(steps) && x in steps && x.status == RunStatus.Pending
    requires LeadsUpTo(steps, before, x)
    ensures id in PendingOf(steps, before) <==>
      exists s :: s in steps && s.id == id && s.status == RunStatus.Pending && s.sequence < x.sequence
  {
    hide DistinctSteps, FindStep;
    if s :| s in steps && s.id == id {
      FoundIfPresent(steps, s);
      forall t | t in steps && t.id == id
        ensures t == s
      {
        FoundIfPresent(steps, t);
      }
    }
  }

  /** The first pending step that does not succeed stops the loop, whatever the outcomes after it: the pending steps before it
      have been started, each once, in increasing sequence, and completed, it is the last one started unless it was paused
      beforehand, it and its stage have failed or wait for a review, and nothing behind it has changed. */
  lemma ContinueStopsAtTrouble(start: Run, outcome: string -> StepOutcome) returns (x: Step)
    requires StageMajor(start) && StagesReady(start) && PendingOrCompleted(start.steps)
    requires exists s :: s in start.steps && s.status == RunStatus.Pending && !outcome(s.id).Succeeds?
    ensures x in start.steps && x.status == RunStatus.Pending && !outcome(x.id).Succeeds?
    ensures forall s :: s in start.steps && s.status == RunStatus.Pending && s.sequence < x.sequence ==> outcome(s.id).Succeeds?
    ensures StopsAt(start, Continue(start, outcome), x, outcome(x.id))
  {
    var gs := StageSchedule(start);
    assert gs[..|gs|] == gs;
    EverythingScheduled(start);
    AllStagesDistinct(start);
    SomeTrouble(start.steps, outcome);
    hide StageMajor, StagesReady, PendingOrCompleted, Schedule, Order, Smooth, StageSchedule, Continue, PendingOf, DistinctStages, DistinctSteps,
         StopsAt, FindStep;
    var j := FirstTroubledStage(start, |gs|, outcome);
    var a, id, b := FirstTrouble(start.steps, Order(start.steps, gs[j]), outcome);
    OrderMembers(start.steps, gs[j]);
    assert Order(start.steps, gs[j])[|a|] == id;
    x :| x in start.steps && x.id == id && x.stageId == gs[j];
    NotSmooth(start.steps, x, outcome);
    StopsThere(start, j, a, x, b, outcome);
  }

  /** The trouble is at `x`, behind the steps of `a` in the stage `j`. */
  lemma StopsThere(start: Run, j: nat, a: seq<string>, x: Step, b: seq<string>, outcome: string -> StepOutcome)
    requires StageMajor(start) && StagesReady(start) && PendingOrCompleted(start.steps) && j < |StageSchedule(start)|
    requires x in start.steps && x.status == RunStatus.Pending && x.stageId == StageSchedule(start)[j]
    requires forall id :: id in Schedule(start.steps, StageSchedule(start)[..j]) ==> Smooth(start.steps, id, outcome)
    requires Order(start.steps, StageSchedule(start)[j]) == a + [x.id] + b && !Smooth(start.steps, x.id, outcome)
    requires forall id :: id in a ==> Smooth(start.steps, id, outcome)
    ensures forall s :: s in start.steps && s.status == RunStatus.Pending && s.sequence < x.sequence ==> outcome(s.id).Succeeds?
    ensures StopsAt(start, Continue(start, outcome), x, outcome(x.id))
  {
    var gs := StageSchedule(start);
    var before := Schedule(start.steps, gs[..j]) + a;
    AllStagesDistinct(start);
    TroublePlace(start, j, a, x, b);
    hide StageMajor, StagesReady, PendingOrCompleted, Schedule, Order, Smooth, StageSchedule, Continue, PendingOf, StoppedSteps, StoppedStages,
         DistinctStages, DistinctSteps, Increasing, StopsAt, FindStep, LeadsUpTo;
    LoopUntilTrouble(start, j, a, x.id, b, outcome);
    EarlierStages(start, j, x);
    StoppedMeans(start, Continue(start, outcome), before, x, gs[..j], outcome(x.id));
    forall s | s in start.steps && s.status == RunStatus.Pending && s.sequence < x.sequence
      ensures outcome(s.id).Succeeds?
    {
      LedUpTo(start.steps, before, x, s);
      SmoothMeans(start.steps, s, outcome);
    }
  }

  lemma LedUpTo(steps: seq<Step>, before: seq<string>, x: Step, s: Step)
    requires LeadsUpTo(steps, before, x) && s in steps && s.sequence < x.sequence
    ensures s.id in before
  {
  }

  lemma TroublePlace(start: Run, j: nat, a: seq<string>, x: Step, b: seq<string>)
    requires StageMajor(start) && j < |StageSchedule(start)| && x in start.steps
    requires Order(start.steps, StageSchedule(start)[j]) == a + [x.id] + b
    ensures LeadsUpTo(start.steps, Schedule(start.steps, StageSchedule(start)[..j]) + a, x)
  {
    var rest := ScheduleSplits(start, j, a, x.id, b);
    AllStagesDistinct(start);
    WholeSchedule(start);
    hide StageMajor, Schedule, Order, StageSchedule, DistinctStages, DistinctSteps, Increasing, NamesAll, LeadsUpTo;
    BeforeIsEarlier(start.steps, Schedule(start.steps, StageSchedule(start)[..j]) + a, x, rest);
  }

  lemma ScheduleSplits(start: Run, j: nat, a: seq<string>, x: string, b: seq<string>) returns (rest: seq<string>)
    requires j < |StageSchedule(start)| && Order(start.steps, StageSchedule(start)[j]) == a + [x] + b
    ensures Schedule(start.steps, StageSchedule(start)) == Schedule(start.steps, StageSchedule(start)[..j]) + a + [x] + rest
  {
    var gs := StageSchedule(start);
    assert Init(gs[..j + 1]) == gs[..j];
    hide Order, StageSchedule;
    rest := SchedulePrefix(start.steps, gs, j + 1);
    assert Schedule(start.steps, gs[..j + 1]) == Schedule(start.steps, gs[..j]) + Order(start.steps, gs[j]);
    Reassociate(Schedule(start.steps, gs[..j]), a, [x], b, rest);
    rest := b + rest;
  }

  lemma Reassociate(a: seq<string>, b: seq<string>, c: seq<string>, d: seq<string>, e: seq<string>)
    ensures a + (b + c + d) + e == (a + b) + c + (d + e)
  {
  }

  lemma WholeSchedule(start: Run)
    requires StageMajor(start)
    ensures NamesAll(start.steps, Schedule(start.steps, StageSchedule(start)))
    ensures Increasing(start.steps, Schedule(start.steps, StageSchedule(start)))
  {
    var gs := StageSchedule(start);
    assert gs[..|gs|] == gs;
    EverythingScheduled(start);
    ScheduleIncreases(start, |gs|);
  }

  lemma SomeTrouble(steps: seq<Step>, outcome: string -> StepOutcome)
    requires DistinctSteps(steps)
    ensures forall s :: s in steps && s.status == RunStatus.Pending && !outcome(s.id).Succeeds? ==> !Smooth(steps, s.id, outcome)
  {
    hide DistinctSteps, FindStep;
    forall s | s in steps
      ensures FindStep(steps, s.id) == Some(s)
    {
      FoundIfPresent(steps, s);
    }
  }

  lemma NotSmooth(steps: seq<Step>, x: Step, outcome: string -> StepOutcome)
    requires DistinctSteps(steps) && x in steps && !Smooth(steps, x.id, outcome)
    ensures x.status == RunStatus.Pending && !outcome(x.id).Succeeds?
  {
    FoundIfPresent(steps, x);
  }

  lemma SmoothMeans(steps: seq<Step>, s: Step, outcome: string -> StepOutcome)
    requires DistinctSteps(steps) && s in steps && s.status == RunStatus.Pending && Smooth(steps, s.id, outcome)
    ensures outcome(s.id).Succeeds?
  {
    FoundIfPresent(steps, s);
  }

  /** The run is completed exactly when every pending step succeeds. */
  lemma RunCompletesExactly(start: Run, outcome: string -> StepOutcome)
    requires StageMajor(start) && StagesReady(start) && PendingOrCompleted(start.steps)
    ensures var q := Continue(start, outcome);
      q.verdict.Going? && (forall s :: s in q.run.steps ==> s.status == RunStatus.Completed) <==>
        forall s :: s in start.steps && s.status == RunStatus.Pending ==> outcome(s.id).Succeeds?
  {
    hide StageMajor, StagesReady, PendingOrCompleted, Continue, Increasing, OnlyStatusDiffers, OnlyStageStatusDiffers;
    if forall s :: s in start.steps && s.status == RunStatus.Pending ==> outcome(s.id).Succeeds? {
      ContinueCoversPending(start, outcome);
    } else {
      var x := ContinueStopsAtTrouble(start, outcome);
    }
  }

  // ----- Resuming -----

  lemma Original(steps: seq<Step>, now: seq<Step>, s: Step) returns (o: Step)
    requires OnlyStatusDiffers(steps, now) && s in now
    ensures o in steps && s == o.(status := s.status)
  {
    var i :| 0 <= i < |now| && now[i] == s;
    o := steps[i];
  }

  lemma Current(steps: seq<Step>, now: seq<Step>, o: Step) returns (s: Step)
    requires OnlyStatusDiffers(steps, now) && o in steps
    ensures s in now && s == o.(status := s.status)
  {
    var i :| 0 <= i < |steps| && steps[i] == o;
    s := now[i];
  }

  lemma OriginalStage(stages: seq<Stage>, now: seq<Stage>, g: Stage) returns (o: Stage)
    requires OnlyStageStatusDiffers(stages, now) && g in now
    ensures o in stages && g == o.(status := g.status)
  {
    var i :| 0 <= i < |now| && now[i] == g;
    o := stages[i];
  }

  lemma CurrentStage(stages: seq<Stage>, now: seq<Stage>, o: Stage) returns (g: Stage)
    requires OnlyStageStatusDiffers(stages, now) && o in stages
    ensures g in now && g == o.(status := g.status)
  {
    var i :| 0 <= i < |stages| && stages[i] == o;
    g := now[i];
  }

  lemma SameStageOrder(stages: seq<Stage>, now: seq<Stage>, s: Step, t: Step, s': Step, t': Step)
    requires OnlyStageStatusDiffers(stages, now) && s.stageId == s'.stageId && t.stageId == t'.stageId
    ensures InOrder(s', t', now) <==> InOrder(s, t, stages)
  {
    if InOrder(s', t', now) {
      var a', b' :| a' in now && b' in now && a'.id == s'.stageId && b'.id == t'.stageId && a'.sequence < b'.sequence;
      var a := OriginalStage(stages, now, a');
      var b := OriginalStage(stages, now, b');
    }
    if InOrder(s, t, stages) {
      var a, b :| a in stages && b in stages && a.id == s.stageId && b.id == t.stageId && a.sequence < b.sequence;
      var a' := CurrentStage(stages, now, a);
      var b' := CurrentStage(stages, now, b);
    }
  }

  lemma DistinctIgnoresStatus(steps: seq<Step>, now: seq<Step>)
    requires DistinctSteps(steps) && OnlyStatusDiffers(steps, now)
    ensures DistinctSteps(now)
  {
    assert forall i :: 0 <= i < |now| ==> Sequence(now[i]) == Sequence(steps[i]);
  }

  lemma PairsIgnoreStatus(run: Run, run': Run, s': Step, t': Step)
    requires StageMajor(run) && OnlyStatusDiffers(run.steps, run'.steps) && OnlyStageStatusDiffers(run.stages, run'.stages)
    requires s' in run'.steps && t' in run'.steps
    ensures InOrder(s', t', run'.stages) ==> s'.sequence < t'.sequence
    ensures s'.stageId == t'.stageId && s'.sequence < t'.sequence ==> OrderKey(s') < OrderKey(t')
  {
    var s := Original(run.steps, run'.steps, s');
    var t := Original(run.steps, run'.steps, t');
    SameStageOrder(run.stages, run'.stages, s, t, s', t');
  }

  lemma PlacesIgnoreStatus(run: Run, run': Run, s': Step)
    requires StageMajor(run) && OnlyStatusDiffers(run.steps, run'.steps) && OnlyStageStatusDiffers(run.stages, run'.stages)
    requires s' in run'.steps
    ensures HasItsStage(s', run'.stages)
    ensures forall d :: d in s'.dependsOn ==> DependencyPlaced(run', s', d)
  {
    var s := Original(run.steps, run'.steps, s');
    assert HasItsStage(s, run.stages);
    var g :| g in run.stages && g.id == s.stageId;
    var g' := CurrentStage(run.stages, run'.stages, g);
    forall d | d in s'.dependsOn
      ensures DependencyPlaced(run', s', d)
    {
      assert DependencyPlaced(run, s, d);
      var t :| t in run.steps && t.id == d && (t.stageId == s.stageId || InOrder(t, s, run.stages));
      var t' := Current(run.steps, run'.steps, t);
      SameStageOrder(run.stages, run'.stages, t, s, t', s');
    }
  }

  lemma StageMajorIgnoresStatus(run: Run, run': Run)
    requires StageMajor(run) && OnlyStatusDiffers(run.steps, run'.steps) && OnlyStageStatusDiffers(run.stages, run'.stages)
    ensures StageMajor(run')
  {
    DistinctIgnoresStatus(run.steps, run'.steps);
    assert DistinctStages(run'.stages);
    hide OnlyStatusDiffers, OnlyStageStatusDiffers, InOrder, HasItsStage, DependencyPlaced, DistinctSteps, DistinctStages;
    forall s, t | s in run'.steps && t in run'.steps
      ensures InOrder(s, t, run'.stages) ==> s.sequence < t.sequence
      ensures s.stageId == t.stageId && s.sequence < t.sequence ==> OrderKey(s) < OrderKey(t)
    {
      PairsIgnoreStatus(run, run', s, t);
    }
    forall s | s in run'.steps
      ensures HasItsStage(s, run'.stages)
      ensures forall d :: d in s.dependsOn ==> DependencyPlaced(run', s, d)
    {
      PlacesIgnoreStatus(run, run', s);
    }
  }

  lemma AppliedRun(run: Run, c: StateStore.Checkpoint, totalSteps: int)
    requires StageMajor(run)
    ensures var r := ApplyCheckpoint(run, c, totalSteps);
      && OnlyStatusDiffers(run.steps, r.steps) && OnlyStageStatusDiffers(run.stages, r.stages)
      && StagesReady(r) && PendingOrCompleted(r.steps)
      && forall i :: 0 <= i < |run.steps| ==>
           (r.steps[i].status == RunStatus.Pending <==> Rank(run.steps, run.steps[i].sequence) > c.lastCompleted)
  {
    var r := ApplyCheckpoint(run, c, totalSteps);
    assert DistinctSteps(run.steps);
    var sorted := BySequence(run.steps);
    MarksLeaveStages(run, sorted, c.lastCompleted, |sorted|);
    hide ApplyCheckpoint, StageMajor, Rank, DistinctSteps;
    AppliedShape(run, c, totalSteps);
    forall i | 0 <= i < |run.steps|
      ensures r.steps[i].status in {RunStatus.Pending, RunStatus.Completed}
      ensures r.steps[i].status == RunStatus.Pending <==> Rank(run.steps, run.steps[i].sequence) > c.lastCompleted
    {
      AppliedSteps(run, c, totalSteps, i);
    }
    forall g | g in r.stages
      ensures g.status in {RunStatus.Pending, RunStatus.Running, RunStatus.Completed}
      ensures g.status == RunStatus.Completed ==>
        forall s :: s in r.steps && s.stageId == g.id ==> s.status == RunStatus.Completed
    {
      var a :| 0 <= a < |r.stages| && r.stages[a] == g;
      AppliedStages(run, c, totalSteps, a);
    }
  }

  lemma AppliedShape(run: Run, c: StateStore.Checkpoint, totalSteps: int)
    requires DistinctSteps(run.steps)
    ensures var r := ApplyCheckpoint(run, c, totalSteps);
      OnlyStatusDiffers(run.steps, r.steps) && OnlyStageStatusDiffers(run.stages, r.stages)
  {
    hide MarkSteps, MarkStages, ActiveStage, BySequence, DistinctSteps;
    var r := ApplyCheckpoint(run, c, totalSteps);
    var sorted := BySequence(run.steps);
    MarksLeaveStages(run, sorted, c.lastCompleted, |sorted|);
    MarksLeaveSteps(run, sorted, c.lastCompleted, |sorted|);
    var marked := MarkSteps(run, sorted, c.lastCompleted, |sorted|);
    var active := ActiveStage(sorted, c.currentStep);
    StagesLeaveSteps(marked, StageIds(run.stages), active, c.status.Running?);
    StagesLeaveShape(marked, StageIds(run.stages), active, c.status.Running?);
  }

  lemma {:induction false} MarksLeaveSteps(run: Run, sorted: seq<Step>, last: int, n: nat)
    requires n <= |sorted|
    ensures OnlyStatusDiffers(run.steps, MarkSteps(run, sorted, last, n).steps)
  {
    if n > 0 {
      MarksLeaveSteps(run, sorted, last, n - 1);
    }
  }

  lemma {:induction false} StagesLeaveShape(run: Run, ids: seq<string>, active: Option<string>, running: bool)
    ensures OnlyStageStatusDiffers(run.stages, MarkStages(run, ids, active, running).stages)
  {
    if ids != [] {
      StagesLeaveShape(run, Init(ids), active, running);
    }
  }

  lemma {:induction false} SameSequences(steps: seq<Step>, now: seq<Step>, id: string)
    requires OnlyStatusDiffers(steps, now)
    ensures SequenceOf(now, id) == SequenceOf(steps, id)
  {
    if steps != [] && steps[0].id != id {
      SameSequences(steps[1..], now[1..], id);
    }
  }

  /** Resuming from a checkpoint runs exactly the remainder: with no pause and no failure, the steps started are those past
      the first `lastCompleted + 1` by sequence, each once and in increasing sequence, and then everything is completed. */
  lemma ResumeCoversTheRemainder(run: Run, c: StateStore.Checkpoint, totalSteps: int, outcome: string -> StepOutcome)
    requires StageMajor(run)
    requires forall s :: s in run.steps && Rank(run.steps, s.sequence) > c.lastCompleted ==> outcome(s.id).Succeeds?
    ensures var q := Continue(ApplyCheckpoint(run, c, totalSteps), outcome);
      && q.verdict.Going?
      && Increasing(run.steps, q.started)
      && (forall id :: id in q.started <==>
            exists s :: s in run.steps && s.id == id && Rank(run.steps, s.sequence) > c.lastCompleted)
      && (forall s :: s in q.run.steps ==> s.status == RunStatus.Completed)
      && (forall g :: g in q.run.stages ==> g.status == RunStatus.Completed)
  {
    hide StageMajor, StagesReady, PendingOrCompleted, ApplyCheckpoint, Continue, Rank, Increasing, OnlyStageStatusDiffers;
    var r := ApplyCheckpoint(run, c, totalSteps);
    AppliedRun(run, c, totalSteps);
    StageMajorIgnoresStatus(run, r);
    forall s | s in r.steps && s.status == RunStatus.Pending
      ensures outcome(s.id).Succeeds?
    {
      PendingIsRemainder(run, r, c.lastCompleted, s.id);
    }
    ContinueCoversPending(r, outcome);
    var q := Continue(r, outcome);
    IncreasingIgnoresStatus(run.steps, r.steps, q.started);
    forall id
      ensures id in q.started <==> exists s :: s in run.steps && s.id == id && Rank(run.steps, s.sequence) > c.lastCompleted
    {
      PendingIsRemainder(run, r, c.lastCompleted, id);
    }
  }

  lemma IncreasingIgnoresStatus(steps: seq<Step>, now: seq<Step>, ids: seq<string>)
    requires OnlyStatusDiffers(steps, now) && Increasing(now, ids)
    ensures Increasing(steps, ids)
  {
    hide OnlyStatusDiffers, SequenceOf;
    forall i, j | 0 <= i < j < |ids|
      ensures SequenceOf(steps, ids[i]) < SequenceOf(steps, ids[j])
    {
      SameSequences(steps, now, ids[i]);
      SameSequences(steps, now, ids[j]);
    }
  }

  lemma PendingIsRemainder(run: Run, r: Run, last: int, id: string)
    requires OnlyStatusDiffers(run.steps, r.steps)
    requires forall i :: 0 <= i < |run.steps| ==>
      (r.steps[i].status == RunStatus.Pending <==> Rank(run.steps, run.steps[i].sequence) > last)
    ensures (exists s :: s in r.steps && s.id == id && s.status == RunStatus.Pending)
       <==> exists s :: s in run.steps && s.id == id && Rank(run.steps, s.sequence) > last
  {
    hide Rank;
    if s :| s in run.steps && s.id == id && Rank(run.steps, s.sequence) > last {
      var i :| 0 <= i < |run.steps| && run.steps[i] == s;
      assert r.steps[i] in r.steps;
    }
    if s :| s in r.steps && s.id == id && s.status == RunStatus.Pending {
      var i :| 0 <= i < |r.steps| && r.steps[i] == s;
      assert run.steps[i] in run.steps;
    }
  }
}
