/** services/dependencyResolver.js: cycle detection over declared dependencies, and the ready/deferred partition. */
module DependencyResolver {
  import opened Common

  /** A step as a planner hands it over; an empty string stands for an absent id or prerequisite. */
  datatype RawStep = RawStep(id: string, dependsOn: Option<seq<string>>, requiresPrerequisite: string)

  datatype Step = Step(id: string, dependsOn: seq<string>)

  type Graph = map<string, seq<string>>

  // ----- Normalisation -----

  function NonEmpty(values: seq<string>): (r: seq<string>)
    ensures forall v :: v in r <==> v in values && v != ""
  {
    if values == [] then []
    else if Last(values) == "" then NonEmpty(Init(values))
    else NonEmpty(Init(values)) + [Last(values)]
  }

  /** `[...new Set(values)]`: the first occurrence of each value, in order. */
  function Dedup(values: seq<string>): (r: seq<string>)
    ensures forall v :: v in r <==> v in values
    ensures Distinct(r)
  {
    if values == [] then []
    else
      var r := Dedup(Init(values));
      if Last(values) in r then r else r + [Last(values)]
  }

  predicate FirstAt(values: seq<string>, k: nat) {
    k < |values| && values[k] !in values[..k]
  }

  /** The values stay in the order in which they first appear. */
  lemma {:induction false} DedupKeepsOrder(values: seq<string>, i: nat, j: nat) returns (k: nat, l: nat)
    requires i < j < |Dedup(values)|
    ensures k < l && FirstAt(values, k) && FirstAt(values, l) && values[k] == Dedup(values)[i] && values[l] == Dedup(values)[j]
  {
    assert values == Init(values) + [Last(values)];
    var before := Dedup(Init(values));
    if j < |before| {
      k, l := DedupKeepsOrder(Init(values), i, j);
      assert Init(values)[..k] == values[..k] && Init(values)[..l] == values[..l];
    } else {
      k := FirstPlace(Init(values), before[i]);
      l := |values| - 1;
      assert Init(values)[..k] == values[..k] && values[..l] == Init(values);
    }
  }

  lemma {:induction false} FirstPlace(values: seq<string>, v: string) returns (k: nat)
    requires v in values
    ensures FirstAt(values, k) && values[k] == v
  {
    assert values == Init(values) + [Last(values)];
    if v in Init(values) {
      k := FirstPlace(Init(values), v);
      assert Init(values)[..k] == values[..k];
    } else {
      k := |values| - 1;
      assert values[..k] == Init(values);
    }
  }

  /** What the step declares as needed before it; the prerequisite counts only when there is no list. */
  predicate Declares(step: RawStep, id: string) {
    id != "" && if step.dependsOn.Some? then id in step.dependsOn.value else id == step.requiresPrerequisite
  }

  function NormalizeStep(step: RawStep, index: nat): (r: Step)
    ensures r.id != "" && r.id == if step.id != "" then step.id else "step_" + Decimal(index + 1)
    ensures Distinct(r.dependsOn) && forall id :: id in r.dependsOn <==> Declares(step, id)
  {
    Step(
      if step.id != "" then step.id else "step_" + Decimal(index + 1),
      match step.dependsOn
      case Some(ids) => Dedup(NonEmpty(ids))
      case None => if step.requiresPrerequisite != "" then [step.requiresPrerequisite] else [])
  }

  function NormalizeSteps(steps: seq<RawStep>): (r: seq<Step>)
    ensures |r| == |steps|
    ensures forall i :: 0 <= i < |r| ==> r[i] == NormalizeStep(steps[i], i)
  {
    seq(|steps|, i requires 0 <= i < |steps| => NormalizeStep(steps[i], i))
  }

  /** The edge map is filled step by step, so for a repeated id the last step wins. */
  function BuildEdges(steps: seq<Step>): (edges: Graph)
    ensures forall id :: id in edges <==> exists s :: s in steps && s.id == id
    ensures forall id :: id in edges ==> Step(id, edges[id]) in steps
  {
    if steps == [] then map[]
    else
      var edges := BuildEdges(Init(steps));
      assert steps == Init(steps) + [Last(steps)];
      edges[Last(steps).id := Last(steps).dependsOn]
  }

  lemma {:induction false} LastStepWins(steps: seq<Step>, i: nat)
    requires i < |steps| && forall j :: i < j < |steps| ==> steps[j].id != steps[i].id
    ensures steps[i].id in BuildEdges(steps) && BuildEdges(steps)[steps[i].id] == steps[i].dependsOn
  {
    if i < |steps| - 1 {
      LastStepWins(Init(steps), i);
      assert steps[|steps| - 1].id != steps[i].id;
    }
  }

  // ----- Walks and cycles -----

  /** Consecutive elements are dependency edges, and every element is a known id. */
  ghost predicate IsWalk(edges: Graph, walk: seq<string>) {
    && (forall i :: 0 <= i < |walk| ==> walk[i] in edges)
    && (forall i :: 0 <= i < |walk| - 1 ==> walk[i + 1] in edges[walk[i]])
  }

  ghost predicate IsClosedWalk(edges: Graph, walk: seq<string>) {
    |walk| >= 2 && IsWalk(edges, walk) && walk[0] == Last(walk)
  }

  /** No walk along dependencies among known ids returns to its start. */
  ghost predicate Acyclic(edges: Graph) {
    forall walk :: !IsClosedWalk(edges, walk)
  }

  /** What the detector reports: a walk whose last element has occurred before. */
  ghost predicate IsCycleReport(edges: Graph, walk: seq<string>) {
    |walk| >= 2 && IsWalk(edges, walk) && Last(walk) in Init(walk)
  }

  lemma CycleReportRefutesAcyclic(edges: Graph, walk: seq<string>)
    requires IsCycleReport(edges, walk)
    ensures !Acyclic(edges)
  {
    var i :| 0 <= i < |walk| - 1 && walk[i] == Last(walk);
    assert IsClosedWalk(edges, walk[i..]);
  }

  /** `order` lists distinct known ids, each after all the known ids it depends on. */
  ghost predicate IsTopological(edges: Graph, order: seq<string>) {
    && Distinct(order)
    && (forall i :: 0 <= i < |order| ==> order[i] in edges)
    && (forall i, d :: 0 <= i < |order| && d in edges[order[i]] && d in edges ==> d in order[..i])
  }

  lemma ExtendTopological(edges: Graph, order: seq<string>, id: string)
    requires IsTopological(edges, order) && id in edges && id !in order
    requires forall d :: d in edges[id] && d in edges ==> d in order
    ensures IsTopological(edges, order + [id])
  {
    var longer := order + [id];
    forall i, d | 0 <= i < |longer| && d in edges[longer[i]] && d in edges
      ensures d in longer[..i]
    {
      assert longer[..i] == order[..i];
    }
  }

  lemma WalkDescends(edges: Graph, order: seq<string>, walk: seq<string>, from: nat, start: nat)
    returns (at: nat)
    requires IsTopological(edges, order) && IsWalk(edges, walk)
    requires from < |walk| && start < |order| && order[start] == walk[from]
    ensures at <= start && order[at] == Last(walk)
    ensures from < |walk| - 1 ==> at < start
    decreases |walk| - from
  {
    if from == |walk| - 1 {
      at := start;
    } else {
      assert walk[from + 1] in order[..start];
      var next :| 0 <= next < start && order[next] == walk[from + 1];
      at := WalkDescends(edges, order, walk, from + 1, next);
    }
  }

  lemma TopologicalOrderRefutesCycles(edges: Graph, order: seq<string>)
    requires IsTopological(edges, order) && forall id :: id in edges ==> id in order
    ensures Acyclic(edges)
  {
    forall walk
      ensures !IsClosedWalk(edges, walk)
    {
      if IsClosedWalk(edges, walk) {
        var start :| 0 <= start < |order| && order[start] == walk[0];
        var at := WalkDescends(edges, order, walk, 0, start);
        assert false;
      }
    }
  }

  // ----- The detector -----

  /** The depth-first search with the three variables its recursion shares. */
  class CycleDetector {
    const edges: Graph
    var visiting: set<string>
    var visited: set<string>
    var cycle: Option<seq<string>>
    /** The visited ids in the order in which their visits ended. */
    ghost var finished: seq<string>

    ghost predicate Valid()
      reads this
    {
      && visiting !! visited
      && visiting <= edges.Keys
      && match cycle
         case None => IsTopological(edges, finished) && visited == Elements(finished)
         case Some(walk) => IsCycleReport(edges, walk)
    }

    constructor (edges: Graph)
      ensures Valid() && this.edges == edges
      ensures visiting == {} && visited == {} && cycle == None
    {
      this.edges := edges;
      visiting, visited, cycle, finished := {}, {}, None, [];
    }

    method Visit(stepId: string, trail: seq<string>)
      requires Valid() && stepId in edges
      requires cycle.None? ==> Elements(trail) == visiting && IsWalk(edges, trail + [stepId])
      modifies this
      ensures Valid() && visiting == old(visiting)
      ensures old(cycle).Some? ==> cycle == old(cycle)
      ensures cycle.None? ==> stepId in visited && old(visited) <= visited
      decreases edges.Keys - visiting
    {
      if cycle.Some? {
        return;
      }
      if stepId in visiting {
        assert Init(trail + [stepId]) == trail;
        cycle := Some(trail + [stepId]);
        return;
      }
      if stepId in visited {
        return;
      }
      visiting := visiting + {stepId};
      var dependencies := edges[stepId];
      for k := 0 to |dependencies|
        invariant Valid() && visiting == old(visiting) + {stepId}
        invariant cycle.None? ==> old(visited) <= visited
        invariant cycle.None? ==> forall j :: 0 <= j < k && dependencies[j] in edges ==> dependencies[j] in visited
      {
        if dependencies[k] !in edges {
          continue;
        }
        ghost var next := trail + [stepId] + [dependencies[k]];
        assert cycle.None? ==> IsWalk(edges, next);
        Visit(dependencies[k], trail + [stepId]);
      }
      assert cycle.None? ==> stepId !in finished && forall d :: d in edges[stepId] && d in edges ==> d in finished;
      visiting := visiting - {stepId};
      visited := visited + {stepId};
      if cycle.None? {
        ExtendTopological(edges, finished, stepId);
        finished := finished + [stepId];
      }
    }
  }

  method SearchFrom(edges: Graph, roots: seq<string>) returns (cycle: Option<seq<string>>)
    requires forall id :: id in roots <==> id in edges
    ensures cycle.None? <==> Acyclic(edges)
    ensures cycle.Some? ==> IsCycleReport(edges, cycle.value)
  {
    var detector := new CycleDetector(edges);
    for k := 0 to |roots|
      invariant detector.Valid() && detector.edges == edges && detector.visiting == {}
      invariant detector.cycle.None? ==> forall j :: 0 <= j < k ==> roots[j] in detector.visited
    {
      detector.Visit(roots[k], []);
    }
    cycle := detector.cycle;
    if cycle.Some? {
      CycleReportRefutesAcyclic(edges, cycle.value);
    } else {
      TopologicalOrderRefutesCycles(edges, detector.finished);
    }
  }

  function Ids(steps: seq<Step>): (r: seq<string>)
    ensures forall id :: id in r <==> exists s :: s in steps && s.id == id
  {
    var r := seq(|steps|, i requires 0 <= i < |steps| => steps[i].id);
    assert forall i :: 0 <= i < |steps| ==> steps[i].id == r[i];
    r
  }

  /** `detectDependencyCycle`: nothing exactly when the graph on known ids is acyclic, otherwise a genuine cycle. */
  method DetectDependencyCycle(steps: seq<RawStep>) returns (cycle: Option<seq<string>>)
    ensures cycle.None? <==> Acyclic(BuildEdges(NormalizeSteps(steps)))
    ensures cycle.Some? ==> IsCycleReport(BuildEdges(NormalizeSteps(steps)), cycle.value)
  {
    var normalized := NormalizeSteps(steps);
    cycle := SearchFrom(BuildEdges(normalized), Ids(normalized));
  }

  // ----- The ready / deferred partition -----

  datatype Deferred = Deferred(step: Step, dependencyReason: bool)

  datatype Resolution = Resolution(cycle: Option<seq<string>>, ready: seq<Step>, deferred: seq<Deferred>)

  /** Everything the step needs is completed, and none of it failed. */
  predicate IsReady(step: Step, completed: set<string>, failed: set<string>) {
    forall d :: d in step.dependsOn ==> d in completed && d !in failed
  }

  /** `part` is the subsequence of `whole` at increasing positions `at`. */
  ghost predicate Picks<T>(whole: seq<T>, at: seq<nat>, part: seq<T>) {
    && |at| == |part|
    && (forall k :: 0 <= k < |at| ==> at[k] < |whole| && part[k] == whole[at[k]])
    && (forall k, l :: 0 <= k < l < |at| ==> at[k] < at[l])
  }

  function DeferredSteps(deferred: seq<Deferred>): (r: seq<Step>)
    ensures |r| == |deferred| && forall i :: 0 <= i < |r| ==> r[i] == deferred[i].step
  {
    seq(|deferred|, i requires 0 <= i < |deferred| => deferred[i].step)
  }

  lemma ExtendPicks<T>(whole: seq<T>, at: seq<nat>, part: seq<T>, k: nat)
    requires Picks(whole, at, part) && k < |whole|
    requires forall j :: 0 <= j < |at| ==> at[j] < k
    ensures Picks(whole, at + [k], part + [whole[k]])
  {
  }

  method Partition(steps: seq<Step>, completed: set<string>, failed: set<string>)
    returns (ready: seq<Step>, deferred: seq<Deferred>, ghost readyAt: seq<nat>, ghost deferredAt: seq<nat>)
    ensures Picks(steps, readyAt, ready) && Picks(steps, deferredAt, DeferredSteps(deferred))
    ensures forall i :: 0 <= i < |steps| ==>
      (i in readyAt <==> forall d :: d in steps[i].dependsOn ==> d in completed && d !in failed)
    ensures forall i :: 0 <= i < |steps| ==> (i in deferredAt <==> i !in readyAt)
    ensures forall d :: d in deferred ==> d.dependencyReason
  {
    ready, deferred, readyAt, deferredAt := [], [], [], [];
    for k := 0 to |steps|
      invariant Picks(steps, readyAt, ready) && Picks(steps, deferredAt, DeferredSteps(deferred))
      invariant forall j :: 0 <= j < |readyAt| ==> readyAt[j] < k
      invariant forall j :: 0 <= j < |deferredAt| ==> deferredAt[j] < k
      invariant forall i :: 0 <= i < k ==> (i in readyAt <==> IsReady(steps[i], completed, failed))
      invariant forall i :: 0 <= i < k ==> (i in deferredAt <==> i !in readyAt)
      invariant forall d :: d in deferred ==> d.dependencyReason
    {
      var step := steps[k];
      ExtendPicks(steps, readyAt, ready, k);
      ExtendPicks(steps, deferredAt, DeferredSteps(deferred), k);
      assert DeferredSteps(deferred + [Deferred(step, true)]) == DeferredSteps(deferred) + [step];
      if exists d :: d in step.dependsOn && d in failed {
        assert !IsReady(step, completed, failed);
        deferred, deferredAt := deferred + [Deferred(step, true)], deferredAt + [k];
      } else if forall d :: d in step.dependsOn ==> d in completed {
        ready, readyAt := ready + [step], readyAt + [k];
      } else {
        deferred, deferredAt := deferred + [Deferred(step, true)], deferredAt + [k];
      }
    }
  }

  /** `resolveDependencies`: with a cycle nothing is ready; without one, ready and deferred split the
      steps by readiness, both in plan order. */
  method ResolveDependencies(steps: seq<RawStep>, completed: set<string>, failed: set<string>)
    returns (r: Resolution, ghost readyAt: seq<nat>, ghost deferredAt: seq<nat>)
    ensures r.cycle.None? <==> Acyclic(BuildEdges(NormalizeSteps(steps)))
    ensures r.cycle.Some? ==>
              && IsCycleReport(BuildEdges(NormalizeSteps(steps)), r.cycle.value)
              && r.ready == [] && DeferredSteps(r.deferred) == NormalizeSteps(steps)
              && forall d :: d in r.deferred ==> !d.dependencyReason
    ensures r.cycle.None? ==>
              && Picks(NormalizeSteps(steps), readyAt, r.ready)
              && Picks(NormalizeSteps(steps), deferredAt, DeferredSteps(r.deferred))
              && (forall i :: 0 <= i < |steps| ==>
                    (i in readyAt <==> forall d :: Declares(steps[i], d) ==> d in completed && d !in failed))
              && (forall i :: 0 <= i < |steps| ==> (i in deferredAt <==> i !in readyAt))
              && (forall d :: d in r.deferred ==> d.dependencyReason)
    ensures r.cycle.None? && AllDependenciesKnown(NormalizeSteps(steps)) && completed !! failed ==>
              forall id :: id in BuildEdges(NormalizeSteps(steps)) && id !in completed
                           && Unharmed(BuildEdges(NormalizeSteps(steps)), failed, id) ==>
                WaitsForOneOf(BuildEdges(NormalizeSteps(steps)), id, r.ready, completed)
  {
    hide BuildEdges, Unharmed, WaitsForOneOf, IsCycleReport, Acyclic, Picks, NormalizeStep, AllDependenciesKnown;
    var normalized := NormalizeSteps(steps);
    var cycle := DetectDependencyCycle(steps);
    readyAt, deferredAt := [], [];
    if cycle.Some? {
      var all := seq(|normalized|, i requires 0 <= i < |normalized| => Deferred(normalized[i], false));
      r := Resolution(cycle, [], all);
      return;
    }
    var ready, deferred;
    ready, deferred, readyAt, deferredAt := Partition(normalized, completed, failed);
    r := Resolution(None, ready, deferred);
    ReadyStepsArePicked(normalized, readyAt, ready, completed, failed);
    if AllDependenciesKnown(normalized) && completed !! failed {
      forall id | id in BuildEdges(normalized) && id !in completed && Unharmed(BuildEdges(normalized), failed, id)
        ensures WaitsForOneOf(BuildEdges(normalized), id, ready, completed)
      {
        UnharmedStepsAdvance(normalized, completed, failed, ready, id);
      }
    }
  }

  // ----- Progress -----

  ghost predicate AllDependenciesKnown(steps: seq<Step>) {
    forall s, d :: s in steps && d in s.dependsOn ==> d in BuildEdges(steps)
  }

  /** No walk along dependencies leads from the step to one that failed. */
  ghost predicate Unharmed(edges: Graph, failed: set<string>, id: string) {
    forall walk :: IsWalk(edges, walk) && walk != [] && walk[0] == id ==> Last(walk) !in failed
  }

  /** The step itself, or one it needs directly or through others, is uncompleted and among the ready ones. */
  ghost predicate WaitsForOneOf(edges: Graph, id: string, ready: seq<Step>, completed: set<string>) {
    exists walk :: IsWalk(edges, walk) && walk != [] && walk[0] == id && Last(walk) !in completed
                && exists s :: s in ready && s.id == Last(walk)
  }

  lemma ReadyStepsArePicked(steps: seq<Step>, readyAt: seq<nat>, ready: seq<Step>, completed: set<string>, failed: set<string>)
    requires Picks(steps, readyAt, ready)
    requires forall i :: 0 <= i < |steps| ==>
      (i in readyAt <==> forall d :: d in steps[i].dependsOn ==> d in completed && d !in failed)
    ensures forall s :: s in steps && IsReady(s, completed, failed) ==> s in ready
  {
    forall s | s in steps && IsReady(s, completed, failed)
      ensures s in ready
    {
      var i :| 0 <= i < |steps| && steps[i] == s;
      assert i in readyAt;
      var k :| 0 <= k < |readyAt| && readyAt[k] == i;
      assert ready[k] == s;
    }
  }

  /** Failures elsewhere do not stop a step: as long as it is uncompleted and depends on nothing that failed, it or something
      it needs is ready. */
  lemma UnharmedStepsAdvance(steps: seq<Step>, completed: set<string>, failed: set<string>, ready: seq<Step>, id: string)
    requires Acyclic(BuildEdges(steps)) && AllDependenciesKnown(steps) && completed !! failed
    requires id in BuildEdges(steps) && id !in completed && Unharmed(BuildEdges(steps), failed, id)
    requires forall s :: s in steps && IsReady(s, completed, failed) ==> s in ready
    ensures WaitsForOneOf(BuildEdges(steps), id, ready, completed)
  {
    var edges := BuildEdges(steps);
    var walk := FollowOpenDependencies(edges, edges.Keys - completed, [id]);
    var s := Step(Last(walk), edges[Last(walk)]);
    forall d | d in s.dependsOn
      ensures d in completed && d !in failed
    {
      assert s in steps && d in edges;
    }
    assert s in ready;
  }

  /** Follows dependencies through the open ids until one has none left; a repetition would be a cycle. */
  lemma {:induction false} FollowOpenDependencies(edges: Graph, open: set<string>, walk: seq<string>) returns (full: seq<string>)
    requires Acyclic(edges)
    requires walk != [] && IsWalk(edges, walk) && Distinct(walk) && forall x :: x in walk ==> x in open
    ensures walk <= full && IsWalk(edges, full) && Last(full) in open
    ensures forall d :: d in edges[Last(full)] && d in edges ==> d !in open
    decreases |open| - |walk|
  {
    DistinctFits(walk, open);
    full := walk;
    if d :| d in edges[Last(walk)] && d in edges && d in open {
      if d in walk {
        assert IsCycleReport(edges, walk + [d]) by { assert Init(walk + [d]) == walk; }
        CycleReportRefutesAcyclic(edges, walk + [d]);
      } else {
        DistinctFits(walk + [d], open);
        full := FollowOpenDependencies(edges, open, walk + [d]);
      }
    }
  }

  /** Scheduler progress: while steps remain and nothing has failed, some remaining step is ready. */
  lemma SomeRemainingStepIsReady(steps: seq<Step>, completed: set<string>) returns (step: Step)
    requires Acyclic(BuildEdges(steps)) && AllDependenciesKnown(steps)
    requires exists s :: s in steps && s.id !in completed
    ensures step in steps && step.id !in completed && IsReady(step, completed, {})
  {
    var edges := BuildEdges(steps);
    var s :| s in steps && s.id !in completed;
    var walk := FollowOpenDependencies(edges, edges.Keys - completed, [s.id]);
    step := Step(Last(walk), edges[Last(walk)]);
  }

  /** Ids completed one after another, each new and ready when its turn comes. */
  ghost predicate IsSchedule(steps: seq<Step>, order: seq<string>) {
    forall i :: 0 <= i < |order| ==> Completable(steps, order[..i], order[i])
  }

  ghost predicate Completable(steps: seq<Step>, done: seq<string>, id: string) {
    id !in done && exists s :: s in steps && s.id == id && IsReady(s, Elements(done), {})
  }

  /** No deadlock: a schedule that cannot be continued has completed every step. */
  lemma StuckScheduleIsComplete(steps: seq<Step>, order: seq<string>)
    requires Acyclic(BuildEdges(steps)) && AllDependenciesKnown(steps)
    requires IsSchedule(steps, order) && forall id :: !Completable(steps, order, id)
    ensures forall s :: s in steps ==> s.id in order
  {
    forall s | s in steps
      ensures s.id in order
    {
      if s.id !in Elements(order) {
        var ready := SomeRemainingStepIsReady(steps, Elements(order));
        var _ := Completable(steps, order, ready.id);
        assert false;
      }
    }
  }

  /** Every schedule can be continued to one that completes all steps. */
  lemma {:induction false} ScheduleCanFinish(steps: seq<Step>, order: seq<string>) returns (full: seq<string>)
    requires Acyclic(BuildEdges(steps)) && AllDependenciesKnown(steps)
    requires IsSchedule(steps, order)
    ensures order <= full && IsSchedule(steps, full)
    ensures forall s :: s in steps ==> s.id in full
    decreases |BuildEdges(steps)| - |order|
  {
    ScheduleIsDistinct(steps, order);
    full := order;
    if id :| Completable(steps, order, id) {
      var longer := order + [id];
      assert forall i :: 0 <= i < |order| ==> longer[..i] == order[..i];
      assert longer[..|order|] == order;
      ScheduleIsDistinct(steps, longer);
      full := ScheduleCanFinish(steps, longer);
    } else {
      StuckScheduleIsComplete(steps, order);
    }
  }

  lemma ScheduleIsDistinct(steps: seq<Step>, order: seq<string>)
    requires IsSchedule(steps, order)
    ensures Distinct(order) && |order| <= |BuildEdges(steps)|
  {
    forall i, j | 0 <= i < j < |order|
      ensures order[i] != order[j]
    {
      assert Completable(steps, order[..j], order[j]);
      assert order[..j][i] == order[i];
    }
    forall x | x in order
      ensures x in BuildEdges(steps).Keys
    {
      var i :| 0 <= i < |order| && order[i] == x;
      assert Completable(steps, order[..i], order[i]);
    }
    DistinctFits(order, BuildEdges(steps).Keys);
  }

  /** With distinct ids, every schedule is a topological order of the dependency graph. */
  lemma ScheduleIsTopological(steps: seq<Step>, order: seq<string>)
    requires IsSchedule(steps, order)
    requires forall s, t :: s in steps && t in steps && s.id == t.id ==> s == t
    ensures IsTopological(BuildEdges(steps), order)
  {
    ScheduleIsDistinct(steps, order);
    var edges := BuildEdges(steps);
    forall i | 0 <= i < |order|
      ensures order[i] in edges && forall d :: d in edges[order[i]] && d in edges ==> d in order[..i]
    {
      assert Completable(steps, order[..i], order[i]);
      assert Step(order[i], edges[order[i]]) in steps;
    }
  }

  // ----- Failure containment -----

  datatype Progress = Progress(completed: set<string>, failed: set<string>)

  /** A run completes ready steps and fails steps that are not completed, in any order. */
  datatype RunEvent = Complete(step: Step) | Fail(id: string)

  ghost predicate CanHappen(steps: seq<Step>, p: Progress, e: RunEvent) {
    match e
    case Complete(step) => step in steps && IsReady(step, p.completed, p.failed)
    case Fail(id) => id !in p.completed
  }

  function After(p: Progress, e: RunEvent): Progress {
    match e
    case Complete(step) => Progress(p.completed + {step.id}, p.failed)
    case Fail(id) => Progress(p.completed, p.failed + {id})
  }

  ghost predicate Reaches(steps: seq<Step>, events: seq<RunEvent>, p: Progress) {
    if events == [] then p == Progress({}, {})
    else exists q :: Reaches(steps, Init(events), q) && CanHappen(steps, q, Last(events)) && p == After(q, Last(events))
  }

  /** Every step with id `a` declares `b`; with distinct ids this is a dependency edge. */
  ghost predicate DependsOn(steps: seq<Step>, a: string, b: string) {
    forall s :: s in steps && s.id == a ==> b in s.dependsOn
  }

  ghost predicate DependsTransitively(steps: seq<Step>, chain: seq<string>) {
    |chain| >= 2 && forall i :: 0 <= i < |chain| - 1 ==> DependsOn(steps, chain[i], chain[i + 1])
  }

  lemma {:induction false} CompletedStepsAreSupported(steps: seq<Step>, events: seq<RunEvent>, p: Progress, id: string)
    requires Reaches(steps, events, p) && id in p.completed
    ensures exists s :: s in steps && s.id == id && forall d :: d in s.dependsOn ==> d in p.completed
  {
    if events != [] {
      var q :| Reaches(steps, Init(events), q) && CanHappen(steps, q, Last(events)) && p == After(q, Last(events));
      if id in q.completed {
        CompletedStepsAreSupported(steps, Init(events), q, id);
      }
    }
  }

  lemma {:induction false} UncompletedBlocksChain(steps: seq<Step>, events: seq<RunEvent>, p: Progress, chain: seq<string>, k: nat)
    requires Reaches(steps, events, p) && DependsTransitively(steps, chain) && Last(chain) !in p.completed
    requires k < |chain|
    ensures chain[k] !in p.completed
    decreases |chain| - k
  {
    if k < |chain| - 1 {
      UncompletedBlocksChain(steps, events, p, chain, k + 1);
      assert DependsOn(steps, chain[k], chain[k + 1]);
      if chain[k] in p.completed {
        CompletedStepsAreSupported(steps, events, p, chain[k]);
      }
    }
  }

  /** In every reachable state, nothing that depends, directly or through others, on a failed step that
      was never completed is completed or ready. */
  lemma FailureContainment(steps: seq<Step>, events: seq<RunEvent>, p: Progress, chain: seq<string>)
    requires Reaches(steps, events, p) && DependsTransitively(steps, chain)
    requires Last(chain) in p.failed && Last(chain) !in p.completed
    ensures chain[0] !in p.completed
    ensures forall s :: s in steps && s.id == chain[0] ==> !IsReady(s, p.completed, p.failed)
  {
    UncompletedBlocksChain(steps, events, p, chain, 0);
    UncompletedBlocksChain(steps, events, p, chain, 1);
    assert DependsOn(steps, chain[0], chain[1]);
  }
}
