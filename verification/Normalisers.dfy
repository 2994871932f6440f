/** The three plan normalisers (services/executionEngine.js, services/executionReconciliation.js,
    services/executionStateStore.js) and the recovery decision that reads their output. */
module Normalisers {
  import opened Common
  import opened ExecutionTables

  // ----- Text -----

  function LowerChar(c: char): (r: char)
    ensures 'A' <= c <= 'Z' ==> 'a' <= r <= 'z' && r as int - 'a' as int == c as int - 'A' as int
    ensures !('A' <= c <= 'Z') ==> r == c
  {
    if 'A' <= c <= 'Z' then c + 32 as char else c
  }

  function Lower(s: string): (r: string)
    ensures |r| == |s| && forall i :: 0 <= i < |s| ==> r[i] == LowerChar(s[i])
  {
    seq(|s|, i requires 0 <= i < |s| => LowerChar(s[i]))
  }

  function Trim(s: string): (r: string)
    ensures r == "" || (!IsSpace(r[0]) && !IsSpace(Last(r)))
    ensures s != "" && !IsSpace(s[0]) && !IsSpace(Last(s)) ==> r == s
    ensures s == "" ==> r == ""
    decreases |s|
  {
    if s == "" then ""
    else if IsSpace(s[0]) then Trim(s[1..])
    else if IsSpace(Last(s)) then Trim(Init(s))
    else s
  }

  /** Only white space is taken off, at both ends. */
  lemma {:induction false} TrimsOnlySpace(s: string) returns (i: nat, j: nat)
    ensures i <= j <= |s| && Trim(s) == s[i..j]
    ensures forall k :: 0 <= k < i || j <= k < |s| ==> IsSpace(s[k])
    decreases |s|
  {
    if s == "" || (!IsSpace(s[0]) && !IsSpace(Last(s))) {
      i, j := 0, |s|;
    } else if IsSpace(s[0]) {
      i, j := TrimsOnlySpace(s[1..]);
      i, j := i + 1, j + 1;
      assert forall k :: 1 <= k < |s| ==> s[k] == s[1..][k - 1];
    } else {
      i, j := TrimsOnlySpace(Init(s));
    }
  }

  function Clean(s: string): string {
    Lower(Trim(s))
  }

  /** `a || b` on strings. */
  function Or(a: string, b: string): string {
    if a != "" then a else b
  }

  lemma CleanTwice(s: string)
    ensures Clean(Clean(s)) == Clean(s)
  {
    var t := Trim(s);
    if t != "" {
      assert Lower(t)[0] == LowerChar(t[0]) && Last(Lower(t)) == LowerChar(Last(t));
      assert Trim(Lower(t)) == Lower(t);
      assert forall i :: 0 <= i < |t| ==> LowerChar(LowerChar(t[i])) == LowerChar(t[i]);
      assert Lower(Lower(t)) == Lower(t);
    }
  }

  // ----- Plans as they come in -----

  /** An empty string stands for a missing or empty field. */
  datatype Metadata = Metadata(
    idempotent: bool, retryStrategy: string, sideEffectClass: string, idempotencyKey: string,
    sideEffects: Option<seq<string>>)

  datatype SourceStep = SourceStep(
    id: string, action: string, actionClass: string, kind: string, tool: string,
    sideEffectClass: string, effectClass: string, idempotencyClass: string, idempotencyKey: string,
    sideEffects: Option<seq<string>>, metadata: Metadata)

  /** A stage lists steps or has no list of them; `itself` is the plan read as its own only step. */
  datatype SourcePlan = SourcePlan(
    planId: string, runId: string, id: string, kind: string,
    steps: Option<seq<SourceStep>>, stages: Option<seq<Option<seq<SourceStep>>>>, itself: SourceStep)

  function StagedSteps(stages: seq<Option<seq<SourceStep>>>): seq<SourceStep> {
    if stages == [] then []
    else
      var here := match Last(stages) case Some(steps) => steps case None => [];
      StagedSteps(Init(stages)) + here
  }

  predicate IsContainer(plan: SourcePlan) {
    plan.steps.Some? || plan.stages.Some? || plan.kind == "multi" || plan.kind == "goal"
  }

  predicate IsIdempotent(step: SourceStep) {
    step.metadata.idempotent || Clean(step.idempotencyClass) == "safe_repeat"
  }

  function Strategy(step: SourceStep): string {
    if step.metadata.retryStrategy in {"safe", "manual_only"} then step.metadata.retryStrategy
    else if IsIdempotent(step) then "safe"
    else "manual_only"
  }

  function EffectiveAction(step: SourceStep): string {
    Or(step.action, Or(step.actionClass, Or(step.tool, "step")))
  }

  // ----- The engine's normaliser -----

  /** What the engine keeps of a step. */
  datatype EngineStep = EngineStep(id: string, action: string, idempotent: bool, retryStrategy: string)

  datatype EnginePlan = EnginePlan(id: string, steps: seq<EngineStep>)

  function EngineNormalizeStep(step: SourceStep, index: nat): (r: EngineStep)
    ensures r.id != "" && r.action != ""
  {
    EngineStep(Or(step.id, "step_" + Decimal(index + 1)), EffectiveAction(step), IsIdempotent(step), Strategy(step))
  }

  /** The engine looks for stages first. */
  function EngineSteps(plan: SourcePlan): seq<SourceStep> {
    if plan.stages.Some? then StagedSteps(plan.stages.value)
    else if plan.steps.Some? then plan.steps.value
    else if plan.kind == "single" then [plan.itself]
    else []
  }

  function EngineNormalize(plan: SourcePlan, freshId: string): (r: EnginePlan)
    ensures |r.steps| == |EngineSteps(plan)|
  {
    var steps := EngineSteps(plan);
    EnginePlan(Or(plan.planId, Or(plan.runId, if IsContainer(plan) then Or(plan.id, freshId) else freshId)),
               seq(|steps|, i requires 0 <= i < |steps| => EngineNormalizeStep(steps[i], i)))
  }

  const NO_METADATA := Metadata(false, "", "", "", None)

  function EngineStepAsSource(step: EngineStep): SourceStep {
    SourceStep(step.id, step.action, "", "", "", "", "", "", "", None,
               NO_METADATA.(idempotent := step.idempotent, retryStrategy := step.retryStrategy))
  }

  /** The engine's output as the other two normalisers receive it: an id and a list of steps. */
  function EnginePlanAsSource(plan: EnginePlan): SourcePlan {
    SourcePlan("", "", plan.id, "",
      Some(seq(|plan.steps|, i requires 0 <= i < |plan.steps| => EngineStepAsSource(plan.steps[i]))), None,
      SourceStep("", "", "", "", "", "", "", "", "", None, NO_METADATA))
  }

  // ----- The reconciliation normaliser -----

  datatype ReconStep = ReconStep(
    id: string, idempotent: bool, idempotencyKey: string, retryStrategy: string,
    sideEffectClass: string, sideEffects: seq<string>)

  datatype ReconPlan = ReconPlan(id: string, steps: seq<ReconStep>)

  function InferSideEffectClass(step: SourceStep): (r: string)
    ensures r != ""
  {
    var explicit := Clean(Or(step.sideEffectClass, Or(step.metadata.sideEffectClass, step.effectClass)));
    var action := Clean(Or(step.action, Or(step.actionClass, step.kind)));
    if explicit != "" then explicit
    else if action in {"read", "read_file", "list", "inspect", "query", "fetch"} then "pure_read"
    else if action in {"write", "write_file", "create", "update", "mutate", "edit"} then "local_write"
    else if action in {"delete", "remove", "destroy"} then "destructive"
    else if action in {"network", "http", "api_call", "plugin"} then "network_call"
    else if action in {"execute", "shell", "run_command"} then "external_write"
    else "unknown"
  }

  function CleanAll(values: seq<string>): (r: seq<string>)
    ensures forall v :: v in r ==> v != "" && Clean(v) == v
    ensures (forall v :: v in values ==> v != "" && Clean(v) == v) ==> r == values
  {
    if values == [] then []
    else
      var v := Clean(Last(values));
      assert Last(values) in values && forall x :: x in Init(values) ==> x in values;
      CleanTwice(Last(values));
      assert values == Init(values) + [Last(values)];
      if v == "" then CleanAll(Init(values)) else CleanAll(Init(values)) + [v]
  }

  function DeclaredEffects(step: SourceStep): seq<string> {
    if step.sideEffects.Some? then CleanAll(step.sideEffects.value)
    else if step.metadata.sideEffects.Some? then CleanAll(step.metadata.sideEffects.value)
    else []
  }

  function ReconNormalizeStep(step: SourceStep, index: nat): ReconStep {
    ReconStep(Or(step.id, "step_" + Decimal(index)), IsIdempotent(step), Or(step.idempotencyKey, step.metadata.idempotencyKey),
              Strategy(step), InferSideEffectClass(step), DeclaredEffects(step))
  }

  /** The other two look for a flat list first. */
  function ListedSteps(plan: SourcePlan): seq<SourceStep> {
    if plan.steps.Some? then plan.steps.value
    else if plan.stages.Some? then StagedSteps(plan.stages.value)
    else []
  }

  function ReconNormalize(plan: SourcePlan): (r: ReconPlan)
    ensures |r.steps| == |ListedSteps(plan)|
  {
    var steps := ListedSteps(plan);
    ReconPlan(Or(plan.planId, plan.id), seq(|steps|, i requires 0 <= i < |steps| => ReconNormalizeStep(steps[i], i)))
  }

  function ReconPlanAsSource(plan: ReconPlan): SourcePlan {
    SourcePlan("", "", plan.id, "",
      Some(seq(|plan.steps|, i requires 0 <= i < |plan.steps| => ReconStepAsSource(plan.steps[i]))), None,
      SourceStep("", "", "", "", "", "", "", "", "", None, NO_METADATA))
  }

  function ReconStepAsSource(step: ReconStep): SourceStep {
    SourceStep(step.id, "", "", "", "", "", "", "", "", None,
      Metadata(step.idempotent, step.retryStrategy, step.sideEffectClass, step.idempotencyKey, Some(step.sideEffects)))
  }

  // ----- The state store's normaliser -----

  datatype StateStep = StateStep(id: string, action: string, idempotent: bool, retryStrategy: string)

  datatype StatePlan = StatePlan(id: string, steps: seq<StateStep>)

  function StateNormalizeStep(step: SourceStep, index: nat): StateStep {
    StateStep(Or(step.id, "step_" + Decimal(index)), EffectiveAction(step), IsIdempotent(step), Strategy(step))
  }

  function StateNormalize(plan: SourcePlan): (r: StatePlan)
    ensures |r.steps| == |ListedSteps(plan)|
  {
    var steps := ListedSteps(plan);
    StatePlan(
      if plan.planId != "" then Trim(plan.planId)
      else if plan.runId != "" then Trim(plan.runId)
      else if plan.id != "" && IsContainer(plan) then Trim(plan.id)
      else "",
      seq(|steps|, i requires 0 <= i < |steps| => StateNormalizeStep(steps[i], i)))
  }

  // ----- The recovery decision -----

  datatype RecoveryDecision = Retry | GuardedRetry | OperatorRecovery

  function ClassName(effect: SideEffect): string {
    match effect
    case PureRead => "pure_read"
    case LocalWrite => "local_write"
    case ExternalWrite => "external_write"
    case Destructive => "destructive"
    case NetworkCall => "network_call"
    case HumanReview => "human_review"
    case Unknown => "unknown"
    case OtherEffect => "other"
  }

  /** What is known of the last attempt: its class and whether it carries a key. */
  datatype AttemptFacts = AttemptFacts(sideEffectClass: string, hasKey: bool)

  /** The class of the attempt, or else of the step. */
  function ClassInQuestion(step: ReconStep, attempt: Option<AttemptFacts>): string {
    var ownClass := if attempt.Some? then attempt.value.sideEffectClass else "";
    Or(Clean(Or(ownClass, Or(step.sideEffectClass, "unknown"))), "unknown")
  }

  function DecideRecoveryAction(step: ReconStep, attempt: Option<AttemptFacts>): RecoveryDecision {
    var sideEffectClass := ClassInQuestion(step, attempt);
    var evidence := (attempt.Some? && attempt.value.hasKey) || step.idempotent || Trim(step.idempotencyKey) != "";
    var declared := CleanAll(step.sideEffects);
    if "unknown" in declared then OperatorRecovery
    else if Clean(step.retryStrategy) == "manual_only" && sideEffectClass != "pure_read" then OperatorRecovery
    else if sideEffectClass in {"pure_read", "local_write"} then
      if sideEffectClass == "local_write" && (declared == [] || !evidence) then OperatorRecovery
      else if sideEffectClass == "local_write" then GuardedRetry
      else Retry
    else OperatorRecovery
  }

  const KNOWN_CLASSES := {"pure_read", "local_write", "network_call", "external_write", "destructive", "human_review", "unknown"}

  /** The class reported with the decision: a class nobody knows is reported as unknown, unless it was settled before that. */
  function ReportedClass(step: ReconStep, attempt: Option<AttemptFacts>): string {
    var sideEffectClass := ClassInQuestion(step, attempt);
    var settledEarly := "unknown" in CleanAll(step.sideEffects)
      || (Clean(step.retryStrategy) == "manual_only" && sideEffectClass != "pure_read");
    if settledEarly || sideEffectClass in KNOWN_CLASSES then sideEffectClass else "unknown"
  }

  // ----- Results -----

  /** Stages contribute their steps one after another; one without a list contributes none. */
  lemma {:induction false} StagesJoinInOrder(a: seq<Option<seq<SourceStep>>>, b: seq<Option<seq<SourceStep>>>)
    ensures StagedSteps(a + b) == StagedSteps(a) + StagedSteps(b)
    ensures forall steps :: StagedSteps([Some(steps)]) == steps
    ensures StagedSteps([None]) == []
  {
    assert forall g: Option<seq<SourceStep>> :: Init([g]) == [] && Last([g]) == g;
    if b == [] {
      assert a + b == a;
    } else {
      StagesJoinInOrder(a, Init(b));
      assert Init(a + b) == a + Init(b);
    }
  }

  /** What the engine makes of a step that gives everything, and what it falls back to. */
  lemma EngineStepMeans(step: SourceStep, index: nat)
    ensures var e := EngineNormalizeStep(step, index);
      && (step.id != "" ==> e.id == step.id)
      && (e.idempotent <==> step.metadata.idempotent || Clean(step.idempotencyClass) == "safe_repeat")
      && (step.action != "" ==> e.action == step.action)
      && (step.action == "" && step.actionClass != "" ==> e.action == step.actionClass)
      && (step.action == "" && step.actionClass == "" ==> e.action == if step.tool == "" then "step" else step.tool)
      && e.retryStrategy in {"safe", "manual_only"}
      && (step.metadata.retryStrategy == "safe" ==> e.retryStrategy == "safe")
      && (step.metadata.retryStrategy == "manual_only" ==> e.retryStrategy == "manual_only")
      && (step.metadata.retryStrategy !in {"safe", "manual_only"} ==> (e.retryStrategy == "safe" <==> e.idempotent))
  {
    StrategiesDiffer();
    hide Clean;
  }

  lemma StrategiesDiffer()
    ensures "safe" != "manual_only"
  {
    assert |"safe"| != |"manual_only"|;
  }

  /** Which id a plan goes by, and where its steps are looked for: the engine prefers stages to a flat list, the others the list. */
  lemma PlansAreReadFrom(plan: SourcePlan, freshId: string)
    ensures var e, r, s := EngineNormalize(plan, freshId), ReconNormalize(plan), StateNormalize(plan);
      && (plan.planId != "" ==> e.id == r.id == plan.planId && s.id == Trim(plan.planId))
      && (plan.planId == "" ==> r.id == plan.id)
      && (plan.planId == "" && plan.runId != "" ==> e.id == plan.runId && s.id == Trim(plan.runId))
      && (plan.planId == "" && plan.runId == "" ==>
            && e.id == (if plan.id != "" && IsContainer(plan) then plan.id else freshId)
            && s.id == (if plan.id != "" && IsContainer(plan) then Trim(plan.id) else ""))
    ensures plan.stages.Some? ==> EngineSteps(plan) == StagedSteps(plan.stages.value)
    ensures plan.stages.None? && plan.steps.Some? ==> EngineSteps(plan) == plan.steps.value == ListedSteps(plan)
    ensures plan.steps.Some? ==> ListedSteps(plan) == plan.steps.value
    ensures plan.steps.None? && plan.stages.Some? ==> ListedSteps(plan) == EngineSteps(plan)
  {
    assert Trim("") == "";
    hide Trim, StagedSteps;
  }

  /** A class of side effect that is given counts; else the action tells it. */
  lemma ClassIsInferred(step: SourceStep)
    ensures var explicit := Clean(Or(step.sideEffectClass, Or(step.metadata.sideEffectClass, step.effectClass)));
            var action := Clean(Or(step.action, Or(step.actionClass, step.kind))); var r := InferSideEffectClass(step);
      && (explicit != "" ==> r == explicit)
      && (explicit == "" ==>
            && (action in {"read", "read_file", "list", "inspect", "query", "fetch"} ==> r == "pure_read")
            && (action in {"write", "write_file", "create", "update", "mutate", "edit"} ==> r == "local_write")
            && (action in {"delete", "remove", "destroy"} ==> r == "destructive")
            && (action in {"network", "http", "api_call", "plugin"} ==> r == "network_call")
            && (action in {"execute", "shell", "run_command"} ==> r == "external_write"))
  {
    hide Clean;
    ActionWordsDiffer();
  }

  /** No action word is in two of the lists. */
  lemma ActionWordsDiffer()
    ensures {"read", "read_file", "list", "inspect", "query", "fetch"} !! {"write", "write_file", "create", "update", "mutate", "edit"}
    ensures {"read", "read_file", "list", "inspect", "query", "fetch"} !! {"delete", "remove", "destroy"}
    ensures {"write", "write_file", "create", "update", "mutate", "edit"} !! {"delete", "remove", "destroy"}
    ensures {"read", "read_file", "list", "inspect", "query", "fetch"} + {"write", "write_file", "create", "update", "mutate", "edit"}
            + {"delete", "remove", "destroy"} !! {"network", "http", "api_call", "plugin"}
    ensures {"read", "read_file", "list", "inspect", "query", "fetch"} + {"write", "write_file", "create", "update", "mutate", "edit"}
            + {"delete", "remove", "destroy"} + {"network", "http", "api_call", "plugin"} !! {"execute", "shell", "run_command"}
  {
  }

  /** The plan as reconciliation sees it when it is reached through the engine. */
  function ReconThroughEngine(plan: SourcePlan, freshId: string): ReconPlan {
    ReconNormalize(EnginePlanAsSource(EngineNormalize(plan, freshId)))
  }

  function StateThroughEngine(plan: SourcePlan, freshId: string): StatePlan {
    StateNormalize(EnginePlanAsSource(EngineNormalize(plan, freshId)))
  }

  /** After the engine's normaliser the other two keep every step in place with its id, flag and strategy. */
  lemma CompositionKeepsSteps(plan: SourcePlan, freshId: string, i: nat)
    requires i < |EngineSteps(plan)|
    ensures var e := EngineNormalize(plan, freshId).steps;
            var r := ReconThroughEngine(plan, freshId).steps;
            var s := StateThroughEngine(plan, freshId).steps;
      && |e| == |r| == |s| == |EngineSteps(plan)|
      && e[i].id == r[i].id == s[i].id
      && e[i].idempotent == r[i].idempotent == s[i].idempotent == IsIdempotent(EngineSteps(plan)[i])
      && e[i].retryStrategy == r[i].retryStrategy == s[i].retryStrategy
      && e[i].action == s[i].action
  {
    assert Clean("") == "";
  }

  /** What a caller declared about effects and keys does not survive the engine's normaliser. */
  lemma CompositionDropsDeclarations(plan: SourcePlan, freshId: string, i: nat)
    requires i < |EngineSteps(plan)|
    ensures var r := ReconThroughEngine(plan, freshId).steps[i];
      && r.sideEffects == [] && r.idempotencyKey == ""
      && r.sideEffectClass == InferSideEffectClass(EngineStepAsSource(EngineNormalize(plan, freshId).steps[i]))
  {
  }

  /** So through the engine a guarded retry never happens, and only a failed pure read is retried. */
  lemma ThroughEngineOnlyPureReadsRetry(plan: SourcePlan, freshId: string, i: nat, effect: SideEffect, hasKey: bool)
    requires i < |EngineSteps(plan)|
    ensures DecideRecoveryAction(ReconThroughEngine(plan, freshId).steps[i], Some(AttemptFacts(ClassName(effect), hasKey)))
         == if effect == PureRead then Retry else OperatorRecovery
  {
    CompositionDropsDeclarations(plan, freshId, i);
    assert CleanAll([]) == [];
    ClassNamesAreClean(effect);
  }

  lemma ClassNamesAreClean(effect: SideEffect)
    ensures Clean(ClassName(effect)) == ClassName(effect) && ClassName(effect) != ""
    ensures ClassName(effect) == "pure_read" <==> effect == PureRead
    ensures ClassName(effect) == "local_write" <==> effect == LocalWrite
  {
    var name := ClassName(effect);
    assert !IsSpace(name[0]) && !IsSpace(Last(name));
    assert forall i :: 0 <= i < |name| ==> LowerChar(name[i]) == name[i];
    assert Lower(name) == name;
    assert |"pure_read"| == 9 && |"local_write"| == 11 && |"external_write"| == 14 && |"destructive"| == 11;
    assert |"network_call"| == 12 && |"human_review"| == 12 && |"unknown"| == 7 && |"other"| == 5;
    assert "local_write"[0] != "destructive"[0];
  }

  /** Without the engine a guarded retry is reached: by a failed local write whose step declares effects, none of them
      unknown, is not manual-only, and carries a key or an idempotent flag; and by nothing else. */
  lemma GuardedRetryExactly(step: ReconStep, effect: SideEffect, hasKey: bool)
    requires CleanAll(step.sideEffects) == step.sideEffects
    ensures DecideRecoveryAction(step, Some(AttemptFacts(ClassName(effect), hasKey))) == GuardedRetry <==>
      && effect == LocalWrite && step.sideEffects != [] && "unknown" !in step.sideEffects
      && Clean(step.retryStrategy) != "manual_only"
      && (hasKey || step.idempotent || Trim(step.idempotencyKey) != "")
  {
    ClassNamesAreClean(effect);
    hide Clean, Trim, CleanAll, ClassName;
    LocalWriteIsNotPureRead();
  }

  lemma LocalWriteIsNotPureRead()
    ensures "local_write" != "pure_read"
  {
    assert |"local_write"| != |"pure_read"|;
  }

  /** Reconciliation normalises what it has already normalised; nothing changes the second time. */
  lemma ReconNormalizeTwice(plan: SourcePlan)
    ensures ReconNormalize(ReconPlanAsSource(ReconNormalize(plan))) == ReconNormalize(plan)
  {
    var once := ReconNormalize(plan);
    var twice := ReconNormalize(ReconPlanAsSource(once));
    forall i | 0 <= i < |once.steps|
      ensures twice.steps[i] == once.steps[i]
    {
      ReconStepTwice(ListedSteps(plan)[i], i);
    }
  }

  lemma ReconStepTwice(step: SourceStep, index: nat)
    ensures ReconNormalizeStep(ReconStepAsSource(ReconNormalizeStep(step, index)), index) == ReconNormalizeStep(step, index)
  {
    var once := ReconNormalizeStep(step, index);
    InferredClassIsClean(step);
    assert Clean("") == "";
    assert CleanAll(once.sideEffects) == once.sideEffects;
  }

  lemma InferredClassIsClean(step: SourceStep)
    ensures Clean(InferSideEffectClass(step)) == InferSideEffectClass(step)
  {
    hide Clean;
    CleanTwice(Or(step.sideEffectClass, Or(step.metadata.sideEffectClass, step.effectClass)));
    ClassNamesAreClean(PureRead);
    ClassNamesAreClean(LocalWrite);
    ClassNamesAreClean(Destructive);
    ClassNamesAreClean(NetworkCall);
    ClassNamesAreClean(ExternalWrite);
    ClassNamesAreClean(Unknown);
  }

  /** The default ids differ: on the same steps the engine and the other two agree exactly when every step has an id. */
  lemma DefaultIdsDisagree(step: SourceStep, index: nat)
    ensures EngineNormalizeStep(step, index).id == ReconNormalizeStep(step, index).id <==> step.id != ""
    ensures EngineNormalizeStep(step, index).id == StateNormalizeStep(step, index).id <==> step.id != ""
  {
    var a, b := "step_" + Decimal(index + 1), "step_" + Decimal(index);
    if a == b {
      assert Decimal(index + 1) == a[5..] && Decimal(index) == b[5..];
      DecimalInjective(index + 1, index);
    }
  }

  /** Only the state store trims the plan id, so the stores share a key exactly when there is nothing to trim. */
  lemma PlanIdsAgreeWhenTrimmed(plan: EnginePlan)
    ensures StateNormalize(EnginePlanAsSource(plan)).id == ReconNormalize(EnginePlanAsSource(plan)).id
       <==> plan.id == "" || (!IsSpace(plan.id[0]) && !IsSpace(Last(plan.id)))
  {
    assert StateNormalize(EnginePlanAsSource(plan)).id == Trim(plan.id);
  }
}
