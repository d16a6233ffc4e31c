/**
 Workflow definitions as the modeller holds them (workflow-modeller/src/domain): parsed JSON in
 which every optional field may be missing, the step graph they describe, and the definition
 the engine decodes from the same JSON.
 */
module Modeller {
  import opened Values
  import opened Definitions
  import opened Graphs
  import DecisionTables

  /** One row of a decision table; `hasThen` marks the retired field of older documents. */
  datatype TableRule = TableRule(rule: DecisionTables.Rule, hasThen: bool)

  datatype Table = Table(rules: seq<TableRule>, hasDefaultNextStep: bool)

  /** A step: the fields some part of the system gives a meaning, and the names of all others. */
  datatype RawStep = RawStep(
    id: string,
    name: string,
    typ: StepType,
    nextStep: Option<string>,
    parallelNextSteps: Option<seq<string>>,
    joinStep: Option<string>,
    conditionalNextSteps: Option<seq<Branch>>,
    transformations: Option<map<string, Entry>>,
    decisionTable: Option<Table>,
    hitPolicy: Option<string>,
    jobType: Option<string>,
    delegateClass: Option<string>,
    retryCount: Option<int>,
    boundaryEvents: Option<seq<BoundaryEvent>>,
    outputsSchema: Option<Schema>,
    extras: set<string>)

  datatype RawDefinition = RawDefinition(
    id: string,
    name: string,
    steps: seq<RawStep>,
    autoStartNextWorkflow: Option<bool>,
    nextWorkflowId: Option<string>,
    inputSchema: Option<Schema>,
    extras: set<string>)

  /** The fields that the discriminated union of schema.ts requires for the step's type. */
  predicate WellTyped(s: RawStep) {
    match s.typ
    case Decision => s.conditionalNextSteps.Some?
    case DecisionTable => s.nextStep.Some? && s.decisionTable.Some?
    case Transformation => s.nextStep.Some? && s.transformations.Some?
    case Wait => s.nextStep.Some?
    case ParallelGateway => s.parallelNextSteps.Some? && s.joinStep.Some?
    case JoinGateway => s.nextStep.Some?
    case _ => true
  }

  predicate AllTyped(def: RawDefinition) {
    forall s :: s in def.steps ==> WellTyped(s)
  }

  // ---- the step graph ----

  function Text(o: Option<string>): string {
    if o.Some? then o.value else ""
  }

  function Events(s: RawStep): seq<BoundaryEvent> {
    if s.boundaryEvents.Some? then s.boundaryEvents.value else []
  }

  /** outgoingTargets. */
  function OutgoingTargets(s: RawStep): seq<string>
    requires WellTyped(s)
  {
    match s.typ
    case ServiceTask => if Text(s.nextStep) != "" then [s.nextStep.value] else []
    case UserTask => if Text(s.nextStep) != "" then [s.nextStep.value] else []
    case Wait => [s.nextStep.value]
    case Transformation => [s.nextStep.value]
    case JoinGateway => [s.nextStep.value]
    case Decision => Targets(s.conditionalNextSteps.value)
    case DecisionTable => if Text(s.nextStep) != "" then [s.nextStep.value] else []
    case ParallelGateway => s.parallelNextSteps.value
    case End => []
    case Unsupported(_) => []
  }

  /** allOutgoing: the targets of timers as well. */
  function AllOutgoing(s: RawStep): seq<string>
    requires WellTyped(s)
  {
    OutgoingTargets(s) + if Parked(s.typ) then EventTargets(Events(s)) else []
  }

  /** indexSteps: for a repeated id the last step wins. */
  function Indexed(steps: seq<RawStep>, id: string): (r: Option<RawStep>)
    ensures r.None? <==> forall s :: s in steps ==> s.id != id
    ensures r.Some? ==> r.value in steps && r.value.id == id
  {
    if steps == [] then None
    else if steps[|steps| - 1].id == id then Some(steps[|steps| - 1])
    else
      assert steps == steps[..|steps| - 1] + [steps[|steps| - 1]];
      Indexed(steps[..|steps| - 1], id)
  }

  method IndexSteps(def: RawDefinition) returns (index: map<string, RawStep>)
    ensures forall id :: id in index <==> Indexed(def.steps, id).Some?
    ensures forall id :: id in index ==> Some(index[id]) == Indexed(def.steps, id)
  {
    index := map[];
    for i := 0 to |def.steps|
      invariant forall id :: id in index <==> Indexed(def.steps[..i], id).Some?
      invariant forall id :: id in index ==> Some(index[id]) == Indexed(def.steps[..i], id)
    {
      assert def.steps[..i + 1][..i] == def.steps[..i];
      index := index[def.steps[i].id := def.steps[i]];
    }
    assert def.steps[..|def.steps|] == def.steps;
  }

  /** The graph the reachability and cycle checks walk. */
  function StepGraph(def: RawDefinition): Graph
    requires AllTyped(def)
  {
    (id: string) => var s := Indexed(def.steps, id); if s.Some? && WellTyped(s.value) then AllOutgoing(s.value) else []
  }

  function EntryId(def: RawDefinition): string
    requires def.steps != []
  {
    def.steps[0].id
  }

  /** Every id a step mentions, and so every id the walks can meet. */
  function Mentioned(steps: seq<RawStep>): (r: set<string>) {
    (set s | s in steps :: s.id)
    + (set s, t | s in steps && WellTyped(s) && t in AllOutgoing(s) :: t)
  }

  lemma SuccessorsMentioned(def: RawDefinition, a: string, b: string)
    requires AllTyped(def) && b in StepGraph(def)(a)
    ensures a in Mentioned(def.steps) && b in Mentioned(def.steps)
  {
    var s := Indexed(def.steps, a).value;
    assert s in def.steps && s.id == a && b in AllOutgoing(s);
  }

  // ---- the definition the engine decodes ----

  function ToEngineStep(s: RawStep): Step {
    Step(s.id, s.name, s.typ, Text(s.nextStep),
         if s.parallelNextSteps.Some? then s.parallelNextSteps.value else [],
         Text(s.joinStep),
         if s.conditionalNextSteps.Some? then s.conditionalNextSteps.value else [],
         if s.transformations.Some? then s.transformations.value else map[],
         if s.decisionTable.Some? then Some(Rules(s.decisionTable.value)) else None,
         Text(s.hitPolicy), Text(s.jobType), Text(s.delegateClass),
         if s.retryCount.Some? then s.retryCount.value else 0,
         Events(s), s.outputsSchema)
  }

  function Rules(t: Table): seq<DecisionTables.Rule> {
    seq(|t.rules|, i requires 0 <= i < |t.rules| => t.rules[i].rule)
  }

  function ToEngineSteps(steps: seq<RawStep>): seq<Step> {
    seq(|steps|, i requires 0 <= i < |steps| => ToEngineStep(steps[i]))
  }

  function ToEngine(def: RawDefinition): Definition {
    Definition(def.id, def.name, ToEngineSteps(def.steps), def.autoStartNextWorkflow == Some(true), Text(def.nextWorkflowId), def.inputSchema)
  }
}
