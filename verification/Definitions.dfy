/**
 Workflow definitions as the engine holds them after decoding (internal/definition/types.go).
 Absent string fields are empty strings and absent lists are empty, as in the Go structs.
 */
module Definitions {
  import opened Values
  import DecisionTables

  datatype StepType =
    | ServiceTask
    | UserTask
    | Decision
    | Transformation
    | Wait
    | ParallelGateway
    | JoinGateway
    | End
    | DecisionTable
    | Unsupported(name: string)

  /** One `conditionalNextSteps` entry, in document order. */
  datatype Branch = Branch(expr: string, target: string)

  datatype BoundaryEvent = BoundaryEvent(kind: string, duration: string, interrupting: bool, target: string)

  datatype Schema = Schema(properties: map<string, string>, required: seq<string>)

  datatype Step = Step(
    id: string,
    name: string,
    typ: StepType,
    nextStep: string,
    parallelNextSteps: seq<string>,
    joinStep: string,
    branches: seq<Branch>,
    transformations: map<string, Entry>,
    rules: Option<seq<DecisionTables.Rule>>,
    hitPolicy: string,
    jobType: string,
    delegateClass: string,
    retryCount: int,
    boundaryEvents: seq<BoundaryEvent>,
    outputsSchema: Option<Schema>)

  datatype Definition = Definition(
    id: string,
    name: string,
    steps: seq<Step>,
    autoStartNextWorkflow: bool,
    nextWorkflowId: string,
    inputSchema: Option<Schema>)

  /** Steps at which an execution stays RUNNING until a callback, a signal or a timer. */
  predicate Parked(t: StepType) {
    t == ServiceTask || t == UserTask || t == Wait
  }

  function Targets(branches: seq<Branch>): seq<string> {
    seq(|branches|, i requires 0 <= i < |branches| => branches[i].target)
  }

  function EventTargets(events: seq<BoundaryEvent>): seq<string> {
    seq(|events|, i requires 0 <= i < |events| => events[i].target)
  }

  /** findStep: the first step with this id. */
  function FindFrom(steps: seq<Step>, id: string): (r: Option<Step>)
    ensures r.None? <==> forall s :: s in steps ==> s.id != id
    ensures r.Some? ==> r.value in steps && r.value.id == id
  {
    if steps == [] then None
    else if steps[0].id == id then Some(steps[0])
    else FindFrom(steps[1..], id)
  }

  function FindStep(def: Definition, id: string): (r: Option<Step>)
    ensures r.None? <==> forall s :: s in def.steps ==> s.id != id
    ensures r.Some? ==> r.value in def.steps && r.value.id == id
  {
    FindFrom(def.steps, id)
  }

  /** findParallelGatewayFor: the first gateway that names this join. */
  function GatewayFrom(steps: seq<Step>, join: string): (r: Option<Step>)
    ensures r.None? <==> forall s :: s in steps ==> !(s.typ == ParallelGateway && s.joinStep == join)
    ensures r.Some? ==> r.value in steps && r.value.typ == ParallelGateway && r.value.joinStep == join
  {
    if steps == [] then None
    else if steps[0].typ == ParallelGateway && steps[0].joinStep == join then Some(steps[0])
    else GatewayFrom(steps[1..], join)
  }

  function GatewayFor(def: Definition, join: string): (r: Option<Step>)
    ensures r.Some? ==> r.value in def.steps && r.value.typ == ParallelGateway && r.value.joinStep == join
  {
    GatewayFrom(def.steps, join)
  }

  predicate Declared(def: Definition, id: string) {
    FindStep(def, id).Some?
  }

  /** The hit-policy code; empty means unique, an unknown code selects no case of the switch. */
  function PolicyOf(code: string): Option<DecisionTables.Policy> {
    if code == "" || code == "U" then Some(DecisionTables.U)
    else if code == "F" then Some(DecisionTables.F)
    else if code == "A" then Some(DecisionTables.A)
    else if code == "R" then Some(DecisionTables.R)
    else if code == "C" then Some(DecisionTables.C)
    else if code == "C+" then Some(DecisionTables.CSum)
    else if code == "C#" then Some(DecisionTables.CCount)
    else if code == "C>" then Some(DecisionTables.CMax)
    else if code == "C<" then Some(DecisionTables.CMin)
    else None
  }

  // ---- current_step_ids ----

  /** withStep: append unless present. */
  function WithStep(ids: seq<string>, id: string): (r: seq<string>)
    ensures forall x :: x in r <==> x in ids || x == id
    ensures NoDup(ids) ==> NoDup(r)
  {
    if id in ids then ids else ids + [id]
  }

  /** withoutStep: drop every occurrence, keeping the order of the others. */
  function WithoutStep(ids: seq<string>, id: string): (r: seq<string>)
    ensures forall x :: x in r <==> x in ids && x != id
    ensures NoDup(ids) ==> NoDup(r)
  {
    if ids == [] then []
    else
      var n := |ids| - 1;
      var rest := WithoutStep(ids[..n], id);
      assert ids == ids[..n] + [ids[n]];
      assert NoDup(ids) ==> ids[n] !in ids[..n];
      if ids[n] == id then rest else rest + [ids[n]]
  }

  /** The ids that are kept stay in order: removal works part by part. */
  lemma {:induction false} WithoutStepConcat(a: seq<string>, b: seq<string>, id: string)
    ensures WithoutStep(a + b, id) == WithoutStep(a, id) + WithoutStep(b, id)
    ensures |b| == 1 ==> WithoutStep(b, id) == if b[0] == id then [] else b
    decreases |b|
  {
    if b == [] {
      assert a + b == a;
    } else {
      var n := |b| - 1;
      assert (a + b)[..|a + b| - 1] == a + b[..n];
      WithoutStepConcat(a, b[..n], id);
    }
  }

  /** Lookups give the first step that fits. */
  lemma {:induction false} FirstFound(steps: seq<Step>, id: string, i: nat)
    requires i < |steps|
    ensures steps[i].id == id && (forall k :: 0 <= k < i ==> steps[k].id != id) ==> FindFrom(steps, id) == Some(steps[i])
    ensures steps[i].typ == ParallelGateway && steps[i].joinStep == id
            && (forall k :: 0 <= k < i ==> !(steps[k].typ == ParallelGateway && steps[k].joinStep == id)) ==>
              GatewayFrom(steps, id) == Some(steps[i])
  {
    if i > 0 {
      assert forall k :: 0 <= k < i - 1 ==> steps[1..][k] == steps[k + 1];
      FirstFound(steps[1..], id, i - 1);
    }
  }

  method RemoveStep(ids: seq<string>, id: string) returns (out: seq<string>)
    ensures out == WithoutStep(ids, id)
  {
    out := [];
    for i := 0 to |ids|
      invariant out == WithoutStep(ids[..i], id)
    {
      assert ids[..i + 1][..i] == ids[..i];
      if ids[i] != id {
        out := out + [ids[i]];
      }
    }
    assert ids[..|ids|] == ids;
  }
}
