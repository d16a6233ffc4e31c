/**
 The modeller's validator (workflow-modeller/src/domain/validate.ts). The ISO-8601 pattern and
 the expression linter are the parameters `iso` and `lint`.
 */
module ModellerValidator {
  import opened Values
  import opened Definitions
  import opened Graphs
  import opened Modeller
  import CycleSearch
  import EngineValidator

  datatype Diagnostic = Diagnostic(code: string, node: string)

  predicate IsError(d: Diagnostic) {
    d.code !in {"GRAPH_CYCLE", "UNKNOWN_FIELDS_PRESENT", "DECISION_TABLE_UNREACHABLE_RULE", "DECISION_EXPR_UNKNOWN_IDENT", "DT_CELL_EXPR_UNKNOWN_IDENT"}
  }

  /** The diagnostics of the expressions of one step, with the codes checkExpressions gives them. */
  type Linter = (RawDefinition, RawStep) -> seq<Diagnostic>

  predicate IsLint(d: Diagnostic) {
    d.code in {"DECISION_EXPR_SYNTAX", "DECISION_EXPR_NON_BOOLEAN", "DECISION_EXPR_UNKNOWN_IDENT", "TRANSFORMATION_EXPR_SYNTAX",
               "DT_CELL_EXPR_SYNTAX", "DT_CELL_EXPR_NON_BOOLEAN", "DT_CELL_EXPR_UNKNOWN_IDENT", "DT_OUTPUT_EXPR_SYNTAX"}
  }

  ghost predicate AllErrors(out: seq<Diagnostic>) {
    forall d :: d in out ==> IsError(d)
  }

  // ---- text ----

  /** White space and line terminators of ECMAScript. */
  predicate IsSpace(c: char) {
    var n := c as int;
    || 9 <= n <= 13 || n == 32 || n == 160 || n == 0x1680 || 0x2000 <= n <= 0x200A
    || n == 0x2028 || n == 0x2029 || n == 0x202F || n == 0x205F || n == 0x3000 || n == 0xFEFF
  }

  /** `s.trim() === ''`. */
  predicate Blank(s: string) {
    forall i :: 0 <= i < |s| ==> IsSpace(s[i])
  }

  predicate Given(o: Option<string>) {
    o.Some? && !Blank(o.value)
  }

  // ---- the rules ----

  predicate NamesOk(def: RawDefinition) {
    !Blank(def.name) && forall i :: 0 <= i < |def.steps| ==> !Blank(def.steps[i].name)
  }

  predicate IdsPresent(def: RawDefinition) {
    forall i :: 0 <= i < |def.steps| ==> !Blank(def.steps[i].id)
  }

  predicate IdsUnique(def: RawDefinition) {
    forall i, j :: 0 <= i < j < |def.steps| ==> def.steps[i].id != def.steps[j].id
  }

  predicate TypesValid(def: RawDefinition) {
    forall i :: 0 <= i < |def.steps| ==> !def.steps[i].typ.Unsupported?
  }

  predicate NextWorkflowOk(def: RawDefinition) {
    def.autoStartNextWorkflow == Some(true) <==> Given(def.nextWorkflowId)
  }

  /** checkStepVariantShape. */
  predicate ShapeOk(s: RawStep)
    requires WellTyped(s)
  {
    match s.typ
    case Decision => s.conditionalNextSteps.value != []
    case DecisionTable => TableShapeOk(s)
    case Transformation => Given(s.nextStep) && s.transformations.value != map[]
    case Wait => Given(s.nextStep)
    case ParallelGateway => |s.parallelNextSteps.value| >= 2 && Given(s.joinStep)
    case JoinGateway => Given(s.nextStep)
    case _ => true
  }

  predicate TableShapeOk(s: RawStep)
    requires s.decisionTable.Some?
  {
    && s.decisionTable.value.rules != [] && Given(s.nextStep)
    && (s.hitPolicy.Some? ==> EngineValidator.ValidHitPolicy(s.hitPolicy.value))
    && (forall i :: 0 <= i < |s.decisionTable.value.rules| ==> !s.decisionTable.value.rules[i].hasThen)
    && !s.decisionTable.value.hasDefaultNextStep
    && s.conditionalNextSteps.None? && s.transformations.None? && s.parallelNextSteps.None? && s.joinStep.None?
    && s.jobType.None? && s.delegateClass.None? && s.retryCount.None? && s.boundaryEvents.None?
  }

  predicate NextResolves(s: RawStep, ids: set<string>) {
    Text(s.nextStep) != "" ==> Text(s.nextStep) in ids
  }

  /** checkRefsResolve. */
  predicate RefsOk(s: RawStep, ids: set<string>)
    requires WellTyped(s)
  {
    match s.typ
    case Decision => forall i :: 0 <= i < |s.conditionalNextSteps.value| ==> s.conditionalNextSteps.value[i].target in ids
    case ParallelGateway =>
      && (forall i :: 0 <= i < |s.parallelNextSteps.value| ==> s.parallelNextSteps.value[i] in ids)
      && (s.joinStep.value != "" ==> s.joinStep.value in ids)
    case End => true
    case Unsupported(_) => true
    case _ => NextResolves(s, ids)
  }

  /** checkBoundaryEvents. */
  predicate BoundaryOk(s: RawStep, ids: set<string>, iso: string -> bool) {
    if !Parked(s.typ) then s.boundaryEvents.None?
    else forall i :: 0 <= i < |Events(s)| ==> TimerOk(Events(s)[i], ids, iso)
  }

  predicate TimerOk(e: BoundaryEvent, ids: set<string>, iso: string -> bool) {
    e.kind == "TIMER" && e.duration != "" && iso(e.duration) && e.target != "" && e.target in ids
  }

  predicate JoinTargetOk(def: RawDefinition, s: RawStep) {
    s.typ == ParallelGateway && s.joinStep.Some? && Indexed(def.steps, s.joinStep.value).Some? ==>
      Indexed(def.steps, s.joinStep.value).value.typ == JoinGateway
  }

  function Ids(def: RawDefinition): set<string> {
    set s | s in def.steps :: s.id
  }

  // ---- unknown fields ----

  function Field<T>(o: Option<T>, name: string): set<string> {
    if o.Some? then {name} else {}
  }

  /** The keys of the step object. */
  function Keys(s: RawStep): set<string> {
    {"id", "name", "type"}
    + Field(s.nextStep, "nextStep") + Field(s.parallelNextSteps, "parallelNextSteps") + Field(s.joinStep, "joinStep")
    + Field(s.conditionalNextSteps, "conditionalNextSteps") + Field(s.transformations, "transformations")
    + Field(s.decisionTable, "decisionTable") + Field(s.hitPolicy, "hitPolicy") + Field(s.jobType, "jobType")
    + Field(s.delegateClass, "delegateClass") + Field(s.retryCount, "retryCount") + Field(s.boundaryEvents, "boundaryEvents")
    + Field(s.outputsSchema, "outputs_schema") + s.extras
  }

  /** KNOWN_STEP_KEYS. */
  function KnownKeys(t: StepType): set<string> {
    match t
    case ServiceTask =>
      {"id", "name", "type", "description", "nextStep", "jobType", "delegateClass", "retryCount", "boundaryEvents"}
    case UserTask => {"id", "name", "type", "description", "nextStep", "jobType", "boundaryEvents"}
    case Decision => {"id", "name", "type", "description", "conditionalNextSteps"}
    case DecisionTable => {"id", "name", "type", "description", "hitPolicy", "nextStep", "decisionTable"}
    case Transformation => {"id", "name", "type", "description", "nextStep", "transformations"}
    case Wait => {"id", "name", "type", "description", "nextStep", "boundaryEvents"}
    case ParallelGateway => {"id", "name", "type", "description", "parallelNextSteps", "joinStep"}
    case JoinGateway => {"id", "name", "type", "description", "nextStep"}
    case End => {"id", "name", "type", "description"}
    case Unsupported(_) => {}
  }

  function RootKeys(def: RawDefinition): set<string> {
    {"id", "name", "steps"} + Field(def.autoStartNextWorkflow, "autoStartNextWorkflow")
    + Field(def.nextWorkflowId, "nextWorkflowId") + Field(def.inputSchema, "input_schema") + def.extras
  }

  const KNOWN_ROOT_KEYS: set<string> :=
    {"id", "version", "name", "description", "autoStartNextWorkflow", "nextWorkflowId", "steps", "metadata"}

  predicate FieldsKnown(def: RawDefinition) {
    RootKeys(def) <= KNOWN_ROOT_KEYS && forall i :: 0 <= i < |def.steps| ==> Keys(def.steps[i]) <= KnownKeys(def.steps[i].typ)
  }

  // ---- walking the graph ----

  function Without(ids: seq<string>, block: set<string>): (r: seq<string>)
    ensures forall x :: x in r <==> x in ids && x !in block
  {
    if ids == [] then []
    else if ids[0] in block then Without(ids[1..], block)
    else [ids[0]] + Without(ids[1..], block)
  }

  /** The graph without the nodes the walk skips. */
  function Avoiding(g: Graph, block: set<string>): Graph {
    (id: string) => Without(g(id), block)
  }

  ghost predicate From(h: Graph, starts: seq<string>, block: set<string>, x: string) {
    exists s :: s in starts && s !in block && Reaches(h, s, x)
  }

  ghost predicate AllFrom(h: Graph, starts: seq<string>, block: set<string>, ids: set<string>) {
    forall x :: x in ids ==> From(h, starts, block, x)
  }

  ghost predicate StackFrom(h: Graph, starts: seq<string>, block: set<string>, stack: seq<string>) {
    forall x :: x in stack && x !in block ==> From(h, starts, block, x)
  }

  /** What a visited node leads to is visited or waiting. */
  ghost predicate Pending(h: Graph, visited: set<string>, stack: seq<string>) {
    forall x, y :: x in visited && y in h(x) ==> y in visited || y in stack
  }

  lemma FromStarts(h: Graph, starts: seq<string>, block: set<string>)
    ensures StackFrom(h, starts, block, starts)
  {
    forall x | x in starts && x !in block ensures From(h, starts, block, x) {
      ReachesSelf(h, x);
    }
  }

  lemma FromNext(g: Graph, starts: seq<string>, block: set<string>, id: string, t: string)
    requires From(Avoiding(g, block), starts, block, id) && t in g(id) && t !in block
    ensures From(Avoiding(g, block), starts, block, t)
  {
    hide Reaches;
    var h := Avoiding(g, block);
    var s :| s in starts && s !in block && Reaches(h, s, id);
    assert t in h(id);
    ReachesEdge(h, id, t);
    ReachesTransitive(h, s, id, t);
  }

  /** Nothing is left to do: the visited nodes are exactly the reachable ones. */
  lemma WalkComplete(h: Graph, starts: seq<string>, block: set<string>, visited: set<string>)
    requires Pending(h, visited, []) && AllFrom(h, starts, block, visited)
    requires forall s :: s in starts && s !in block ==> s in visited
    ensures forall x :: x in visited <==> From(h, starts, block, x)
  {
    hide Reaches;
    forall x | From(h, starts, block, x) ensures x in visited {
      var s :| s in starts && s !in block && Reaches(h, s, x);
      ClosedContains(h, visited, s);
    }
  }

  lemma VisitPending(g: Graph, block: set<string>, visited: set<string>, stack: seq<string>, id: string, stack': seq<string>)
    requires Pending(Avoiding(g, block), visited, stack + [id])
    requires forall y :: y in stack || (y in g(id) && y !in visited + {id}) ==> y in stack'
    ensures Pending(Avoiding(g, block), visited + {id}, stack')
  {
    forall x, y | x in visited + {id} && y in Avoiding(g, block)(x) ensures y in visited + {id} || y in stack' {
      if x in visited {
        assert y in visited || y in stack + [id];
      } else {
        assert y in g(id);
      }
    }
  }

  /** Pushing the targets that are not yet visited. */
  method PushUnvisited(targets: seq<string>, visited: set<string>, before: seq<string>) returns (stack: seq<string>)
    ensures forall y :: y in stack <==> y in before || (y in targets && y !in visited)
  {
    stack := before;
    for i := 0 to |targets|
      invariant forall y :: y in stack <==> y in before || (y in targets[..i] && y !in visited)
    {
      assert targets[..i + 1] == targets[..i] + [targets[i]];
      if targets[i] !in visited {
        stack := stack + [targets[i]];
      }
    }
    assert targets[..|targets|] == targets;
  }

  /**
   The stack walk of checkReachability and checkNestedParallel: it visits exactly the nodes
   reachable from the starts without entering a blocked one.
   */
  method Explore(g: Graph, starts: seq<string>, block: set<string>, ghost universe: set<string>) returns (visited: set<string>)
    requires forall s :: s in starts ==> s in universe
    requires EngineValidator.Inside(g, universe)
    ensures forall x :: x in visited <==> From(Avoiding(g, block), starts, block, x)
  {
    hide From, Pending, EngineValidator.Inside, Avoiding;
    ghost var h := Avoiding(g, block);
    visited := {};
    var stack := starts;
    FromStarts(h, starts, block);
    PendingNothing(h, starts);
    while stack != []
      invariant visited <= universe && forall x :: x in stack ==> x in universe
      invariant AllFrom(h, starts, block, visited) && StackFrom(h, starts, block, stack)
      invariant Pending(h, visited, stack)
      invariant forall s :: s in starts && s !in block ==> s in visited || s in stack
      invariant visited !! block
      decreases |universe - visited|, |stack|
    {
      var id := stack[|stack| - 1];
      var rest := stack[..|stack| - 1];
      assert stack == rest + [id];
      if id in block || id in visited {
        PendingDrop(g, block, visited, rest, id);
        stack := rest;
        continue;
      }
      var targets := g(id);
      InsideAt(g, universe, id);
      var stack' := PushUnvisited(targets, visited + {id}, rest);
      VisitPending(g, block, visited, rest, id, stack');
      PushedFrom(g, starts, block, id, rest, stack', visited + {id});
      EngineValidator.Smaller(universe, visited, id);
      visited := visited + {id};
      stack := stack';
    }
    WalkComplete(h, starts, block, visited);
  }

  lemma InsideAt(g: Graph, universe: set<string>, id: string)
    requires EngineValidator.Inside(g, universe)
    ensures forall t :: t in g(id) ==> t in universe
  {
  }

  lemma PendingNothing(h: Graph, stack: seq<string>)
    ensures Pending(h, {}, stack)
  {
  }

  lemma PendingDrop(g: Graph, block: set<string>, visited: set<string>, rest: seq<string>, id: string)
    requires Pending(Avoiding(g, block), visited, rest + [id]) && (id in block || id in visited)
    ensures Pending(Avoiding(g, block), visited, rest)
  {
    var h := Avoiding(g, block);
    forall x, y | x in visited && y in h(x) ensures y in visited || y in rest {
      assert y in visited || y in rest + [id];
    }
  }

  lemma PushedFrom(g: Graph, starts: seq<string>, block: set<string>, id: string, rest: seq<string>, stack: seq<string>, visited: set<string>)
    requires From(Avoiding(g, block), starts, block, id) && StackFrom(Avoiding(g, block), starts, block, rest)
    requires forall y :: y in stack <==> y in rest || (y in g(id) && y !in visited)
    ensures StackFrom(Avoiding(g, block), starts, block, stack)
  {
    hide From;
    forall x | x in stack && x !in block ensures From(Avoiding(g, block), starts, block, x) {
      if x !in rest {
        FromNext(g, starts, block, id, x);
      }
    }
  }

  // ---- the graph rules ----

  const NO_ID: set<string> := {""}

  /** The steps checkReachability marks. */
  ghost predicate Marked(def: RawDefinition, id: string)
    requires AllTyped(def) && def.steps != []
  {
    From(Avoiding(StepGraph(def), NO_ID), [EntryId(def)], NO_ID, id)
  }

  ghost predicate ReachOk(def: RawDefinition)
    requires AllTyped(def) && def.steps != []
  {
    && (forall i :: 0 <= i < |def.steps| ==> Marked(def, def.steps[i].id))
    && (exists id :: Marked(def, id) && Indexed(def.steps, id).Some? && Indexed(def.steps, id).value.typ == End)
  }

  /** The graph without timers that checkNestedParallel walks. */
  function FlowGraph(def: RawDefinition): Graph
    requires AllTyped(def)
  {
    (id: string) => var s := Indexed(def.steps, id); if s.Some? && WellTyped(s.value) then OutgoingTargets(s.value) else []
  }

  /** `id` can be reached from the branches of `s` before its join. */
  ghost predicate Inner(def: RawDefinition, s: RawStep, id: string)
    requires AllTyped(def) && s.typ == ParallelGateway && WellTyped(s)
  {
    var block := {"", s.joinStep.value};
    From(Avoiding(FlowGraph(def), block), s.parallelNextSteps.value, block, id)
  }

  ghost predicate NotNested(def: RawDefinition, s: RawStep)
    requires AllTyped(def) && WellTyped(s)
  {
    s.typ == ParallelGateway ==>
      forall id :: Inner(def, s, id) && Indexed(def.steps, id).Some? ==> Indexed(def.steps, id).value.typ != ParallelGateway
  }

  /** Everything the validator reports as an error, linting aside, is absent. */
  ghost predicate ErrorFree(def: RawDefinition, iso: string -> bool)
    requires AllTyped(def)
  {
    && EngineValidator.IdOk(def.id) && NamesOk(def) && def.steps != [] && IdsUnique(def) && IdsPresent(def) && TypesValid(def)
    && NextWorkflowOk(def)
    && (forall s :: s in def.steps ==>
          ShapeOk(s) && RefsOk(s, Ids(def)) && BoundaryOk(s, Ids(def), iso) && JoinTargetOk(def, s) && NotNested(def, s))
    && ReachOk(def)
  }

  // ---- the checks ----

  method CheckRoot(def: RawDefinition) returns (out: seq<Diagnostic>)
    ensures AllErrors(out)
    ensures out == [] <==> EngineValidator.IdOk(def.id) && !Blank(def.name) && def.steps != [] && NextWorkflowOk(def)
  {
    out := [];
    if def.id == "" || (exists i :: 0 <= i < |def.id| && !EngineValidator.IdChar(def.id[i])) || |def.id| > 256 {
      out := out + [Diagnostic("ID_FORMAT", "")];
    }
    if Blank(def.name) {
      out := out + [Diagnostic("NAME_REQUIRED", "")];
    }
    if def.steps == [] {
      out := out + [Diagnostic("STEPS_NONEMPTY", "")];
    }
    var enabled := def.autoStartNextWorkflow == Some(true);
    if enabled != Given(def.nextWorkflowId) {
      out := out + [Diagnostic("NEXT_WORKFLOW_CONSISTENCY", "")];
    }
  }

  method CheckIdsUnique(def: RawDefinition) returns (out: seq<Diagnostic>)
    ensures AllErrors(out) && (out == [] <==> IdsUnique(def))
  {
    out := [];
    var seen: set<string> := {};
    for i := 0 to |def.steps|
      invariant AllErrors(out)
      invariant forall x :: x in seen <==> exists k :: 0 <= k < i && def.steps[k].id == x
      invariant out == [] <==> forall a, b :: 0 <= a < b < i ==> def.steps[a].id != def.steps[b].id
    {
      if def.steps[i].id in seen {
        out := out + [Diagnostic("STEP_ID_UNIQUE", def.steps[i].id)];
      }
      seen := seen + {def.steps[i].id};
    }
  }

  method CheckStepNames(def: RawDefinition) returns (out: seq<Diagnostic>)
    ensures AllErrors(out)
    ensures out == [] <==> (forall i :: 0 <= i < |def.steps| ==> !Blank(def.steps[i].name)) && IdsPresent(def) && TypesValid(def)
  {
    out := [];
    for i := 0 to |def.steps|
      invariant AllErrors(out)
      invariant out == [] <==>
                  forall k :: 0 <= k < i ==> !Blank(def.steps[k].name) && !Blank(def.steps[k].id) && !def.steps[k].typ.Unsupported?
    {
      if Blank(def.steps[i].name) {
        out := out + [Diagnostic("NAME_REQUIRED", def.steps[i].id)];
      }
      if Blank(def.steps[i].id) {
        out := out + [Diagnostic("STEP_ID_REQUIRED", "")];
      }
      if def.steps[i].typ.Unsupported? {
        out := out + [Diagnostic("STEP_TYPE_VALID", def.steps[i].id)];
      }
    }
  }

  lemma TableCodes(node: string)
    ensures IsError(Diagnostic("DECISION_TABLE_HAS_RULES", node)) && IsError(Diagnostic("DECISION_TABLE_HAS_NEXT", node))
    ensures IsError(Diagnostic("DECISION_TABLE_HIT_POLICY_UNKNOWN", node)) && IsError(Diagnostic("DECISION_TABLE_AGGREGATOR_ON_NON_C", node))
    ensures IsError(Diagnostic("DECISION_TABLE_LEGACY_THEN", node)) && IsError(Diagnostic("STEP_FIELD_INVALID", node))
    ensures IsError(Diagnostic("DECISION_TABLE_LEGACY_DEFAULT_NEXT_STEP", node))
  {
  }

  method CheckTableShape(s: RawStep) returns (out: seq<Diagnostic>)
    requires s.typ == DecisionTable && WellTyped(s)
    ensures AllErrors(out) && (out == [] <==> TableShapeOk(s))
  {
    TableCodes(s.id);
    hide IsError, Blank;
    out := [];
    var t := s.decisionTable.value;
    if t.rules == [] {
      out := out + [Diagnostic("DECISION_TABLE_HAS_RULES", s.id)];
    }
    if !Given(s.nextStep) {
      out := out + [Diagnostic("DECISION_TABLE_HAS_NEXT", s.id)];
    }
    if s.hitPolicy.Some? && !EngineValidator.ValidHitPolicy(s.hitPolicy.value) {
      out := out + [Diagnostic("DECISION_TABLE_HIT_POLICY_UNKNOWN", s.id)];
    }
    if s.hitPolicy.Some? && |s.hitPolicy.value| > 1 && s.hitPolicy.value[0] != 'C' && s.hitPolicy.value[1] in {'+', '#', '>', '<'} {
      out := out + [Diagnostic("DECISION_TABLE_AGGREGATOR_ON_NON_C", s.id)];
    }
    ghost var before := out == [];
    for i := 0 to |t.rules|
      invariant AllErrors(out)
      invariant out == [] <==> before && forall k :: 0 <= k < i ==> !t.rules[k].hasThen
    {
      if t.rules[i].hasThen {
        out := out + [Diagnostic("DECISION_TABLE_LEGACY_THEN", s.id)];
      }
    }
    if t.hasDefaultNextStep {
      out := out + [Diagnostic("DECISION_TABLE_LEGACY_DEFAULT_NEXT_STEP", s.id)];
    }
    if s.conditionalNextSteps.Some? || s.transformations.Some? || s.parallelNextSteps.Some? || s.joinStep.Some?
       || s.jobType.Some? || s.delegateClass.Some? || s.retryCount.Some? || s.boundaryEvents.Some? {
      out := out + [Diagnostic("STEP_FIELD_INVALID", s.id)];
    }
  }

  method CheckShape(s: RawStep) returns (out: seq<Diagnostic>)
    requires WellTyped(s)
    ensures AllErrors(out) && (out == [] <==> ShapeOk(s))
  {
    out := [];
    match s.typ
    case Decision =>
      if s.conditionalNextSteps.value == [] {
        out := [Diagnostic("DECISION_HAS_BRANCHES", s.id)];
      }
    case DecisionTable => out := CheckTableShape(s);
    case Transformation =>
      if !Given(s.nextStep) {
        out := out + [Diagnostic("TRANSFORMATION_HAS_NEXT", s.id)];
      }
      if s.transformations.value == map[] {
        out := out + [Diagnostic("TRANSFORMATION_HAS_ENTRIES", s.id)];
      }
    case Wait =>
      if !Given(s.nextStep) {
        out := [Diagnostic("WAIT_HAS_NEXT", s.id)];
      }
    case ParallelGateway =>
      if |s.parallelNextSteps.value| < 2 {
        out := out + [Diagnostic("PARALLEL_MIN_BRANCHES", s.id)];
      }
      if !Given(s.joinStep) {
        out := out + [Diagnostic("PARALLEL_HAS_JOIN", s.id)];
      }
    case JoinGateway =>
      if !Given(s.nextStep) {
        out := [Diagnostic("JOIN_HAS_NEXT", s.id)];
      }
    case _ =>
  }

  method CheckTargets(targets: seq<string>, ids: set<string>, node: string) returns (out: seq<Diagnostic>)
    ensures AllErrors(out) && (out == [] <==> forall i :: 0 <= i < |targets| ==> targets[i] in ids)
  {
    out := [];
    for i := 0 to |targets|
      invariant AllErrors(out) && (out == [] <==> forall k :: 0 <= k < i ==> targets[k] in ids)
    {
      if targets[i] !in ids {
        out := out + [Diagnostic("REF_RESOLVES", node)];
      }
    }
  }

  method CheckRefs(s: RawStep, ids: set<string>) returns (out: seq<Diagnostic>)
    requires WellTyped(s)
    ensures AllErrors(out) && (out == [] <==> RefsOk(s, ids))
  {
    out := [];
    match s.typ
    case Decision =>
      out := CheckTargets(Targets(s.conditionalNextSteps.value), ids, s.id);
      assert forall i :: 0 <= i < |s.conditionalNextSteps.value| ==>
               Targets(s.conditionalNextSteps.value)[i] == s.conditionalNextSteps.value[i].target;
    case ParallelGateway =>
      out := CheckTargets(s.parallelNextSteps.value, ids, s.id);
      if s.joinStep.value != "" && s.joinStep.value !in ids {
        out := out + [Diagnostic("REF_RESOLVES", s.id)];
      }
    case End =>
    case Unsupported(_) =>
    case _ =>
      if Text(s.nextStep) != "" && Text(s.nextStep) !in ids {
        out := [Diagnostic("REF_RESOLVES", s.id)];
      }
  }

  method CheckBoundary(s: RawStep, ids: set<string>, iso: string -> bool) returns (out: seq<Diagnostic>)
    ensures AllErrors(out) && (out == [] <==> BoundaryOk(s, ids, iso))
  {
    out := [];
    if !Parked(s.typ) {
      if s.boundaryEvents.Some? {
        out := [Diagnostic("BOUNDARY_PARENT_SUPPORTS", s.id)];
      }
      return;
    }
    var events := Events(s);
    for i := 0 to |events|
      invariant AllErrors(out) && (out == [] <==> forall k :: 0 <= k < i ==> TimerOk(events[k], ids, iso))
    {
      var e := events[i];
      if e.kind != "TIMER" {
        out := out + [Diagnostic("BOUNDARY_TYPE", s.id)];
      }
      if e.duration == "" || !iso(e.duration) {
        out := out + [Diagnostic("BOUNDARY_DURATION", s.id)];
      }
      if e.target == "" || e.target !in ids {
        out := out + [Diagnostic("BOUNDARY_TARGET_RESOLVES", s.id)];
      }
    }
  }

  method CheckJoinTarget(def: RawDefinition, index: map<string, RawStep>, s: RawStep) returns (out: seq<Diagnostic>)
    requires forall id :: id in index <==> Indexed(def.steps, id).Some?
    requires forall id :: id in index ==> Some(index[id]) == Indexed(def.steps, id)
    ensures AllErrors(out) && (out == [] <==> JoinTargetOk(def, s))
  {
    out := [];
    if s.typ == ParallelGateway && s.joinStep.Some? && s.joinStep.value in index && index[s.joinStep.value].typ != JoinGateway {
      out := [Diagnostic("PARALLEL_HAS_JOIN", s.id)];
    }
  }

  lemma GraphsInside(def: RawDefinition)
    requires AllTyped(def)
    ensures EngineValidator.Inside(StepGraph(def), Mentioned(def.steps))
    ensures EngineValidator.Inside(FlowGraph(def), Mentioned(def.steps))
  {
    forall a, b | b in StepGraph(def)(a) ensures b in Mentioned(def.steps) {
      SuccessorsMentioned(def, a, b);
    }
    forall a, b | b in FlowGraph(def)(a) ensures b in Mentioned(def.steps) {
      assert b in StepGraph(def)(a);
      SuccessorsMentioned(def, a, b);
    }
  }

  method CheckReachability(def: RawDefinition, index: map<string, RawStep>) returns (out: seq<Diagnostic>)
    requires AllTyped(def) && def.steps != []
    requires forall id :: id in index <==> Indexed(def.steps, id).Some?
    requires forall id :: id in index ==> Some(index[id]) == Indexed(def.steps, id)
    ensures AllErrors(out) && (out == [] <==> ReachOk(def))
  {
    hide From, Avoiding, StepGraph, EngineValidator.Inside, AllTyped, Mentioned, Indexed, ReachOk;
    GraphsInside(def);
    var visited := Explore(StepGraph(def), [EntryId(def)], NO_ID, Mentioned(def.steps) + {EntryId(def)}) by {
      InsideMore(StepGraph(def), Mentioned(def.steps), EntryId(def));
    }
    out := [];
    for i := 0 to |def.steps|
      invariant AllErrors(out) && (out == [] <==> forall k :: 0 <= k < i ==> def.steps[k].id in visited)
    {
      if def.steps[i].id !in visited {
        out := out + [Diagnostic("ALL_REACHABLE", def.steps[i].id)];
      }
    }
    var endReached := exists id :: id in visited && id in index && index[id].typ == End;
    if !endReached {
      out := out + [Diagnostic("END_REACHABLE", "")];
    }
    ReachMeans(def, index, visited);
  }

  lemma ReachMeans(def: RawDefinition, index: map<string, RawStep>, visited: set<string>)
    requires AllTyped(def) && def.steps != []
    requires forall id :: id in index <==> Indexed(def.steps, id).Some?
    requires forall id :: id in index ==> Some(index[id]) == Indexed(def.steps, id)
    requires forall id :: id in visited <==> Marked(def, id)
    ensures ReachOk(def) <==>
            && (forall k :: 0 <= k < |def.steps| ==> def.steps[k].id in visited)
            && (exists id :: id in visited && id in index && index[id].typ == End)
  {
    hide Marked, Indexed, AllTyped;
  }

  lemma InsideMore(g: Graph, universe: set<string>, id: string)
    requires EngineValidator.Inside(g, universe)
    ensures EngineValidator.Inside(g, universe + {id})
  {
  }

  lemma InsideAll(g: Graph, universe: set<string>, ids: seq<string>)
    requires EngineValidator.Inside(g, universe)
    ensures EngineValidator.Inside(g, universe + set x | x in ids)
  {
  }

  method CheckNested(def: RawDefinition, index: map<string, RawStep>, s: RawStep) returns (out: seq<Diagnostic>)
    requires AllTyped(def) && WellTyped(s)
    requires forall id :: id in index <==> Indexed(def.steps, id).Some?
    requires forall id :: id in index ==> Some(index[id]) == Indexed(def.steps, id)
    ensures AllErrors(out) && (out == [] <==> NotNested(def, s))
  {
    hide From, Avoiding, FlowGraph, EngineValidator.Inside, AllTyped, Mentioned, Indexed;
    out := [];
    if s.typ != ParallelGateway {
      return;
    }
    GraphsInside(def);
    var starts, block := s.parallelNextSteps.value, {"", s.joinStep.value};
    InsideAll(FlowGraph(def), Mentioned(def.steps), starts);
    var visited := Explore(FlowGraph(def), starts, block, Mentioned(def.steps) + set x | x in starts);
    var nested := set id | id in visited && id in index && index[id].typ == ParallelGateway;
    NestedMeans(def, index, s, visited, nested);
    out := ReportNested(nested);
  }

  method ReportNested(nested: set<string>) returns (out: seq<Diagnostic>)
    ensures AllErrors(out) && (out == [] <==> nested == {})
    ensures forall d :: d in out <==> d.code == "NO_NESTED_PARALLEL" && d.node in nested
  {
    out := [];
    var left := nested;
    while left != {}
      invariant left <= nested && (out == [] <==> left == nested)
      invariant forall d :: d in out <==> d.code == "NO_NESTED_PARALLEL" && d.node in nested && d.node !in left
      decreases |left|
    {
      var id :| id in left;
      out := out + [Diagnostic("NO_NESTED_PARALLEL", id)];
      left := left - {id};
    }
  }

  lemma NestedMeans(def: RawDefinition, index: map<string, RawStep>, s: RawStep, visited: set<string>, nested: set<string>)
    requires AllTyped(def) && s.typ == ParallelGateway && WellTyped(s)
    requires forall id :: id in index <==> Indexed(def.steps, id).Some?
    requires forall id :: id in index ==> Some(index[id]) == Indexed(def.steps, id)
    requires forall id :: id in visited <==> Inner(def, s, id)
    requires nested == set id | id in visited && id in index && index[id].typ == ParallelGateway
    ensures nested == {} <==> NotNested(def, s)
  {
    hide Inner, Indexed, AllTyped, WellTyped;
    if NotNested(def, s) {
      forall id | id in visited && id in index ensures index[id].typ != ParallelGateway {
        assert Inner(def, s, id);
      }
    }
    if nested == {} {
      forall id | Inner(def, s, id) && Indexed(def.steps, id).Some? ensures Indexed(def.steps, id).value.typ != ParallelGateway {
        assert id !in nested;
      }
    }
  }

  method CheckUnknownFields(def: RawDefinition) returns (out: seq<Diagnostic>)
    ensures forall d :: d in out ==> d.code == "UNKNOWN_FIELDS_PRESENT"
    ensures out == [] <==> FieldsKnown(def)
  {
    hide Keys, RootKeys, KnownKeys;
    out := [];
    if !(RootKeys(def) <= KNOWN_ROOT_KEYS) {
      out := [Diagnostic("UNKNOWN_FIELDS_PRESENT", "")];
    }
    ghost var before := out == [];
    for i := 0 to |def.steps|
      invariant forall d :: d in out ==> d.code == "UNKNOWN_FIELDS_PRESENT"
      invariant out == [] <==> before && forall k :: 0 <= k < i ==> Keys(def.steps[k]) <= KnownKeys(def.steps[k].typ)
    {
      if !(Keys(def.steps[i]) <= KnownKeys(def.steps[i].typ)) {
        out := out + [Diagnostic("UNKNOWN_FIELDS_PRESENT", def.steps[i].id)];
      }
    }
  }

  ghost predicate StepClean(def: RawDefinition, s: RawStep, iso: string -> bool)
    requires AllTyped(def) && WellTyped(s)
  {
    ShapeOk(s) && RefsOk(s, Ids(def)) && BoundaryOk(s, Ids(def), iso) && JoinTargetOk(def, s) && NotNested(def, s)
  }

  method CheckSteps(def: RawDefinition, index: map<string, RawStep>, iso: string -> bool) returns (out: seq<Diagnostic>)
    requires AllTyped(def)
    requires forall id :: id in index <==> Indexed(def.steps, id).Some?
    requires forall id :: id in index ==> Some(index[id]) == Indexed(def.steps, id)
    ensures AllErrors(out)
    ensures out == [] <==> forall i :: 0 <= i < |def.steps| ==> StepClean(def, def.steps[i], iso)
  {
    hide ShapeOk, RefsOk, BoundaryOk, JoinTargetOk, NotNested, WellTyped, Indexed, IsError;
    IndexKeys(def, index);
    out := [];
    for i := 0 to |def.steps|
      invariant AllErrors(out)
      invariant out == [] <==> forall k :: 0 <= k < i ==> StepClean(def, def.steps[k], iso)
    {
      var s := def.steps[i];
      var a := CheckShape(s);
      var b := CheckRefs(s, index.Keys);
      var c := CheckBoundary(s, index.Keys, iso);
      var d := CheckJoinTarget(def, index, s);
      var e := CheckNested(def, index, s);
      out := out + (a + b + c + d + e);
    }
  }

  lemma IndexKeys(def: RawDefinition, index: map<string, RawStep>)
    requires forall id :: id in index <==> Indexed(def.steps, id).Some?
    ensures index.Keys == Ids(def)
  {
  }

  ghost predicate HasError(out: seq<Diagnostic>) {
    exists d :: d in out && IsError(d)
  }

  ghost predicate HasCode(out: seq<Diagnostic>, code: string) {
    exists d :: d in out && d.code == code
  }

  lemma CleanMeans(def: RawDefinition, iso: string -> bool)
    requires AllTyped(def)
    ensures ErrorFree(def, iso) <==>
              && EngineValidator.IdOk(def.id) && NamesOk(def) && def.steps != [] && IdsUnique(def) && IdsPresent(def) && TypesValid(def)
              && NextWorkflowOk(def) && (forall i :: 0 <= i < |def.steps| ==> StepClean(def, def.steps[i], iso)) && ReachOk(def)
  {
    hide ShapeOk, RefsOk, BoundaryOk, JoinTargetOk, NotNested, WellTyped, ReachOk, NextWorkflowOk, EngineValidator.IdOk, Blank;
  }

  /** All rules but those about expressions. */
  method CheckRules(def: RawDefinition, index: map<string, RawStep>, iso: string -> bool) returns (errors: seq<Diagnostic>)
    requires AllTyped(def)
    requires forall id :: id in index <==> Indexed(def.steps, id).Some?
    requires forall id :: id in index ==> Some(index[id]) == Indexed(def.steps, id)
    ensures AllErrors(errors) && (errors == [] <==> ErrorFree(def, iso))
  {
    hide ErrorFree, StepClean, WellTyped, ReachOk, NextWorkflowOk, EngineValidator.IdOk, Blank, Indexed, IsError;
    CleanMeans(def, iso);
    var root := CheckRoot(def);
    var unique := CheckIdsUnique(def);
    var names := CheckStepNames(def);
    var steps := CheckSteps(def, index, iso);
    var reach := [];
    if def.steps != [] {
      reach := CheckReachability(def, index);
    }
    errors := root + unique + names + steps + reach;
  }

  // ---- expressions ----

  ghost predicate LintFree(def: RawDefinition, lint: Linter) {
    forall i :: 0 <= i < |def.steps| ==> !HasError(lint(def, def.steps[i]))
  }

  /** checkExpressions over all steps. */
  method CheckExpressions(def: RawDefinition, lint: Linter) returns (out: seq<Diagnostic>)
    requires forall s, d :: d in lint(def, s) ==> IsLint(d)
    ensures forall d :: d in out ==> IsLint(d)
    ensures !HasError(out) <==> LintFree(def, lint)
  {
    hide IsLint, IsError;
    out := [];
    for i := 0 to |def.steps|
      invariant forall d :: d in out ==> IsLint(d)
      invariant !HasError(out) <==> forall k :: 0 <= k < i ==> !HasError(lint(def, def.steps[k]))
    {
      HasErrorConcat(out, lint(def, def.steps[i]));
      out := out + lint(def, def.steps[i]);
    }
  }

  lemma HasErrorConcat(a: seq<Diagnostic>, b: seq<Diagnostic>)
    ensures HasError(a + b) <==> HasError(a) || HasError(b)
  {
    hide IsError;
    if HasError(a) {
      var d :| d in a && IsError(d);
      assert d in a + b;
    }
    if HasError(b) {
      var d :| d in b && IsError(d);
      assert d in a + b;
    }
  }

  // ---- warnings ----

  /** Rule `i` stands behind a rule without cells, which matches first. */
  predicate Shadowed(rules: seq<TableRule>, i: nat) {
    i < |rules| && exists k :: 0 <= k < i && rules[k].rule.cells == map[]
  }

  ghost predicate HasShadowedRule(s: RawStep) {
    s.typ == DecisionTable && s.decisionTable.Some? && exists i :: Shadowed(s.decisionTable.value.rules, i)
  }

  /** The rules behind the first catch-all, exactly. */
  method ShadowedRules(rules: seq<TableRule>) returns (out: seq<nat>)
    ensures forall i :: i in out <==> Shadowed(rules, i)
  {
    out := [];
    var first := -1;
    for i := 0 to |rules|
      invariant -1 <= first < i
      invariant first >= 0 ==> rules[first].rule.cells == map[]
      invariant forall k :: 0 <= k < (if first >= 0 then first else i) ==> rules[k].rule.cells != map[]
      invariant forall m: nat :: m in out <==> m < i && Shadowed(rules, m)
    {
      if first >= 0 && i > first {
        assert Shadowed(rules, i);
        out := out + [i];
      } else if rules[i].rule.cells == map[] && first == -1 {
        first := i;
      }
    }
  }

  method CheckShadowedRules(def: RawDefinition) returns (out: seq<Diagnostic>)
    ensures forall d :: d in out ==> d.code == "DECISION_TABLE_UNREACHABLE_RULE"
    ensures out == [] <==> forall i :: 0 <= i < |def.steps| ==> !HasShadowedRule(def.steps[i])
  {
    out := [];
    for i := 0 to |def.steps|
      invariant forall d :: d in out ==> d.code == "DECISION_TABLE_UNREACHABLE_RULE"
      invariant out == [] <==> forall k :: 0 <= k < i ==> !HasShadowedRule(def.steps[k])
    {
      var s := def.steps[i];
      if s.typ == DecisionTable && s.decisionTable.Some? {
        var found := ShadowedRules(s.decisionTable.value.rules);
        if found != [] {
          assert found[0] in found;
        }
        out := out + seq(|found|, _ => Diagnostic("DECISION_TABLE_UNREACHABLE_RULE", s.id));
      }
    }
  }

  // ---- the whole validator ----

  /**
   Errors appear exactly when a rule is broken or an expression is at fault, each warning
   exactly when there is what it warns of: a cycle, an unknown field, a rule that cannot match.
   */
  method Validate(def: RawDefinition, iso: string -> bool, lint: Linter) returns (out: seq<Diagnostic>)
    requires AllTyped(def) && forall s, d :: d in lint(def, s) ==> IsLint(d)
    ensures !HasError(out) <==> ErrorFree(def, iso) && LintFree(def, lint)
    ensures HasCode(out, "UNKNOWN_FIELDS_PRESENT") <==> !FieldsKnown(def)
    ensures HasCode(out, "GRAPH_CYCLE") <==> CycleSearch.HasCycle(def)
    ensures HasCode(out, "DECISION_TABLE_UNREACHABLE_RULE") <==> exists i :: 0 <= i < |def.steps| && HasShadowedRule(def.steps[i])
  {
    hide ErrorFree, LintFree, FieldsKnown, CycleSearch.HasCycle, HasShadowedRule, WellTyped, Indexed, HasError, HasCode, IsLint, IsError;
    var index := IndexSteps(def);
    var errors := CheckRules(def, index, iso);
    var lints := CheckExpressions(def, lint);
    var cycle := CycleSearch.CheckGraphCycle(def);
    var cycles := if cycle.Some? then [Diagnostic("GRAPH_CYCLE", cycle.value)] else [];
    var unknown := CheckUnknownFields(def);
    var shadowed := CheckShadowedRules(def);
    out := errors + lints + cycles + unknown + shadowed;
    Collected(errors, lints, cycles, unknown, shadowed);
  }

  lemma NoErrors(out: seq<Diagnostic>)
    requires forall d :: d in out ==> !IsError(d)
    ensures !HasError(out)
  {
  }

  lemma OnlyCode(out: seq<Diagnostic>, code: string)
    requires forall d :: d in out ==> d.code == code
    ensures HasCode(out, code) <==> out != []
  {
    if out != [] {
      assert out[0] in out;
    }
  }

  lemma HasCodeConcat(a: seq<Diagnostic>, b: seq<Diagnostic>, code: string)
    ensures HasCode(a + b, code) <==> HasCode(a, code) || HasCode(b, code)
  {
    if HasCode(a, code) {
      var d :| d in a && d.code == code;
      assert d in a + b;
    }
    if HasCode(b, code) {
      var d :| d in b && d.code == code;
      assert d in a + b;
    }
  }

  lemma HasCodeAll(a: seq<Diagnostic>, b: seq<Diagnostic>, c: seq<Diagnostic>, d: seq<Diagnostic>, e: seq<Diagnostic>, code: string)
    ensures HasCode(a + b + c + d + e, code) <==> HasCode(a, code) || HasCode(b, code) || HasCode(c, code) || HasCode(d, code) || HasCode(e, code)
  {
    hide HasCode;
    HasCodeConcat(a, b, code);
    HasCodeConcat(a + b, c, code);
    HasCodeConcat(a + b + c, d, code);
    HasCodeConcat(a + b + c + d, e, code);
  }

  /** Errors and lints never carry the code of a warning of the other checks. */
  lemma NotTheirs(errors: seq<Diagnostic>, lints: seq<Diagnostic>, code: string)
    requires AllErrors(errors) && (forall d :: d in lints ==> IsLint(d))
    requires code in {"GRAPH_CYCLE", "UNKNOWN_FIELDS_PRESENT", "DECISION_TABLE_UNREACHABLE_RULE"}
    ensures !HasCode(errors, code) && !HasCode(lints, code)
  {
  }

  lemma OtherCode(out: seq<Diagnostic>, code: string, other: string)
    requires (forall d :: d in out ==> d.code == code) && code != other
    ensures !HasCode(out, other)
  {
  }

  lemma Collected(errors: seq<Diagnostic>, lints: seq<Diagnostic>, cycles: seq<Diagnostic>, unknown: seq<Diagnostic>, shadowed: seq<Diagnostic>)
    requires AllErrors(errors) && (forall d :: d in lints ==> IsLint(d))
    requires forall d :: d in cycles ==> d.code == "GRAPH_CYCLE"
    requires forall d :: d in unknown ==> d.code == "UNKNOWN_FIELDS_PRESENT"
    requires forall d :: d in shadowed ==> d.code == "DECISION_TABLE_UNREACHABLE_RULE"
    ensures var out := errors + lints + cycles + unknown + shadowed;
            && (HasError(out) <==> errors != [] || HasError(lints))
            && (HasCode(out, "GRAPH_CYCLE") <==> cycles != [])
            && (HasCode(out, "UNKNOWN_FIELDS_PRESENT") <==> unknown != [])
            && (HasCode(out, "DECISION_TABLE_UNREACHABLE_RULE") <==> shadowed != [])
  {
    NoErrors(cycles);
    NoErrors(unknown);
    NoErrors(shadowed);
    assert HasError(errors) <==> errors != [] by {
      if errors != [] {
        assert errors[0] in errors;
      }
    }
    hide HasError, HasCode;
    HasErrorConcat(errors, lints);
    HasErrorConcat(errors + lints, cycles);
    HasErrorConcat(errors + lints + cycles, unknown);
    HasErrorConcat(errors + lints + cycles + unknown, shadowed);
    var a, b, c := "GRAPH_CYCLE", "UNKNOWN_FIELDS_PRESENT", "DECISION_TABLE_UNREACHABLE_RULE";
    assert a != b && a != c && b != c by { DistinctCodes(); }
    NotTheirs(errors, lints, a);
    NotTheirs(errors, lints, b);
    NotTheirs(errors, lints, c);
    OnlyCode(cycles, a);
    OnlyCode(unknown, b);
    OnlyCode(shadowed, c);
    OtherCode(cycles, a, b);
    OtherCode(cycles, a, c);
    OtherCode(unknown, b, a);
    OtherCode(unknown, b, c);
    OtherCode(shadowed, c, a);
    OtherCode(shadowed, c, b);
    HasCodeAll(errors, lints, cycles, unknown, shadowed, a);
    HasCodeAll(errors, lints, cycles, unknown, shadowed, b);
    HasCodeAll(errors, lints, cycles, unknown, shadowed, c);
  }

  lemma DistinctCodes()
    ensures "GRAPH_CYCLE" != "UNKNOWN_FIELDS_PRESENT" && "GRAPH_CYCLE" != "DECISION_TABLE_UNREACHABLE_RULE"
    ensures "UNKNOWN_FIELDS_PRESENT" != "DECISION_TABLE_UNREACHABLE_RULE"
  {
    assert "GRAPH_CYCLE"[0] == 'G' && "UNKNOWN_FIELDS_PRESENT"[0] == 'U' && "DECISION_TABLE_UNREACHABLE_RULE"[0] == 'D';
  }
}
