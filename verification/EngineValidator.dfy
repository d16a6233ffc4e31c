/**
 The engine's definition validator (internal/definition/validator.go): local rules for every
 step, resolution of references, and a walk of the step graph from the first step.
 */
module EngineValidator {
  import opened Values
  import opened Definitions
  import opened Graphs
  import DecisionTables

  /** An error; the walk's errors name what they are about. */
  datatype Problem = Unreachable(id: string) | NoEndReachable | Broken(rule: string, at: string)

  // ---- the rules ----

  predicate IdChar(c: char) {
    'A' <= c <= 'Z' || 'a' <= c <= 'z' || '0' <= c <= '9' || c == '_' || c == ':' || c == '-'
  }

  predicate IdOk(id: string) {
    id != "" && |id| <= 256 && forall i :: 0 <= i < |id| ==> IdChar(id[i])
  }

  predicate SupportedType(t: string) {
    t in {"string", "number", "integer", "boolean"}
  }

  predicate SchemaOk(s: Schema) {
    && s.properties != map[]
    && (forall n :: n in s.properties ==> SupportedType(s.properties[n]))
    && (forall i :: 0 <= i < |s.required| ==> s.required[i] in s.properties)
  }

  predicate TopOk(def: Definition) {
    && IdOk(def.id) && def.name != "" && def.steps != []
    && (def.autoStartNextWorkflow ==> def.nextWorkflowId != "")
    && (def.inputSchema.Some? ==> SchemaOk(def.inputSchema.value))
  }

  predicate ValidHitPolicy(code: string) {
    code in {"U", "F", "A", "R", "C", "C+", "C#", "C>", "C<"}
  }

  /** The rules of the step's own type. */
  predicate TypeOk(s: Step, ids: set<string>) {
    match s.typ
    case ServiceTask => s.jobType != "" && (s.nextStep != "" ==> s.nextStep in ids)
    case UserTask => s.nextStep != "" ==> s.nextStep in ids
    case Decision => s.branches != [] && forall i :: 0 <= i < |s.branches| ==> s.branches[i].target in ids
    case Transformation => s.nextStep != "" && s.nextStep in ids && s.transformations != map[]
    case Wait => s.nextStep != "" && s.nextStep in ids
    case ParallelGateway =>
      && |s.parallelNextSteps| >= 2 && s.joinStep != "" && s.joinStep in ids
      && forall i :: 0 <= i < |s.parallelNextSteps| ==> s.parallelNextSteps[i] in ids
    case JoinGateway => s.nextStep != "" && s.nextStep in ids
    case End => true
    case DecisionTable => TableOk(s, ids)
    case Unsupported(_) => false
  }

  predicate TableOk(s: Step, ids: set<string>) {
    && s.rules.Some? && s.rules.value != []
    && s.nextStep != "" && s.nextStep in ids
    && (s.hitPolicy != "" ==> ValidHitPolicy(s.hitPolicy))
    && s.branches == [] && s.transformations == map[] && s.parallelNextSteps == [] && s.joinStep == ""
    && s.jobType == "" && s.delegateClass == "" && s.retryCount == 0 && s.boundaryEvents == []
  }

  predicate EventOk(e: BoundaryEvent, ids: set<string>) {
    e.kind == "TIMER" && e.duration != "" && e.target != "" && e.target in ids
  }

  predicate StepOk(s: Step, ids: set<string>) {
    && s.name != "" && TypeOk(s, ids)
    && (s.rules.Some? ==> s.typ == DecisionTable)
    && (s.outputsSchema.Some? ==> s.typ == ServiceTask && SchemaOk(s.outputsSchema.value))
    && (forall i :: 0 <= i < |s.boundaryEvents| ==> EventOk(s.boundaryEvents[i], ids))
  }

  function Ids(steps: seq<Step>): set<string> {
    set s | s in steps :: s.id
  }

  predicate IdsOk(steps: seq<Step>) {
    && (forall i :: 0 <= i < |steps| ==> steps[i].id != "")
    && (forall i, j :: 0 <= i < j < |steps| ==> steps[i].id != steps[j].id)
  }

  // ---- the graph ----

  function Named(id: string): seq<string> {
    if id == "" then [] else [id]
  }

  /** Everything graphWalk follows from a step, whatever its type. */
  function Successors(s: Step): seq<string> {
    Named(s.nextStep) + Targets(s.branches) + s.parallelNextSteps + Named(s.joinStep) + EventTargets(s.boundaryEvents)
  }

  /** The walk follows the next step, every branch, every parallel entry, the join and every timer. */
  lemma SuccessorsAre(s: Step, id: string)
    ensures id in Successors(s) <==>
              || (id != "" && (id == s.nextStep || id == s.joinStep))
              || id in s.parallelNextSteps
              || (exists b :: b in s.branches && b.target == id)
              || (exists e :: e in s.boundaryEvents && e.target == id)
  {
    forall b | b in s.branches ensures b.target in Targets(s.branches) {
      var i :| 0 <= i < |s.branches| && s.branches[i] == b;
      assert Targets(s.branches)[i] == b.target;
    }
    forall e | e in s.boundaryEvents ensures e.target in EventTargets(s.boundaryEvents) {
      var i :| 0 <= i < |s.boundaryEvents| && s.boundaryEvents[i] == e;
      assert EventTargets(s.boundaryEvents)[i] == e.target;
    }
  }

  /** stepByID: empty ids are left out and the last of a repeated id wins. */
  function Lookup(steps: seq<Step>, id: string): (r: Option<Step>)
    ensures r.Some? ==> r.value in steps && r.value.id == id
    ensures r.Some? <==> id != "" && id in Ids(steps)
  {
    if steps == [] then None
    else
      assert steps == steps[..|steps| - 1] + [steps[|steps| - 1]];
      if steps[|steps| - 1].id == id && id != "" then Some(steps[|steps| - 1])
      else Lookup(steps[..|steps| - 1], id)
  }

  function WalkGraph(def: Definition): Graph {
    (id: string) => var s := Lookup(def.steps, id); if s.Some? then Successors(s.value) else []
  }

  ghost predicate AllReachable(def: Definition)
    requires def.steps != []
  {
    forall s :: s in def.steps ==> Reaches(WalkGraph(def), def.steps[0].id, s.id)
  }

  ghost predicate EndReachable(def: Definition)
    requires def.steps != []
  {
    exists id :: Reaches(WalkGraph(def), def.steps[0].id, id)
                 && Lookup(def.steps, id).Some? && Lookup(def.steps, id).value.typ == End
  }

  /** What the validator is for: the definitions the engine accepts. */
  ghost predicate Accepted(def: Definition) {
    && TopOk(def) && IdsOk(def.steps)
    && (forall s :: s in def.steps ==> StepOk(s, Ids(def.steps)))
    && AllReachable(def) && EndReachable(def)
  }

  // ---- checking one step ----

  method CheckSchema(s: Schema, at: string) returns (errs: seq<Problem>)
    ensures errs == [] <==> SchemaOk(s)
    ensures forall p :: p in errs ==> p.Broken?
  {
    errs := [];
    if s.properties == map[] {
      errs := errs + [Broken("properties must not be empty", at)];
    }
    var names := s.properties.Keys;
    while names != {}
      invariant names <= s.properties.Keys
      invariant errs == [] <==>
                  s.properties != map[] && forall n :: n in s.properties && n !in names ==> SupportedType(s.properties[n])
      invariant forall p :: p in errs ==> p.Broken?
      decreases |names|
    {
      var n :| n in names;
      if !SupportedType(s.properties[n]) {
        errs := errs + [Broken("unsupported type", n)];
      }
      names := names - {n};
    }
    ghost var before := errs == [];
    for i := 0 to |s.required|
      invariant errs == [] <==> before && forall k :: 0 <= k < i ==> s.required[k] in s.properties
      invariant forall p :: p in errs ==> p.Broken?
    {
      if s.required[i] !in s.properties {
        errs := errs + [Broken("required name", s.required[i])];
      }
    }
  }

  method CheckTop(def: Definition) returns (errs: seq<Problem>)
    ensures errs == [] <==> TopOk(def)
    ensures forall p :: p in errs ==> p.Broken?
  {
    errs := [];
    if def.id == "" {
      errs := errs + [Broken("id is required", "id")];
    } else if |def.id| > 256 {
      errs := errs + [Broken("id too long", "id")];
    } else if exists i :: 0 <= i < |def.id| && !IdChar(def.id[i]) {
      errs := errs + [Broken("id format", "id")];
    }
    if def.name == "" {
      errs := errs + [Broken("name is required", "name")];
    }
    if def.steps == [] {
      errs := errs + [Broken("steps must not be empty", "steps")];
    }
    if def.autoStartNextWorkflow && def.nextWorkflowId == "" {
      errs := errs + [Broken("nextWorkflowId is required", "nextWorkflowId")];
    }
    if def.inputSchema.Some? {
      var more := CheckSchema(def.inputSchema.value, "input_schema");
      errs := errs + more;
    }
  }

  method CheckRefs(targets: seq<string>, ids: set<string>, at: string) returns (errs: seq<Problem>)
    ensures errs == [] <==> forall i :: 0 <= i < |targets| ==> targets[i] in ids
    ensures forall p :: p in errs ==> p.Broken?
  {
    errs := [];
    for i := 0 to |targets|
      invariant errs == [] <==> forall k :: 0 <= k < i ==> targets[k] in ids
      invariant forall p :: p in errs ==> p.Broken?
    {
      if targets[i] !in ids {
        errs := errs + [Broken("unknown step", at)];
      }
    }
  }

  /** validateDecisionTable. */
  method CheckTable(s: Step, ids: set<string>) returns (errs: seq<Problem>)
    ensures errs == [] <==> TableOk(s, ids)
    ensures forall p :: p in errs ==> p.Broken?
  {
    if s.rules == None {
      return [Broken("decisionTable payload is required", s.id)];
    }
    errs := [];
    if s.rules.value == [] {
      errs := errs + [Broken("rules must not be empty", s.id)];
    }
    if s.nextStep == "" {
      errs := errs + [Broken("nextStep is required", s.id)];
    } else if s.nextStep !in ids {
      errs := errs + [Broken("unknown step", s.id)];
    }
    if s.hitPolicy != "" && !ValidHitPolicy(s.hitPolicy) {
      errs := errs + [Broken("hitPolicy", s.id)];
    }
    if s.branches != [] || s.transformations != map[] || s.parallelNextSteps != [] || s.joinStep != "" {
      errs := errs + [Broken("foreign sequencing field", s.id)];
    }
    if s.jobType != "" || s.delegateClass != "" || s.retryCount != 0 || s.boundaryEvents != [] {
      errs := errs + [Broken("foreign task field", s.id)];
    }
  }

  method CheckType(s: Step, ids: set<string>) returns (errs: seq<Problem>)
    ensures errs == [] <==> TypeOk(s, ids)
    ensures forall p :: p in errs ==> p.Broken?
  {
    errs := [];
    match s.typ
    case ServiceTask =>
      if s.jobType == "" {
        errs := errs + [Broken("jobType is required", s.id)];
      }
      if s.nextStep != "" && s.nextStep !in ids {
        errs := errs + [Broken("unknown step", s.id)];
      }
    case UserTask =>
      if s.nextStep != "" && s.nextStep !in ids {
        errs := errs + [Broken("unknown step", s.id)];
      }
    case Decision =>
      if s.branches == [] {
        errs := errs + [Broken("conditionalNextSteps must not be empty", s.id)];
      }
      var more := CheckRefs(Targets(s.branches), ids, s.id);
      errs := errs + more;
      assert forall i :: 0 <= i < |s.branches| ==> Targets(s.branches)[i] == s.branches[i].target;
    case Transformation =>
      errs := CheckNext(s, ids);
      if s.transformations == map[] {
        errs := errs + [Broken("transformations must not be empty", s.id)];
      }
    case Wait => errs := CheckNext(s, ids);
    case ParallelGateway =>
      if |s.parallelNextSteps| < 2 {
        errs := errs + [Broken("parallelNextSteps must have at least 2 entries", s.id)];
      }
      if s.joinStep == "" {
        errs := errs + [Broken("joinStep is required", s.id)];
      } else if s.joinStep !in ids {
        errs := errs + [Broken("unknown step", s.id)];
      }
      var more := CheckRefs(s.parallelNextSteps, ids, s.id);
      errs := errs + more;
    case JoinGateway => errs := CheckNext(s, ids);
    case End =>
    case DecisionTable => errs := CheckTable(s, ids);
    case Unsupported(_) => errs := [Broken("unsupported type", s.id)];
  }

  method CheckNext(s: Step, ids: set<string>) returns (errs: seq<Problem>)
    ensures errs == [] <==> s.nextStep != "" && s.nextStep in ids
    ensures forall p :: p in errs ==> p.Broken?
  {
    errs := [];
    if s.nextStep == "" {
      errs := [Broken("nextStep is required", s.id)];
    } else if s.nextStep !in ids {
      errs := [Broken("unknown step", s.id)];
    }
  }

  method CheckEvents(s: Step, ids: set<string>) returns (errs: seq<Problem>)
    ensures errs == [] <==> forall i :: 0 <= i < |s.boundaryEvents| ==> EventOk(s.boundaryEvents[i], ids)
    ensures forall p :: p in errs ==> p.Broken?
  {
    errs := [];
    for i := 0 to |s.boundaryEvents|
      invariant errs == [] <==> forall k :: 0 <= k < i ==> EventOk(s.boundaryEvents[k], ids)
      invariant forall p :: p in errs ==> p.Broken?
    {
      var e := s.boundaryEvents[i];
      if e.kind != "TIMER" {
        errs := errs + [Broken("unsupported event type", s.id)];
      }
      if e.duration == "" {
        errs := errs + [Broken("duration is required", s.id)];
      }
      if e.target == "" {
        errs := errs + [Broken("targetStepId is required", s.id)];
      } else if e.target !in ids {
        errs := errs + [Broken("unknown step", s.id)];
      }
    }
  }

  method CheckStep(s: Step, ids: set<string>) returns (errs: seq<Problem>)
    ensures errs == [] <==> StepOk(s, ids)
    ensures forall p :: p in errs ==> p.Broken?
  {
    errs := [];
    if s.name == "" {
      errs := errs + [Broken("name is required", s.id)];
    }
    var own := CheckType(s, ids);
    errs := errs + own;
    if s.typ != DecisionTable && s.rules.Some? {
      errs := errs + [Broken("decisionTable is not valid here", s.id)];
    }
    if s.outputsSchema.Some? {
      if s.typ != ServiceTask {
        errs := errs + [Broken("outputs_schema is not valid here", s.id)];
      } else {
        var schema := CheckSchema(s.outputsSchema.value, s.id);
        errs := errs + schema;
      }
    }
    var events := CheckEvents(s, ids);
    errs := errs + events;
  }

  // ---- graphWalk ----

  /** All successors of the nodes in `a` are in `all`. */
  ghost predicate Handled(g: Graph, a: set<string>, all: set<string>) {
    forall x, y :: x in a && y in g(x) ==> y in all
  }

  ghost predicate ReachedFrom(g: Graph, id: string, a: set<string>) {
    forall x :: x in a ==> Reaches(g, id, x)
  }

  lemma HandledJoin(g: Graph, a: set<string>, b: set<string>, small: set<string>, all: set<string>)
    requires Handled(g, a, small) && Handled(g, b, all) && small <= all
    ensures Handled(g, a + b, all)
  {
  }

  lemma ReachedThrough(g: Graph, id: string, t: string, a: set<string>, b: set<string>)
    requires t in g(id) && ReachedFrom(g, id, a) && ReachedFrom(g, t, b)
    ensures ReachedFrom(g, id, a + b)
  {
    hide Reaches;
    forall x | x in a + b ensures Reaches(g, id, x) {
      if x in b {
        ReachesStep(g, id, t, x);
      }
    }
  }

  lemma WalkBegins(g: Graph, id: string, visited: set<string>)
    requires id !in visited
    ensures ReachedFrom(g, id, {id}) && Handled(g, {}, visited + {id}) && (visited + {id}) - visited == {id}
    ensures (visited + {id}) - (visited + {id}) == {}
  {
    ReachesSelf(g, id);
  }

  /** One more target walked: `was` before the call, `now` after it. */
  lemma WalkContinues(g: Graph, id: string, t: string, base: set<string>, start: set<string>, was: set<string>, now: set<string>)
    requires base <= start <= was <= now && t in g(id)
    requires ReachedFrom(g, id, was - base) && Handled(g, was - start, was)
    requires ReachedFrom(g, t, now - was) && Handled(g, now - was, now)
    ensures ReachedFrom(g, id, now - base) && Handled(g, now - start, now)
  {
    hide ReachedFrom, Handled;
    ReachedThrough(g, id, t, was - base, now - was);
    assert now - base == (was - base) + (now - was);
    HandledJoin(g, was - start, now - was, was, now);
    assert now - start == (was - start) + (now - was);
  }

  lemma WalkEnds(g: Graph, id: string, base: set<string>, all: set<string>)
    requires id !in base && base + {id} <= all && (forall k :: 0 <= k < |g(id)| ==> g(id)[k] in all)
    requires Handled(g, all - (base + {id}), all)
    ensures Handled(g, all - base, all)
  {
    assert Handled(g, {id}, all);
    HandledJoin(g, {id}, all - (base + {id}), all, all);
    assert all - base == {id} + (all - (base + {id}));
  }

  function Follow(steps: map<string, Step>): Graph {
    (id: string) => if id in steps then Successors(steps[id]) else []
  }

  ghost predicate Inside(g: Graph, universe: set<string>) {
    forall a, b :: b in g(a) ==> b in universe
  }

  lemma FollowAt(steps: map<string, Step>, id: string, universe: set<string>)
    requires Inside(Follow(steps), universe)
    ensures Follow(steps)(id) == if id in steps then Successors(steps[id]) else []
    ensures forall t :: t in Follow(steps)(id) ==> t in universe
  {
  }

  /** The map of steps and the visited marks that graphWalk shares between its calls. */
  class Walker {
    const steps: map<string, Step>
    var visited: set<string>

    constructor (steps: map<string, Step>)
      ensures this.steps == steps && visited == {}
    {
      this.steps := steps;
      visited := {};
    }

    /** Nodes marked by this call are reachable from `id`, and everything they lead to is marked. */
    method Walk(id: string, ghost universe: set<string>)
      requires id in universe && visited <= universe && Inside(Follow(steps), universe)
      modifies this
      ensures old(visited) <= visited <= universe && id in visited
      ensures ReachedFrom(Follow(steps), id, visited - old(visited)) && Handled(Follow(steps), visited - old(visited), visited)
      decreases |universe - visited|
    {
      hide ReachedFrom, Handled, Successors, Inside, Follow;
      ghost var g := Follow(steps);
      ghost var base := visited;
      if id in visited {
        NothingWalked(g, id, visited);
        return;
      }
      WalkBegins(g, id, visited);
      visited := visited + {id};
      Smaller(universe, base, id);
      var targets := if id in steps then Successors(steps[id]) else [];
      FollowAt(steps, id, universe);
      ghost var start := visited;
      for i := 0 to |targets|
        invariant start <= visited <= universe
        invariant forall k :: 0 <= k < i ==> targets[k] in visited
        invariant ReachedFrom(g, id, visited - base) && Handled(g, visited - start, visited)
      {
        ghost var was := visited;
        SubsetSize(universe - visited, universe - start);
        assert targets[i] in g(id);
        Walk(targets[i], universe);
        WalkContinues(g, id, targets[i], base, start, was, visited);
      }
      WalkEnds(g, id, base, visited);
    }
  }

  lemma NothingWalked(g: Graph, id: string, visited: set<string>)
    ensures ReachedFrom(g, id, visited - visited) && Handled(g, visited - visited, visited)
  {
  }

  lemma Smaller(universe: set<string>, base: set<string>, id: string)
    requires id in universe && id !in base
    ensures |universe - (base + {id})| < |universe - base|
  {
    assert universe - base == (universe - (base + {id})) + {id};
  }

  /** graphWalk from one step marks exactly what can be reached from it. */
  method Reachable(def: Definition, steps: map<string, Step>, start: string) returns (visited: set<string>)
    requires forall id :: id in steps <==> Lookup(def.steps, id).Some?
    requires forall id :: id in steps ==> Some(steps[id]) == Lookup(def.steps, id)
    ensures forall x :: x in visited <==> Reaches(WalkGraph(def), start, x)
  {
    hide Reaches;
    var walker := new Walker(steps);
    ghost var universe := {start} + set id, t | id in steps && t in Successors(steps[id]) :: t;
    assert Inside(Follow(steps), universe);
    walker.Walk(start, universe);
    visited := walker.visited;
    assert visited - {} == visited;
    ClosedContains(Follow(steps), visited, start);
    SameReach(Follow(steps), WalkGraph(def), start);
  }

  lemma {:induction false} SameWithin(g: Graph, h: Graph, a: string, b: string, n: nat)
    requires (forall id :: g(id) == h(id)) && Within(g, a, b, n)
    ensures Within(h, a, b, n)
    decreases n
  {
    if a != b {
      var c :| c in g(a) && Within(g, c, b, n - 1);
      SameWithin(g, h, c, b, n - 1);
    }
  }

  lemma SameReach(g: Graph, h: Graph, a: string)
    requires forall id :: g(id) == h(id)
    ensures forall x :: Reaches(g, a, x) <==> Reaches(h, a, x)
  {
    forall x ensures Reaches(g, a, x) <==> Reaches(h, a, x) {
      if Reaches(g, a, x) {
        var n: nat :| Within(g, a, x, n);
        SameWithin(g, h, a, x, n);
      }
      if Reaches(h, a, x) {
        var n: nat :| Within(h, a, x, n);
        SameWithin(h, g, a, x, n);
      }
    }
  }

  // ---- Validate ----

  /** The lookup map, with an error for every missing or repeated id. */
  method BuildIndex(def: Definition) returns (errs: seq<Problem>, steps: map<string, Step>)
    ensures errs == [] <==> IdsOk(def.steps)
    ensures forall p :: p in errs ==> p.Broken?
    ensures forall id :: id in steps <==> Lookup(def.steps, id).Some?
    ensures forall id :: id in steps ==> Some(steps[id]) == Lookup(def.steps, id)
  {
    errs := [];
    steps := map[];
    for i := 0 to |def.steps|
      invariant errs == [] <==> IdsOk(def.steps[..i])
      invariant forall p :: p in errs ==> p.Broken?
      invariant forall id :: id in steps <==> Lookup(def.steps[..i], id).Some?
      invariant forall id :: id in steps ==> Some(steps[id]) == Lookup(def.steps[..i], id)
    {
      var s := def.steps[i];
      assert def.steps[..i + 1][..i] == def.steps[..i];
      IdsGrow(def.steps, i);
      LookupGrows(def.steps, i);
      hide Lookup, IdsOk;
      if s.id == "" {
        errs := errs + [Broken("step id is required", "")];
      } else {
        if s.id in steps {
          errs := errs + [Broken("duplicate step id", s.id)];
        }
        steps := steps[s.id := s];
      }
    }
    assert def.steps[..|def.steps|] == def.steps;
  }

  lemma LookupGrows(steps: seq<Step>, i: nat)
    requires i < |steps|
    ensures forall id :: Lookup(steps[..i + 1], id) ==
                         if steps[i].id == id && id != "" then Some(steps[i]) else Lookup(steps[..i], id)
    ensures forall id :: Lookup(steps[..i], id).Some? <==> id != "" && id in Ids(steps[..i])
  {
    var t := steps[..i + 1];
    assert t[..i] == steps[..i] && |t| - 1 == i;
    forall id ensures Lookup(t, id) == if steps[i].id == id && id != "" then Some(steps[i]) else Lookup(steps[..i], id) {
      assert t != [] && t[..|t| - 1] == steps[..i];
    }
  }

  lemma IdsGrow(steps: seq<Step>, i: nat)
    requires i < |steps|
    ensures IdsOk(steps[..i + 1]) <==> IdsOk(steps[..i]) && steps[i].id != "" && steps[i].id !in Ids(steps[..i])
  {
    var a, b := steps[..i], steps[..i + 1];
    assert b == a + [steps[i]];
    if steps[i].id in Ids(a) {
      var s :| s in a && s.id == steps[i].id;
      var k :| 0 <= k < |a| && a[k] == s;
      assert b[k].id == b[i].id;
    } else if IdsOk(a) && steps[i].id != "" {
      forall k | 0 <= k < i ensures b[k].id != steps[i].id {
        assert a[k] in a;
      }
    }
    if IdsOk(b) {
      assert forall k :: 0 <= k < |a| ==> a[k] == b[k];
    }
  }

  method CheckSteps(def: Definition, ids: set<string>) returns (errs: seq<Problem>)
    ensures errs == [] <==> forall i :: 0 <= i < |def.steps| && def.steps[i].id != "" ==> StepOk(def.steps[i], ids)
    ensures forall p :: p in errs ==> p.Broken?
  {
    hide StepOk;
    errs := [];
    for i := 0 to |def.steps|
      invariant errs == [] <==> forall k :: 0 <= k < i && def.steps[k].id != "" ==> StepOk(def.steps[k], ids)
      invariant forall p :: p in errs ==> p.Broken?
    {
      if def.steps[i].id != "" {
        var more := CheckStep(def.steps[i], ids);
        errs := errs + more;
      }
    }
  }

  /** The reachability part: unreachable steps are reported by id, each one and no others. */
  method CheckGraph(def: Definition, steps: map<string, Step>) returns (errs: seq<Problem>)
    requires def.steps != []
    requires forall id :: id in steps <==> Lookup(def.steps, id).Some?
    requires forall id :: id in steps ==> Some(steps[id]) == Lookup(def.steps, id)
    ensures forall p :: p in errs ==> p.Unreachable? || p.NoEndReachable?
    ensures forall id :: Unreachable(id) in errs <==>
                           id != "" && id in Ids(def.steps) && !Reaches(WalkGraph(def), def.steps[0].id, id)
    ensures NoEndReachable in errs <==> !EndReachable(def)
  {
    hide Reaches, WalkGraph;
    var reachable := Reachable(def, steps, def.steps[0].id);
    errs := [];
    for i := 0 to |def.steps|
      invariant forall p :: p in errs ==> p.Unreachable?
      invariant forall id :: Unreachable(id) in errs <==> id != "" && id in Ids(def.steps[..i]) && id !in reachable
    {
      assert def.steps[..i + 1] == def.steps[..i] + [def.steps[i]];
      IdsStep(def.steps, i);
      if def.steps[i].id != "" && def.steps[i].id !in reachable {
        errs := errs + [Unreachable(def.steps[i].id)];
      }
    }
    assert def.steps[..|def.steps|] == def.steps;
    var hasEnd := exists id :: id in reachable && id in steps && steps[id].typ == End;
    if !hasEnd {
      errs := errs + [NoEndReachable];
    }
  }

  lemma IdsStep(steps: seq<Step>, i: nat)
    requires i < |steps|
    ensures Ids(steps[..i + 1]) == Ids(steps[..i]) + {steps[i].id}
  {
    assert steps[..i + 1] == steps[..i] + [steps[i]];
  }

  /**
   Validate returns no error exactly for the accepted definitions; whatever else is wrong, its
   reachability errors name exactly the steps that cannot be reached from the first.
   */
  method Validate(def: Definition) returns (errs: seq<Problem>)
    ensures errs == [] <==> Accepted(def)
    ensures def.steps != [] && def.steps[0].id != "" ==>
              forall id :: Unreachable(id) in errs <==>
                id != "" && id in Ids(def.steps) && !Reaches(WalkGraph(def), def.steps[0].id, id)
  {
    hide TopOk, IdsOk, StepOk, Reaches, WalkGraph, EndReachable;
    errs := CheckTop(def);
    if def.steps == [] {
      TopNeedsSteps(def);
      return;
    }
    var dups, steps := BuildIndex(def);
    errs := errs + dups;
    var local := CheckSteps(def, steps.Keys);
    errs := errs + local;
    if def.steps[0].id != "" {
      var graph := CheckGraph(def, steps);
      errs := errs + graph;
      if IdsOk(def.steps) {
        AcceptsWhen(def, steps, local, graph);
      }
    } else {
      FirstIdNeeded(def);
    }
  }

  lemma TopNeedsSteps(def: Definition)
    ensures TopOk(def) ==> def.steps != []
  {
  }

  lemma FirstIdNeeded(def: Definition)
    requires def.steps != [] && def.steps[0].id == ""
    ensures !IdsOk(def.steps)
  {
  }

  lemma HasFirst(s: seq<Problem>)
    ensures s == [] || exists p :: p in s
  {
    assert s != [] ==> s[0] in s;
  }

  /** With well-formed ids the local and graph errors decide. */
  lemma AcceptsWhen(def: Definition, steps: map<string, Step>, local: seq<Problem>, graph: seq<Problem>)
    requires def.steps != [] && IdsOk(def.steps)
    requires forall id :: id in steps <==> Lookup(def.steps, id).Some?
    requires local == [] <==> forall i :: 0 <= i < |def.steps| && def.steps[i].id != "" ==> StepOk(def.steps[i], steps.Keys)
    requires forall p :: p in graph ==> p.Unreachable? || p.NoEndReachable?
    requires forall id :: Unreachable(id) in graph <==>
                            id != "" && id in Ids(def.steps) && !Reaches(WalkGraph(def), def.steps[0].id, id)
    requires NoEndReachable in graph <==> !EndReachable(def)
    ensures local == [] <==> forall s :: s in def.steps ==> StepOk(s, Ids(def.steps))
    ensures graph == [] <==> AllReachable(def) && EndReachable(def)
  {
    hide StepOk, Reaches, WalkGraph, EndReachable;
    assert steps.Keys == Ids(def.steps);
    if graph == [] {
      forall s | s in def.steps ensures Reaches(WalkGraph(def), def.steps[0].id, s.id) {
        assert Unreachable(s.id) !in graph;
      }
    }
    if AllReachable(def) && EndReachable(def) {
      forall id ensures Unreachable(id) !in graph {
      }
      HasFirst(graph);
    }
  }
}
