/**
 renameStepId of the modeller (workflow-modeller/src/domain/rename.ts) and the edges the canvas
 draws (graph.ts). Renaming is a graph isomorphism, and renaming back undoes it, exactly when
 the new id is not mentioned anywhere before.
 */
module Renaming {
  import opened Values
  import opened Definitions
  import opened Graphs
  import opened Modeller
  import CycleSearch
  import opened ModellerValidator

  function Remap(id: string, from: string, to: string): string {
    if id == from then to else id
  }

  function RemapAll(ids: seq<string>, from: string, to: string): seq<string> {
    seq(|ids|, i requires 0 <= i < |ids| => Remap(ids[i], from, to))
  }

  function RemapBranches(bs: seq<Branch>, from: string, to: string): seq<Branch> {
    seq(|bs|, i requires 0 <= i < |bs| => bs[i].(target := Remap(bs[i].target, from, to)))
  }

  function RemapEvents(es: seq<BoundaryEvent>, from: string, to: string): seq<BoundaryEvent> {
    seq(|es|, i requires 0 <= i < |es| => es[i].(target := Remap(es[i].target, from, to)))
  }

  function RemapNext(s: RawStep, from: string, to: string): RawStep {
    if s.nextStep.Some? then s.(nextStep := Some(Remap(s.nextStep.value, from, to))) else s
  }

  function RemapBoundary(s: RawStep, from: string, to: string): RawStep {
    if s.boundaryEvents.Some? then s.(boundaryEvents := Some(RemapEvents(s.boundaryEvents.value, from, to))) else s
  }

  /** remapStep: each variant remaps its own references and no others. */
  function RemapStep(s: RawStep, from: string, to: string): RawStep
    requires WellTyped(s)
  {
    var base := s.(id := Remap(s.id, from, to));
    match s.typ
    case ServiceTask => RemapBoundary(RemapNext(base, from, to), from, to)
    case UserTask => RemapBoundary(RemapNext(base, from, to), from, to)
    case Wait => RemapBoundary(RemapNext(base, from, to), from, to)
    case Transformation => RemapNext(base, from, to)
    case JoinGateway => RemapNext(base, from, to)
    case DecisionTable => RemapNext(base, from, to)
    case Decision => base.(conditionalNextSteps := Some(RemapBranches(s.conditionalNextSteps.value, from, to)))
    case ParallelGateway =>
      base.(parallelNextSteps := Some(RemapAll(s.parallelNextSteps.value, from, to)), joinStep := Some(Remap(s.joinStep.value, from, to)))
    case _ => base
  }

  function RemapSteps(steps: seq<RawStep>, from: string, to: string): seq<RawStep>
    requires forall s :: s in steps ==> WellTyped(s)
  {
    seq(|steps|, i requires 0 <= i < |steps| => RemapStep(steps[i], from, to))
  }

  /** renameStepId; None when it throws because the new id is taken. */
  function Rename(def: RawDefinition, from: string, to: string): Option<RawDefinition>
    requires AllTyped(def)
  {
    if from == to then Some(def)
    else if exists s :: s in def.steps && s.id == to then None
    else Some(def.(steps := RemapSteps(def.steps, from, to)))
  }

  /** A rename is refused exactly when the new id belongs to another step. */
  lemma RenameRefused(def: RawDefinition, from: string, to: string)
    requires AllTyped(def)
    ensures Rename(def, from, to).None? <==> from != to && exists s :: s in def.steps && s.id == to
  {
  }

  /** Every id that renaming would look at: step ids and the references of each variant. */
  function References(s: RawStep): seq<string>
    requires WellTyped(s)
  {
    [s.id] +
    match s.typ
    case ServiceTask => NextOf(s) + EventTargets(Events(s))
    case UserTask => NextOf(s) + EventTargets(Events(s))
    case Wait => NextOf(s) + EventTargets(Events(s))
    case Transformation => NextOf(s)
    case JoinGateway => NextOf(s)
    case DecisionTable => NextOf(s)
    case Decision => Targets(s.conditionalNextSteps.value)
    case ParallelGateway => s.parallelNextSteps.value + [s.joinStep.value]
    case _ => []
  }

  function NextOf(s: RawStep): seq<string> {
    if s.nextStep.Some? then [s.nextStep.value] else []
  }

  predicate Mentions(def: RawDefinition, id: string)
    requires AllTyped(def)
  {
    exists s :: s in def.steps && id in References(s)
  }

  lemma RemapTyped(s: RawStep, from: string, to: string)
    requires WellTyped(s)
    ensures WellTyped(RemapStep(s, from, to)) && RemapStep(s, from, to).typ == s.typ
  {
  }

  lemma RenamedTyped(def: RawDefinition, from: string, to: string)
    requires AllTyped(def)
    ensures Rename(def, from, to).Some? ==> AllTyped(Rename(def, from, to).value)
  {
    hide WellTyped, RemapStep;
    forall i | 0 <= i < |def.steps| ensures WellTyped(RemapStep(def.steps[i], from, to)) {
      RemapTyped(def.steps[i], from, to);
    }
  }

  // ---- renaming back ----

  lemma BackEvents(es: seq<BoundaryEvent>, from: string, to: string)
    requires from != to
    ensures RemapEvents(RemapEvents(es, from, to), to, from) == es <==> to !in EventTargets(es)
  {
    var back := RemapEvents(RemapEvents(es, from, to), to, from);
    if to !in EventTargets(es) {
      forall i | 0 <= i < |es| ensures back[i] == es[i] {
        assert EventTargets(es)[i] == es[i].target;
      }
    } else {
      var i :| 0 <= i < |es| && EventTargets(es)[i] == to;
      assert back[i] != es[i];
    }
  }

  lemma BackBranches(bs: seq<Branch>, from: string, to: string)
    requires from != to
    ensures RemapBranches(RemapBranches(bs, from, to), to, from) == bs <==> to !in Targets(bs)
  {
    var back := RemapBranches(RemapBranches(bs, from, to), to, from);
    if to !in Targets(bs) {
      forall i | 0 <= i < |bs| ensures back[i] == bs[i] {
        assert Targets(bs)[i] == bs[i].target;
      }
    } else {
      var i :| 0 <= i < |bs| && Targets(bs)[i] == to;
      assert back[i] != bs[i];
    }
  }

  lemma BackAll(ids: seq<string>, from: string, to: string)
    requires from != to
    ensures RemapAll(RemapAll(ids, from, to), to, from) == ids <==> to !in ids
  {
    var back := RemapAll(RemapAll(ids, from, to), to, from);
    if to !in ids {
      assert forall i :: 0 <= i < |ids| ==> back[i] == ids[i];
    } else {
      var i :| 0 <= i < |ids| && ids[i] == to;
      assert back[i] != ids[i];
    }
  }

  function NextRemapped(o: Option<string>, from: string, to: string): Option<string> {
    if o.Some? then Some(Remap(o.value, from, to)) else None
  }

  function EventsRemapped(o: Option<seq<BoundaryEvent>>, from: string, to: string): Option<seq<BoundaryEvent>> {
    if o.Some? then Some(RemapEvents(o.value, from, to)) else None
  }

  lemma ParkedRemap(s: RawStep, from: string, to: string)
    requires Parked(s.typ) && WellTyped(s)
    ensures RemapStep(s, from, to) == s.(id := Remap(s.id, from, to), nextStep := NextRemapped(s.nextStep, from, to),
                                         boundaryEvents := EventsRemapped(s.boundaryEvents, from, to))
  {
    hide RemapEvents;
  }

  lemma BackBoundary(s: RawStep, from: string, to: string)
    requires from != to
    ensures EventsRemapped(EventsRemapped(s.boundaryEvents, from, to), to, from) == s.boundaryEvents <==> to !in EventTargets(Events(s))
  {
    hide RemapEvents, EventTargets;
    EmptyEvents();
    if s.boundaryEvents.Some? {
      BackEvents(s.boundaryEvents.value, from, to);
    }
  }

  lemma BackParked(s: RawStep, from: string, to: string)
    requires Parked(s.typ) && WellTyped(s) && WellTyped(RemapStep(s, from, to)) && from != to
    ensures RemapStep(RemapStep(s, from, to), to, from) == s <==> to !in References(s)
  {
    hide RemapStep, WellTyped, EventTargets;
    ParkedRemap(s, from, to);
    var t := RemapStep(s, from, to);
    ParkedRemap(t, to, from);
    BackBoundary(s, from, to);
    hide EventsRemapped;
    assert NextRemapped(NextRemapped(s.nextStep, from, to), to, from) == s.nextStep <==> to !in NextOf(s);
    assert Remap(Remap(s.id, from, to), to, from) == s.id <==> to != s.id;
  }

  lemma BackDecision(s: RawStep, from: string, to: string)
    requires s.typ == Decision && WellTyped(s) && WellTyped(RemapStep(s, from, to)) && from != to
    ensures RemapStep(RemapStep(s, from, to), to, from) == s <==> to !in References(s)
  {
    hide RemapBranches, Targets;
    BackBranches(s.conditionalNextSteps.value, from, to);
    var t := RemapStep(RemapStep(s, from, to), to, from);
    assert t == s.(id := t.id, conditionalNextSteps := t.conditionalNextSteps);
  }

  lemma BackGateway(s: RawStep, from: string, to: string)
    requires s.typ == ParallelGateway && WellTyped(s) && WellTyped(RemapStep(s, from, to)) && from != to
    ensures RemapStep(RemapStep(s, from, to), to, from) == s <==> to !in References(s)
  {
    hide RemapAll;
    BackAll(s.parallelNextSteps.value, from, to);
    var t := RemapStep(RemapStep(s, from, to), to, from);
    assert t == s.(id := t.id, parallelNextSteps := t.parallelNextSteps, joinStep := t.joinStep);
    assert t.id == s.id <==> to != s.id;
    assert t.joinStep == s.joinStep <==> to != s.joinStep.value;
  }

  lemma BackOther(s: RawStep, from: string, to: string)
    requires !Parked(s.typ) && s.typ != Decision && s.typ != ParallelGateway
    requires WellTyped(s) && WellTyped(RemapStep(s, from, to)) && from != to
    ensures RemapStep(RemapStep(s, from, to), to, from) == s <==> to !in References(s)
  {
    var t := RemapStep(RemapStep(s, from, to), to, from);
    assert t == s.(id := t.id, nextStep := t.nextStep);
    assert t.id == s.id <==> to != s.id;
  }

  lemma BackStep(s: RawStep, from: string, to: string)
    requires WellTyped(s) && WellTyped(RemapStep(s, from, to)) && from != to
    ensures RemapStep(RemapStep(s, from, to), to, from) == s <==> to !in References(s)
  {
    hide WellTyped, RemapStep, References;
    match s.typ
    case Decision => BackDecision(s, from, to);
    case ParallelGateway => BackGateway(s, from, to);
    case ServiceTask => BackParked(s, from, to);
    case UserTask => BackParked(s, from, to);
    case Wait => BackParked(s, from, to);
    case _ => BackOther(s, from, to);
  }

  lemma EmptyEvents()
    ensures EventTargets([]) == []
  {
  }

  lemma OldIdGone(def: RawDefinition, from: string, to: string)
    requires AllTyped(def) && from != to && Rename(def, from, to).Some?
    ensures forall s :: s in Rename(def, from, to).value.steps ==> s.id != from
  {
    hide WellTyped, RemapStep;
    forall i | 0 <= i < |def.steps| ensures RemapStep(def.steps[i], from, to).id != from {
      assert def.steps[i] in def.steps;
      RemapId(def.steps[i], from, to);
    }
  }

  lemma RemapId(s: RawStep, from: string, to: string)
    requires WellTyped(s)
    ensures RemapStep(s, from, to).id == Remap(s.id, from, to)
  {
  }

  /**
   Renaming to a free id and back restores the definition exactly when the new id was not
   mentioned in it. A definition whose references all resolve never mentions a free id.
   */
  lemma RenameBack(def: RawDefinition, from: string, to: string)
    requires AllTyped(def) && from != to && Rename(def, from, to).Some?
    ensures AllTyped(Rename(def, from, to).value)
    ensures Rename(Rename(def, from, to).value, to, from) == Some(def) <==> !Mentions(def, to)
  {
    hide WellTyped, RemapStep, References;
    RenamedTyped(def, from, to);
    OldIdGone(def, from, to);
    var steps := RemapSteps(def.steps, from, to);
    var back := RemapSteps(steps, to, from);
    forall i | 0 <= i < |def.steps| ensures back[i] == def.steps[i] <==> to !in References(def.steps[i]) {
      RemapTyped(def.steps[i], from, to);
      BackStep(def.steps[i], from, to);
    }
    if Mentions(def, to) {
      var s :| s in def.steps && to in References(s);
      var i :| 0 <= i < |def.steps| && def.steps[i] == s;
      assert back[i] != def.steps[i];
    } else {
      assert back == def.steps;
    }
  }

  // ---- the edges the canvas draws ----

  datatype Variant = Sequential | Conditional(expression: string) | Parallel | JoinOut | Boundary(index: nat)

  datatype Edge = Edge(from: string, to: string, variant: Variant)

  function NextEdge(s: RawStep, v: Variant): seq<Edge> {
    if s.nextStep.Some? then [Edge(s.id, s.nextStep.value, v)] else []
  }

  function BoundaryEdges(s: RawStep): seq<Edge> {
    seq(|Events(s)|, i requires 0 <= i < |Events(s)| => Edge(s.id, Events(s)[i].target, Boundary(i)))
  }

  /** pushStepEdges. */
  function StepEdges(s: RawStep): seq<Edge>
    requires WellTyped(s)
  {
    match s.typ
    case ServiceTask => (if Text(s.nextStep) != "" then NextEdge(s, Sequential) else []) + BoundaryEdges(s)
    case UserTask => (if Text(s.nextStep) != "" then NextEdge(s, Sequential) else []) + BoundaryEdges(s)
    case Wait => NextEdge(s, Sequential) + BoundaryEdges(s)
    case Decision =>
      var bs := s.conditionalNextSteps.value;
      seq(|bs|, i requires 0 <= i < |bs| => Edge(s.id, bs[i].target, Conditional(bs[i].expr)))
    case DecisionTable => NextEdge(s, Sequential)
    case Transformation => NextEdge(s, Sequential)
    case ParallelGateway =>
      var ids := s.parallelNextSteps.value;
      seq(|ids|, i requires 0 <= i < |ids| => Edge(s.id, ids[i], Parallel))
    case JoinGateway => NextEdge(s, JoinOut)
    case _ => []
  }

  function Edges(steps: seq<RawStep>): seq<Edge>
    requires forall s :: s in steps ==> WellTyped(s)
  {
    if steps == [] then [] else
      var n := |steps| - 1;
      assert steps[n] in steps && forall s :: s in steps[..n] ==> s in steps;
      Edges(steps[..n]) + StepEdges(steps[n])
  }

  ghost predicate Drawn(es: seq<Edge>, a: string, b: string) {
    exists e :: e in es && e.from == a && e.to == b
  }

  /** The edges of one step lead from it to its successors; an empty reference may be drawn as well. */
  lemma StepEdgesLead(s: RawStep, a: string, b: string)
    requires WellTyped(s) && b != ""
    ensures Drawn(StepEdges(s), a, b) <==> a == s.id && b in AllOutgoing(s)
  {
    var es := StepEdges(s);
    if a == s.id && b in AllOutgoing(s) {
      var t := EdgeTo(s, b);
      assert es[t] in es;
    }
    forall e | e in es && e.from == a && e.to == b ensures a == s.id && b in AllOutgoing(s) {
      EdgeLeads(s, e);
    }
  }

  lemma EdgeLeads(s: RawStep, e: Edge)
    requires WellTyped(s) && e in StepEdges(s) && e.to != ""
    ensures e.from == s.id && e.to in AllOutgoing(s)
  {
    var i :| 0 <= i < |StepEdges(s)| && StepEdges(s)[i] == e;
    if s.typ == Decision {
      assert Targets(s.conditionalNextSteps.value)[i] == e.to;
    } else if Parked(s.typ) && i >= |OutgoingTargets(s)| {
      assert EventTargets(Events(s))[i - |OutgoingTargets(s)|] == e.to;
    }
  }

  lemma EdgeTo(s: RawStep, b: string) returns (k: nat)
    requires WellTyped(s) && b != "" && b in AllOutgoing(s)
    ensures k < |StepEdges(s)| && StepEdges(s)[k].from == s.id && StepEdges(s)[k].to == b
  {
    var i :| 0 <= i < |AllOutgoing(s)| && AllOutgoing(s)[i] == b;
    k := i;
  }

  lemma DrawnApart(es: seq<Edge>, fs: seq<Edge>, a: string, b: string)
    ensures Drawn(es + fs, a, b) <==> Drawn(es, a, b) || Drawn(fs, a, b)
  {
  }

  lemma {:induction false} EdgesLead(steps: seq<RawStep>, a: string, b: string)
    requires (forall s :: s in steps ==> WellTyped(s)) && b != ""
    ensures Drawn(Edges(steps), a, b) <==> exists s :: s in steps && s.id == a && b in AllOutgoing(s)
  {
    hide WellTyped, StepEdges, Drawn, AllOutgoing;
    if steps == [] {
      NoneDrawn(a, b);
    } else {
      var n := |steps| - 1;
      assert steps == steps[..n] + [steps[n]];
      EdgesLead(steps[..n], a, b);
      StepEdgesLead(steps[n], a, b);
      DrawnApart(Edges(steps[..n]), StepEdges(steps[n]), a, b);
    }
  }

  lemma NoneDrawn(a: string, b: string)
    ensures !Drawn([], a, b)
  {
  }

  /**
   The edges drawn from an id to a named target are exactly the successors in the graph that the
   reachability and cycle checks walk, when the ids are unique. With a repeated id the checks
   walk from its last step only, and edges are drawn from all of them.
   */
  lemma DrawnAreSuccessors(def: RawDefinition, a: string, b: string)
    requires AllTyped(def) && b != ""
    ensures b in StepGraph(def)(a) ==> Drawn(Edges(def.steps), a, b)
    ensures (forall s :: s in def.steps && s.id == a ==> Indexed(def.steps, a) == Some(s)) ==>
              (Drawn(Edges(def.steps), a, b) <==> b in StepGraph(def)(a))
  {
    hide WellTyped, Drawn, AllOutgoing, Edges;
    EdgesLead(def.steps, a, b);
  }

  /** toEdges. */
  method ToEdges(def: RawDefinition) returns (out: seq<Edge>)
    requires AllTyped(def)
    ensures out == Edges(def.steps)
    ensures forall a, b :: b != "" ==> (Drawn(out, a, b) <==> exists s :: s in def.steps && s.id == a && b in AllOutgoing(s))
  {
    forall a, b | b != "" ensures Drawn(Edges(def.steps), a, b) <==> exists s :: s in def.steps && s.id == a && b in AllOutgoing(s) {
      EdgesLead(def.steps, a, b);
    }
    hide Drawn, AllOutgoing, StepEdges;
    out := [];
    for i := 0 to |def.steps|
      invariant out == Edges(def.steps[..i])
    {
      assert def.steps[i] in def.steps;
      out := out + StepEdges(def.steps[i]);
      assert def.steps[..i + 1][..i] == def.steps[..i];
    }
    assert def.steps[..|def.steps|] == def.steps;
  }

  function MapEdge(e: Edge, from: string, to: string): Edge {
    Edge(Remap(e.from, from, to), Remap(e.to, from, to), e.variant)
  }

  function MapEdges(es: seq<Edge>, from: string, to: string): seq<Edge> {
    seq(|es|, i requires 0 <= i < |es| => MapEdge(es[i], from, to))
  }

  /** An empty reference is no reference, so it cannot be given or taken by a rename. */
  lemma RenamedStepEdges(s: RawStep, from: string, to: string)
    requires WellTyped(s) && WellTyped(RemapStep(s, from, to)) && from != "" && to != ""
    ensures StepEdges(RemapStep(s, from, to)) == MapEdges(StepEdges(s), from, to)
  {
    var t := RemapStep(s, from, to);
    match s.typ
    case Decision => assert |StepEdges(t)| == |StepEdges(s)|;
    case ParallelGateway => assert |StepEdges(t)| == |StepEdges(s)|;
    case ServiceTask => ParkedEdges(s, from, to);
    case UserTask => ParkedEdges(s, from, to);
    case Wait => ParkedEdges(s, from, to);
    case _ =>
  }

  /** The edges of a parked step: the sequential one, if any, and those of its timers. */
  function NextEdges(s: RawStep): seq<Edge> {
    if Text(s.nextStep) != "" || (s.typ == Wait && s.nextStep.Some?) then [Edge(s.id, Text(s.nextStep), Sequential)] else []
  }

  lemma ParkedStepEdges(s: RawStep)
    requires WellTyped(s) && Parked(s.typ)
    ensures StepEdges(s) == NextEdges(s) + BoundaryEdges(s)
  {
    hide BoundaryEdges;
  }

  lemma BoundaryRemapped(s: RawStep, t: RawStep, from: string, to: string)
    requires t.id == Remap(s.id, from, to) && t.boundaryEvents == EventsRemapped(s.boundaryEvents, from, to)
    ensures BoundaryEdges(t) == MapEdges(BoundaryEdges(s), from, to)
  {
    assert |Events(t)| == |Events(s)|;
  }

  lemma ParkedEdges(s: RawStep, from: string, to: string)
    requires WellTyped(s) && WellTyped(RemapStep(s, from, to)) && from != "" && to != "" && Parked(s.typ)
    ensures StepEdges(RemapStep(s, from, to)) == MapEdges(StepEdges(s), from, to)
  {
    hide StepEdges, BoundaryEdges, RemapStep, WellTyped, EventsRemapped;
    var t := RemapStep(s, from, to);
    ParkedRemap(s, from, to);
    ParkedStepEdges(s);
    ParkedStepEdges(t);
    BoundaryRemapped(s, t, from, to);
    assert NextEdges(t) == MapEdges(NextEdges(s), from, to);
    assert MapEdges(NextEdges(s) + BoundaryEdges(s), from, to) == MapEdges(NextEdges(s), from, to) + MapEdges(BoundaryEdges(s), from, to);
  }

  lemma {:induction false} RenamedEdges(steps: seq<RawStep>, from: string, to: string)
    requires (forall s :: s in steps ==> WellTyped(s)) && from != "" && to != ""
    ensures forall s :: s in RemapSteps(steps, from, to) ==> WellTyped(s)
    ensures Edges(RemapSteps(steps, from, to)) == MapEdges(Edges(steps), from, to)
  {
    hide WellTyped, RemapStep, StepEdges;
    forall i | 0 <= i < |steps| ensures WellTyped(RemapStep(steps[i], from, to)) {
      RemapTyped(steps[i], from, to);
    }
    if steps != [] {
      var n := |steps| - 1;
      assert steps[n] in steps;
      RenamedEdges(steps[..n], from, to);
      RenamedStepEdges(steps[n], from, to);
      assert RemapSteps(steps, from, to)[..n] == RemapSteps(steps[..n], from, to);
      assert MapEdges(Edges(steps), from, to) == MapEdges(Edges(steps[..n]), from, to) + MapEdges(StepEdges(steps[n]), from, to);
    }
  }

  // ---- the graph the checks walk ----

  /** The bijection on ids behind a rename: the two ids change places. */
  function Swap(id: string, from: string, to: string): string {
    if id == from then to else if id == to then from else id
  }

  function SwapAll(ids: seq<string>, from: string, to: string): seq<string> {
    seq(|ids|, i requires 0 <= i < |ids| => Swap(ids[i], from, to))
  }

  lemma SwapMembers(ids: seq<string>, from: string, to: string, x: string)
    ensures Swap(x, from, to) in SwapAll(ids, from, to) <==> x in ids
  {
    if x in ids {
      var i :| 0 <= i < |ids| && ids[i] == x;
      assert SwapAll(ids, from, to)[i] == Swap(x, from, to);
    }
    if Swap(x, from, to) in SwapAll(ids, from, to) {
      var i :| 0 <= i < |ids| && SwapAll(ids, from, to)[i] == Swap(x, from, to);
      assert ids[i] == x;
    }
  }

  /** `h` is `g` with the two ids exchanged. */
  ghost predicate Isomorphic(g: Graph, h: Graph, from: string, to: string) {
    forall a :: h(Swap(a, from, to)) == SwapAll(g(a), from, to)
  }

  lemma {:induction false} SwapWithin(g: Graph, h: Graph, from: string, to: string, a: string, b: string, n: nat)
    requires Isomorphic(g, h, from, to) && Within(g, a, b, n)
    ensures Within(h, Swap(a, from, to), Swap(b, from, to), n)
    decreases n
  {
    if a != b {
      var c :| c in g(a) && Within(g, c, b, n - 1);
      SwapWithin(g, h, from, to, c, b, n - 1);
      SwapMembers(g(a), from, to, c);
      assert Swap(c, from, to) in h(Swap(a, from, to));
    }
  }

  lemma SwapSymmetric(g: Graph, h: Graph, from: string, to: string)
    requires Isomorphic(g, h, from, to)
    ensures Isomorphic(h, g, from, to)
  {
    forall a ensures g(Swap(a, from, to)) == SwapAll(h(a), from, to) {
      var b := Swap(a, from, to);
      assert Swap(b, from, to) == a;
      assert h(a) == SwapAll(g(b), from, to);
      assert SwapAll(SwapAll(g(b), from, to), from, to) == g(b);
    }
  }

  lemma SwapReachesOne(g: Graph, h: Graph, from: string, to: string, a: string, b: string)
    requires Isomorphic(g, h, from, to) && Reaches(g, a, b)
    ensures Reaches(h, Swap(a, from, to), Swap(b, from, to))
  {
    hide Isomorphic, Within, Swap;
    var n: nat :| Within(g, a, b, n);
    SwapWithin(g, h, from, to, a, b, n);
  }

  lemma SwapReaches(g: Graph, h: Graph, from: string, to: string, a: string, b: string)
    requires Isomorphic(g, h, from, to)
    ensures Reaches(g, a, b) <==> Reaches(h, Swap(a, from, to), Swap(b, from, to))
  {
    hide Isomorphic, Reaches;
    SwapSymmetric(g, h, from, to);
    if Reaches(g, a, b) {
      SwapReachesOne(g, h, from, to, a, b);
    }
    if Reaches(h, Swap(a, from, to), Swap(b, from, to)) {
      SwapReachesOne(h, g, from, to, Swap(a, from, to), Swap(b, from, to));
    }
  }

  lemma SwapCycles(g: Graph, h: Graph, from: string, to: string, a: string)
    requires Isomorphic(g, h, from, to) && OnCycle(g, a)
    ensures OnCycle(h, Swap(a, from, to))
  {
    var c :| c in g(a) && Reaches(g, c, a);
    SwapMembers(g(a), from, to, c);
    SwapReaches(g, h, from, to, c, a);
  }

  lemma SwapEvents(es: seq<BoundaryEvent>, from: string, to: string)
    requires to !in EventTargets(es)
    ensures EventTargets(RemapEvents(es, from, to)) == SwapAll(EventTargets(es), from, to)
  {
    forall i | 0 <= i < |es| ensures EventTargets(RemapEvents(es, from, to))[i] == Swap(EventTargets(es)[i], from, to) {
      assert EventTargets(es)[i] in EventTargets(es);
    }
  }

  lemma SwapBranches(bs: seq<Branch>, from: string, to: string)
    requires to !in Targets(bs)
    ensures Targets(RemapBranches(bs, from, to)) == SwapAll(Targets(bs), from, to)
  {
    forall i | 0 <= i < |bs| ensures Targets(RemapBranches(bs, from, to))[i] == Swap(Targets(bs)[i], from, to) {
      assert Targets(bs)[i] in Targets(bs);
    }
  }

  lemma SwapIds(ids: seq<string>, from: string, to: string)
    requires to !in ids
    ensures RemapAll(ids, from, to) == SwapAll(ids, from, to)
  {
    forall i | 0 <= i < |ids| ensures RemapAll(ids, from, to)[i] == SwapAll(ids, from, to)[i] {
      assert ids[i] in ids;
    }
  }

  lemma SwapConcat(a: seq<string>, b: seq<string>, from: string, to: string)
    ensures SwapAll(a + b, from, to) == SwapAll(a, from, to) + SwapAll(b, from, to)
  {
  }

  lemma SwapTargets(s: RawStep, from: string, to: string)
    requires WellTyped(s) && WellTyped(RemapStep(s, from, to)) && to !in References(s) && from != "" && to != ""
    ensures OutgoingTargets(RemapStep(s, from, to)) == SwapAll(OutgoingTargets(s), from, to)
  {
    hide RemapEvents, EventTargets, RemapBranches, Targets, RemapAll;
    match s.typ
    case Decision => SwapBranches(s.conditionalNextSteps.value, from, to);
    case ParallelGateway => SwapIds(s.parallelNextSteps.value, from, to);
    case _ =>
  }

  lemma SwapOutgoing(s: RawStep, from: string, to: string)
    requires WellTyped(s) && WellTyped(RemapStep(s, from, to)) && to !in References(s) && from != "" && to != ""
    ensures AllOutgoing(RemapStep(s, from, to)) == SwapAll(AllOutgoing(s), from, to)
  {
    hide OutgoingTargets, RemapEvents, EventTargets;
    SwapTargets(s, from, to);
    RemapTyped(s, from, to);
    if Parked(s.typ) {
      EventsSwapped(s, from, to);
      SwapConcat(OutgoingTargets(s), EventTargets(Events(s)), from, to);
    }
  }

  lemma EventsSwapped(s: RawStep, from: string, to: string)
    requires WellTyped(s) && Parked(s.typ) && to !in References(s)
    ensures EventTargets(Events(RemapStep(s, from, to))) == SwapAll(EventTargets(Events(s)), from, to)
  {
    SwapEvents(Events(s), from, to);
  }

  lemma {:induction false} SwapIndexed(steps: seq<RawStep>, from: string, to: string, id: string)
    requires (forall s :: s in steps ==> WellTyped(s) && s.id != to)
    ensures var r := Indexed(steps, id);
            Indexed(RemapSteps(steps, from, to), Swap(id, from, to)) == if r.Some? then Some(RemapStep(r.value, from, to)) else None
  {
    hide WellTyped, RemapStep;
    if steps != [] {
      var n := |steps| - 1;
      assert steps[n] in steps;
      RemapId(steps[n], from, to);
      SwapIndexed(steps[..n], from, to, id);
      assert RemapSteps(steps, from, to)[..n] == RemapSteps(steps[..n], from, to);
    }
  }

  /** A rename to an unmentioned id exchanges two names in the step graph and changes nothing else. */
  lemma RenameIsomorphism(def: RawDefinition, from: string, to: string)
    requires AllTyped(def) && from != to && from != "" && to != "" && !Mentions(def, to)
    ensures Rename(def, from, to).Some? && AllTyped(Rename(def, from, to).value)
    ensures Isomorphic(StepGraph(def), StepGraph(Rename(def, from, to).value), from, to)
  {
    hide WellTyped, RemapStep, References, AllOutgoing, Indexed;
    UnmentionedIsFree(def, to);
    RenamedTyped(def, from, to);
    var def1 := Rename(def, from, to).value;
    forall a ensures StepGraph(def1)(Swap(a, from, to)) == SwapAll(StepGraph(def)(a), from, to) {
      SwapIndexed(def.steps, from, to, a);
      var s := Indexed(def.steps, a);
      if s.Some? {
        IndexedIn(def.steps, a);
        RemapTyped(s.value, from, to);
        SwapOutgoing(s.value, from, to);
      }
    }
  }

  lemma IndexedIn(steps: seq<RawStep>, id: string)
    ensures Indexed(steps, id).Some? ==> Indexed(steps, id).value in steps && Indexed(steps, id).value.id == id
  {
  }

  lemma UnmentionedIsFree(def: RawDefinition, to: string)
    requires AllTyped(def) && !Mentions(def, to)
    ensures forall s :: s in def.steps ==> s.id != to
  {
    forall s | s in def.steps ensures s.id != to {
      assert References(s)[0] == s.id;
    }
  }

  // ---- the verdicts ----

  lemma {:induction false} WithoutSwapped(ids: seq<string>, from: string, to: string, block: set<string>)
    requires from !in block && to !in block
    ensures Without(SwapAll(ids, from, to), block) == SwapAll(Without(ids, block), from, to)
  {
    if ids != [] {
      WithoutSwapped(ids[1..], from, to, block);
      assert SwapAll(ids, from, to)[1..] == SwapAll(ids[1..], from, to);
      assert SwapAll(ids, from, to)[0] == Swap(ids[0], from, to);
    }
  }

  /** The graphs the reachability check walks, which skip empty ids, are isomorphic as well. */
  lemma AvoidingIsomorphic(g: Graph, h: Graph, from: string, to: string, block: set<string>)
    requires Isomorphic(g, h, from, to) && from !in block && to !in block
    ensures Isomorphic(Avoiding(g, block), Avoiding(h, block), from, to)
  {
    forall a ensures Avoiding(h, block)(Swap(a, from, to)) == SwapAll(Avoiding(g, block)(a), from, to) {
      WithoutSwapped(g(a), from, to, block);
    }
  }

  lemma MarkedSwapped(def: RawDefinition, def1: RawDefinition, from: string, to: string, id: string)
    requires AllTyped(def) && AllTyped(def1) && def.steps != [] && def1.steps != [] && from != "" && to != ""
    requires Isomorphic(StepGraph(def), StepGraph(def1), from, to) && EntryId(def1) == Swap(EntryId(def), from, to)
    ensures Marked(def, id) <==> Marked(def1, Swap(id, from, to))
  {
    hide AllTyped, StepGraph, Isomorphic, Reaches, Avoiding;
    AvoidingIsomorphic(StepGraph(def), StepGraph(def1), from, to, NO_ID);
    SwapReaches(Avoiding(StepGraph(def), NO_ID), Avoiding(StepGraph(def1), NO_ID), from, to, EntryId(def), id);
    MarkedMeans(def, id);
    MarkedMeans(def1, Swap(id, from, to));
  }

  lemma MarkedMeans(def: RawDefinition, id: string)
    requires AllTyped(def) && def.steps != []
    ensures Marked(def, id) <==> EntryId(def) != "" && Reaches(Avoiding(StepGraph(def), NO_ID), EntryId(def), id)
  {
    hide AllTyped, StepGraph, Avoiding, Reaches;
    assert EntryId(def) in [EntryId(def)];
  }

  /**
   Renaming to an unmentioned id changes no verdict of the graph checks: exactly the renamed
   steps are marked reachable, the reachability check passes as before, and exactly the
   renamed steps lie on cycles.
   */
  lemma RenameKeepsVerdicts(def: RawDefinition, from: string, to: string)
    requires AllTyped(def) && def.steps != [] && from != to && from != "" && to != "" && !Mentions(def, to)
    ensures Rename(def, from, to).Some? && AllTyped(Rename(def, from, to).value) && Rename(def, from, to).value.steps != []
    ensures var def1 := Rename(def, from, to).value;
            && (forall id :: Marked(def, id) <==> Marked(def1, Swap(id, from, to)))
            && (ReachOk(def) <==> ReachOk(def1))
            && (forall id :: OnCycle(StepGraph(def), id) <==> OnCycle(StepGraph(def1), Swap(id, from, to)))
            && (CycleSearch.HasCycle(def) <==> CycleSearch.HasCycle(def1))
  {
    hide WellTyped, RemapStep, References, StepGraph, Mentions, Isomorphic, Indexed, OnCycle, Marked;
    RenameIsomorphism(def, from, to);
    var def1 := Rename(def, from, to).value;
    EntrySwapped(def, from, to);
    forall id ensures Marked(def, id) <==> Marked(def1, Swap(id, from, to)) {
      MarkedSwapped(def, def1, from, to, id);
    }
    ReachSwapped(def, from, to);
    forall id ensures OnCycle(StepGraph(def), id) <==> OnCycle(StepGraph(def1), Swap(id, from, to)) {
      OnCycleSwapped(StepGraph(def), StepGraph(def1), from, to, id);
    }
    CyclesSwapped(def, def1, from, to);
  }

  lemma OnCycleSwapped(g: Graph, h: Graph, from: string, to: string, id: string)
    requires Isomorphic(g, h, from, to)
    ensures OnCycle(g, id) <==> OnCycle(h, Swap(id, from, to))
  {
    hide Isomorphic, OnCycle;
    SwapSymmetric(g, h, from, to);
    if OnCycle(g, id) {
      SwapCycles(g, h, from, to, id);
    }
    if OnCycle(h, Swap(id, from, to)) {
      SwapCycles(h, g, from, to, Swap(id, from, to));
    }
  }

  lemma EntrySwapped(def: RawDefinition, from: string, to: string)
    requires AllTyped(def) && def.steps != [] && Rename(def, from, to).Some? && from != to
    ensures var steps := Rename(def, from, to).value.steps;
            |steps| == |def.steps| && forall i :: 0 <= i < |def.steps| ==> steps[i].id == Swap(def.steps[i].id, from, to)
  {
    hide WellTyped, RemapStep;
    forall i | 0 <= i < |def.steps| ensures RemapStep(def.steps[i], from, to).id == Swap(def.steps[i].id, from, to) {
      assert def.steps[i] in def.steps;
      RemapId(def.steps[i], from, to);
    }
  }

  ghost predicate IsEnd(def: RawDefinition, id: string) {
    Indexed(def.steps, id).Some? && Indexed(def.steps, id).value.typ == End
  }

  lemma EndSwapped(def: RawDefinition, from: string, to: string, id: string)
    requires AllTyped(def) && !Mentions(def, to) && from != to && Rename(def, from, to).Some?
    ensures IsEnd(def, id) <==> IsEnd(Rename(def, from, to).value, Swap(id, from, to))
  {
    hide WellTyped, RemapStep, References, Indexed;
    UnmentionedIsFree(def, to);
    SwapIndexed(def.steps, from, to, id);
    IndexedIn(def.steps, id);
    var r := Indexed(def.steps, id);
    if r.Some? {
      RemapTyped(r.value, from, to);
    }
  }

  lemma ReachMeans(def: RawDefinition)
    requires AllTyped(def) && def.steps != []
    ensures ReachOk(def) <==> (forall i :: 0 <= i < |def.steps| ==> Marked(def, def.steps[i].id)) && exists id :: Marked(def, id) && IsEnd(def, id)
  {
    hide Marked, Indexed, AllTyped;
  }

  lemma ReachSwapped(def: RawDefinition, from: string, to: string)
    requires AllTyped(def) && def.steps != [] && !Mentions(def, to) && from != to
    requires Rename(def, from, to).Some? && AllTyped(Rename(def, from, to).value) && Rename(def, from, to).value.steps != []
    requires forall id :: Marked(def, id) <==> Marked(Rename(def, from, to).value, Swap(id, from, to))
    ensures ReachOk(def) <==> ReachOk(Rename(def, from, to).value)
  {
    hide WellTyped, Marked, Indexed, IsEnd, ReachOk, Mentions;
    var def1 := Rename(def, from, to).value;
    EntrySwapped(def, from, to);
    ReachMeans(def);
    ReachMeans(def1);
    forall id ensures IsEnd(def, id) <==> IsEnd(def1, Swap(id, from, to)) {
      EndSwapped(def, from, to, id);
    }
    hide Rename;
    if id :| Marked(def, id) && IsEnd(def, id) {
      assert Marked(def1, Swap(id, from, to)) && IsEnd(def1, Swap(id, from, to));
    }
    if id :| Marked(def1, id) && IsEnd(def1, id) {
      var back := Swap(id, from, to);
      assert Swap(back, from, to) == id;
      assert Marked(def, back) && IsEnd(def, back);
    }
  }

  lemma CyclesSwapped(def: RawDefinition, def1: RawDefinition, from: string, to: string)
    requires AllTyped(def) && AllTyped(def1) && Isomorphic(StepGraph(def), StepGraph(def1), from, to)
    ensures CycleSearch.HasCycle(def) <==> CycleSearch.HasCycle(def1)
  {
    hide StepGraph, AllTyped, OnCycle, Isomorphic;
    var g, h := StepGraph(def), StepGraph(def1);
    SwapSymmetric(g, h, from, to);
    if CycleSearch.HasCycle(def) {
      var id :| OnCycle(g, id);
      SwapCycles(g, h, from, to, id);
    }
    if CycleSearch.HasCycle(def1) {
      var id :| OnCycle(h, id);
      SwapCycles(h, g, from, to, id);
    }
  }
}
