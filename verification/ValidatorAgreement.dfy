/**
 The two validators compared: what the modeller lets through without an error and without an
 unknown field, the engine accepts, up to the one rule only the engine has.
 */
module ValidatorAgreement {
  import opened Values
  import opened Definitions
  import opened Graphs
  import opened Modeller
  import opened ModellerValidator
  import Engine = EngineValidator

  predicate JobTypesGiven(def: RawDefinition) {
    forall s :: s in def.steps && s.typ == ServiceTask ==> Text(s.jobType) != ""
  }

  lemma NotBlank(s: string)
    requires !Blank(s)
    ensures s != ""
  {
  }

  // ---- local rules ----

  lemma TopAgrees(def: RawDefinition, iso: string -> bool)
    requires AllTyped(def) && ErrorFree(def, iso) && FieldsKnown(def)
    ensures Engine.TopOk(ToEngine(def))
  {
    hide ShapeOk, RefsOk, BoundaryOk, JoinTargetOk, NotNested, ReachOk, WellTyped;
    NotBlank(def.name);
    if Given(def.nextWorkflowId) {
      NotBlank(def.nextWorkflowId.value);
    }
    assert "input_schema" !in KNOWN_ROOT_KEYS;
    assert def.inputSchema.Some? ==> "input_schema" in RootKeys(def);
  }

  lemma IdsAgree(def: RawDefinition, iso: string -> bool)
    requires AllTyped(def) && ErrorFree(def, iso)
    ensures Engine.IdsOk(ToEngine(def).steps) && Engine.Ids(ToEngine(def).steps) == Ids(def)
  {
    hide ShapeOk, RefsOk, BoundaryOk, JoinTargetOk, NotNested, ReachOk, WellTyped;
    var steps := ToEngine(def).steps;
    forall i | 0 <= i < |steps| ensures steps[i].id == def.steps[i].id != "" {
      NotBlank(def.steps[i].id);
    }
    SameIds(def);
  }

  lemma SameIds(def: RawDefinition)
    ensures Engine.Ids(ToEngine(def).steps) == Ids(def)
  {
    var steps := ToEngine(def).steps;
    forall id | id in Ids(def) ensures id in Engine.Ids(steps) {
      var s :| s in def.steps && s.id == id;
      var i :| 0 <= i < |def.steps| && def.steps[i] == s;
      assert steps[i] in steps;
    }
    forall id | id in Engine.Ids(steps) ensures id in Ids(def) {
      var s :| s in steps && s.id == id;
      var i :| 0 <= i < |steps| && steps[i] == s;
      assert def.steps[i] in def.steps;
    }
  }

  lemma KeysHold(s: RawStep)
    ensures s.outputsSchema.Some? ==> "outputs_schema" in Keys(s)
    ensures s.decisionTable.Some? ==> "decisionTable" in Keys(s)
  {
  }

  lemma NeverKnown(t: StepType)
    ensures "outputs_schema" !in KnownKeys(t)
    ensures "decisionTable" in KnownKeys(t) ==> t == DecisionTable
  {
    assert |"outputs_schema"| == 14 && |"decisionTable"| == 13 && |"conditionalNextSteps"| == 20 && |"parallelNextSteps"| == 17;
    assert "decisionTable"[0] == 'd' && "delegateClass"[1] == 'e' && "decisionTable"[2] == 'c' && "delegateClass"[2] == 'l';
    assert "boundaryEvents"[0] == 'b' && "outputs_schema"[0] == 'o';
    match t
    case ServiceTask =>
    case UserTask =>
    case _ =>
  }

  /** Fields the modeller does not know for the step's type are absent. */
  lemma AbsentFields(s: RawStep)
    requires Keys(s) <= KnownKeys(s.typ)
    ensures s.outputsSchema.None?
    ensures s.typ != DecisionTable ==> s.decisionTable.None?
  {
    hide Keys, KnownKeys;
    KeysHold(s);
    NeverKnown(s.typ);
  }

  lemma EventsAgree(s: RawStep, ids: set<string>, iso: string -> bool)
    requires BoundaryOk(s, ids, iso)
    ensures forall i :: 0 <= i < |ToEngineStep(s).boundaryEvents| ==> Engine.EventOk(ToEngineStep(s).boundaryEvents[i], ids)
  {
    forall i | 0 <= i < |Events(s)| ensures Engine.EventOk(Events(s)[i], ids) {
      assert Parked(s.typ) ==> TimerOk(Events(s)[i], ids, iso);
    }
  }

  lemma TypeAgrees(s: RawStep, ids: set<string>)
    requires WellTyped(s) && ShapeOk(s) && RefsOk(s, ids) && !s.typ.Unsupported? && (!Parked(s.typ) ==> s.boundaryEvents.None?)
    ensures Engine.TypeOk(ToEngineStep(s), ids) <==> (s.typ == ServiceTask ==> Text(s.jobType) != "")
  {
    if Given(s.nextStep) {
      NotBlank(s.nextStep.value);
    }
    if Given(s.joinStep) {
      NotBlank(s.joinStep.value);
    }
    if s.typ == DecisionTable {
      assert |Rules(s.decisionTable.value)| == |s.decisionTable.value.rules|;
    }
  }

  lemma StepAgrees(def: RawDefinition, s: RawStep, iso: string -> bool)
    requires AllTyped(def) && ErrorFree(def, iso) && FieldsKnown(def) && s in def.steps
    ensures Engine.StepOk(ToEngineStep(s), Ids(def)) <==> (s.typ == ServiceTask ==> Text(s.jobType) != "")
  {
    hide ShapeOk, RefsOk, BoundaryOk, JoinTargetOk, NotNested, ReachOk, WellTyped, Engine.TypeOk, Keys, KnownKeys, Blank, Ids, Text;
    var i :| 0 <= i < |def.steps| && def.steps[i] == s;
    AbsentFields(s);
    NotBlank(s.name);
    EventsAgree(s, Ids(def), iso);
    NoEvents(s, Ids(def), iso);
    TypeAgrees(s, Ids(def));
    assert ToEngineStep(s).name == s.name && ToEngineStep(s).typ == s.typ;
  }

  lemma NoEvents(s: RawStep, ids: set<string>, iso: string -> bool)
    requires BoundaryOk(s, ids, iso)
    ensures !Parked(s.typ) ==> s.boundaryEvents.None?
  {
  }

  // ---- reachability ----

  lemma {:induction false} LookupAgrees(steps: seq<RawStep>, id: string)
    requires id != ""
    ensures var r := Indexed(steps, id); Engine.Lookup(ToEngineSteps(steps), id) == if r.Some? then Some(ToEngineStep(r.value)) else None
  {
    if steps != [] {
      var n := |steps| - 1;
      LookupAgrees(steps[..n], id);
      assert ToEngineSteps(steps)[..n] == ToEngineSteps(steps[..n]);
    }
  }

  /** Every edge the modeller draws is one the engine follows. */
  lemma EdgesIncluded(s: RawStep, t: string)
    requires WellTyped(s) && t in AllOutgoing(s) && t != ""
    ensures t in Engine.Successors(ToEngineStep(s))
  {
    hide Targets, EventTargets;
    var e := ToEngineStep(s);
    assert Engine.Successors(e) ==
           Engine.Named(e.nextStep) + Targets(e.branches) + e.parallelNextSteps + Engine.Named(e.joinStep) + EventTargets(e.boundaryEvents);
    if t in OutgoingTargets(s) {
      match s.typ
      case Decision => assert t in Targets(e.branches);
      case ParallelGateway => assert t in e.parallelNextSteps;
      case End =>
      case Unsupported(_) =>
      case _ => assert t in Engine.Named(e.nextStep);
    } else {
      assert t in EventTargets(e.boundaryEvents);
    }
  }

  lemma StepIncluded(def: RawDefinition, a: string, b: string)
    requires AllTyped(def) && a != "" && b in Avoiding(StepGraph(def), NO_ID)(a)
    ensures b != "" && b in Engine.WalkGraph(ToEngine(def))(a)
  {
    hide AllOutgoing, ToEngineStep, Engine.Successors, Indexed, Engine.Lookup;
    LookupAgrees(def.steps, a);
    assert b in Without(StepGraph(def)(a), NO_ID);
    assert b in StepGraph(def)(a) && b != "";
    var s := Indexed(def.steps, a).value;
    EdgesIncluded(s, b);
  }

  lemma {:induction false} WithinIncluded(def: RawDefinition, a: string, b: string, n: nat)
    requires AllTyped(def) && a != "" && Within(Avoiding(StepGraph(def), NO_ID), a, b, n)
    ensures Reaches(Engine.WalkGraph(ToEngine(def)), a, b)
    decreases n
  {
    hide AllTyped, StepGraph, Engine.WalkGraph, Avoiding, Reaches;
    if a == b {
      ReachesSelf(Engine.WalkGraph(ToEngine(def)), a);
    } else {
      var c :| c in Avoiding(StepGraph(def), NO_ID)(a) && Within(Avoiding(StepGraph(def), NO_ID), c, b, n - 1);
      StepIncluded(def, a, c);
      WithinIncluded(def, c, b, n - 1);
      ReachesStep(Engine.WalkGraph(ToEngine(def)), a, c, b);
    }
  }

  lemma MarkedReached(def: RawDefinition, id: string)
    requires AllTyped(def) && def.steps != [] && Marked(def, id)
    ensures Reaches(Engine.WalkGraph(ToEngine(def)), ToEngine(def).steps[0].id, id)
  {
    hide AllTyped, StepGraph, Engine.WalkGraph, Avoiding;
    var s :| s in [EntryId(def)] && s !in NO_ID && Reaches(Avoiding(StepGraph(def), NO_ID), s, id);
    var n: nat :| Within(Avoiding(StepGraph(def), NO_ID), s, id, n);
    WithinIncluded(def, s, id, n);
  }

  lemma ReachAgrees(def: RawDefinition, iso: string -> bool)
    requires AllTyped(def) && ErrorFree(def, iso)
    ensures Engine.AllReachable(ToEngine(def)) && Engine.EndReachable(ToEngine(def))
  {
    hide ShapeOk, RefsOk, BoundaryOk, JoinTargetOk, NotNested, WellTyped, Marked, Engine.WalkGraph, Indexed, Engine.Lookup;
    var eng := ToEngine(def);
    forall i | 0 <= i < |eng.steps| ensures Reaches(Engine.WalkGraph(eng), eng.steps[0].id, eng.steps[i].id) {
      MarkedReached(def, def.steps[i].id);
    }
    var id :| Marked(def, id) && Indexed(def.steps, id).Some? && Indexed(def.steps, id).value.typ == End;
    MarkedReached(def, id);
    IndexedId(def, id);
    LookupAgrees(def.steps, id);
    assert Engine.Lookup(eng.steps, id).Some? && Engine.Lookup(eng.steps, id).value.typ == End;
  }

  lemma IndexedId(def: RawDefinition, id: string)
    requires IdsPresent(def) && Indexed(def.steps, id).Some?
    ensures id != ""
  {
    var s := Indexed(def.steps, id).value;
    var i :| 0 <= i < |def.steps| && def.steps[i] == s;
    NotBlank(def.steps[i].id);
  }

  // ---- the result ----

  /**
   A definition that passes the modeller's validator with no errors and no unknown-field
   warnings is accepted by the engine exactly when all its SERVICE_TASKs carry a jobType.
   */
  lemma Agreement(def: RawDefinition, iso: string -> bool)
    requires AllTyped(def) && ErrorFree(def, iso) && FieldsKnown(def)
    ensures Engine.Accepted(ToEngine(def)) <==> JobTypesGiven(def)
  {
    hide ErrorFree, FieldsKnown, AllTyped, Engine.TopOk, Engine.IdsOk, Engine.AllReachable, Engine.EndReachable, Engine.StepOk, Text, Ids, Engine.Ids,
         ToEngineStep;
    TopAgrees(def, iso);
    IdsAgree(def, iso);
    ReachAgrees(def, iso);
    var steps := ToEngine(def).steps;
    forall s | s in def.steps ensures Engine.StepOk(ToEngineStep(s), Ids(def)) <==> (s.typ == ServiceTask ==> Text(s.jobType) != "") {
      StepAgrees(def, s, iso);
    }
    if JobTypesGiven(def) {
      forall s | s in steps ensures Engine.StepOk(s, Engine.Ids(steps)) {
        var i :| 0 <= i < |steps| && steps[i] == s;
        assert def.steps[i] in def.steps;
      }
    }
    if Engine.Accepted(ToEngine(def)) {
      forall s | s in def.steps && s.typ == ServiceTask ensures Text(s.jobType) != "" {
        var i :| 0 <= i < |def.steps| && def.steps[i] == s;
        assert steps[i] in steps;
      }
    }
  }

  /** Both validators, run on the same document. */
  method BothValidate(def: RawDefinition, iso: string -> bool, lint: Linter) returns (diagnostics: seq<Diagnostic>, problems: seq<Engine.Problem>)
    requires AllTyped(def) && forall s, d :: d in lint(def, s) ==> IsLint(d)
    ensures !HasError(diagnostics) && !HasCode(diagnostics, "UNKNOWN_FIELDS_PRESENT") ==> (problems == [] <==> JobTypesGiven(def))
  {
    hide ErrorFree, FieldsKnown, Engine.Accepted, JobTypesGiven, HasError, HasCode, IsLint, LintFree;
    diagnostics := Validate(def, iso, lint);
    problems := Engine.Validate(ToEngine(def));
    if ErrorFree(def, iso) && FieldsKnown(def) {
      Agreement(def, iso);
    }
  }
}
