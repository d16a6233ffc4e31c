/**
 When a dispatch can fail to end. For definitions whose immediate steps are decisions and
 parallel gateways this is decided by the definition alone: some evaluator makes the dispatch
 endless exactly when, for some set of true expressions, the branches it selects form a cycle
 that the dispatched step leads to.
 */
module Divergence {
  import opened Values
  import opened Definitions
  import opened Database
  import opened Interpreter
  import opened Graphs
  import opened Plans
  import opened Termination

  predicate DecidesOnly(def: Definition) {
    forall s :: s in def.steps ==> s.typ == Decision || s.typ == ParallelGateway || Parked(s.typ) || s.typ == End
  }

  // ---- the steps a set of true expressions selects ----

  function FirstIn(T: set<string>, branches: seq<Branch>): Option<string> {
    if branches == [] then None
    else if branches[0].expr in T then Some(branches[0].target)
    else FirstIn(T, branches[1..])
  }

  function Selected(T: set<string>, step: Step): seq<string> {
    match step.typ
    case Decision => var t := FirstIn(T, step.branches); if t.Some? then [t.value] else []
    case ParallelGateway => step.parallelNextSteps
    case _ => []
  }

  /** Each decision goes to its first true branch, each gateway to all of its branches. */
  function SelectedGraph(def: Definition, T: set<string>): Graph {
    (id: string) => var s := FindStep(def, id); if s.Some? then Selected(T, s.value) else []
  }

  ghost predicate LeadsToCycle(g: Graph, id: string) {
    exists c :: Reaches(g, id, c) && OnCycle(g, c)
  }

  ghost predicate EndlessDispatch(env: Env, db: Db, iid: Id, mem: Instance, stepId: string) {
    forall n: nat :: Dispatch(env, n, db, iid, mem, stepId).Diverged?
  }

  // ---- the first stage of the handlers ----

  lemma {:induction false} FirstInIs(T: set<string>, branches: seq<Branch>, i: nat)
    requires i < |branches| && branches[i].expr in T && forall k :: 0 <= k < i ==> branches[k].expr !in T
    ensures FirstIn(T, branches) == Some(branches[i].target)
  {
    if i > 0 {
      FirstInIs(T, branches[1..], i - 1);
    }
  }

  /** What a decision or a gateway of such a definition plans; variables stay as they are. */
  lemma PlanSelects(env: Env, db: Db, iid: Id, mem: Instance, step: Step, exec: Id)
    requires exec in db.execs && DecidesOnly(mem.def) && step in mem.def.steps
    ensures match PlanOf(env, db, iid, mem, step, exec)
            case Stop(o) => o.Ok? ==> o.mem.vars == mem.vars
            case Go(_, mem1, next) => step.typ == Decision && mem1.vars == mem.vars && Choose(env.eval, step.branches, mem.vars) == Take(next)
            case Split(_, mem1, branches) => step.typ == ParallelGateway && mem1.vars == mem.vars && branches == step.parallelNextSteps
  {
    hide InsertJob, InsertTask, SetStatus, SetRunning, SetCurrent, InsertChain, SetExec, Schedule, Choose, Dispatch, Fork;
    assert step.typ == Decision || step.typ == ParallelGateway || Parked(step.typ) || step.typ == End;
  }

  ghost predicate KeepsVars(vars: Vars, o: Outcome) {
    o.Ok? ==> o.mem.vars == vars
  }

  lemma {:induction false} DispatchKeepsVars(env: Env, n: nat, db: Db, iid: Id, mem: Instance, stepId: string)
    requires DecidesOnly(mem.def)
    ensures KeepsVars(mem.vars, Dispatch(env, n, db, iid, mem, stepId))
    decreases n, 1
  {
    hide Route, PlanOf, Enter, Fork, DecidesOnly, Handovers, Choose;
    var step := FindStep(mem.def, stepId);
    if n > 0 && step.Some? {
      assert step.value in mem.def.steps;
      hide FindStep;
      EnterHasExec(db, iid, mem, step.value);
      var db1, mem1 := Enter(db, iid, mem, step.value), Entered(mem, step.value);
      RouteFollowsPlan(env, n, db1, iid, mem1, step.value, db.nextId);
      PlanHandsOver(env, db1, iid, mem1, step.value, db.nextId);
      PlanSelects(env, db1, iid, mem1, step.value, db.nextId);
      match PlanOf(env, db1, iid, mem1, step.value, db.nextId)
      case Stop(_) =>
      case Go(db2, mem2, next) => DispatchKeepsVars(env, n - 1, db2, iid, mem2, next);
      case Split(db2, mem2, branches) => ForkKeepsVars(env, n, db2, iid, mem2, branches);
    }
  }

  lemma {:induction false} ForkKeepsVars(env: Env, n: nat, db: Db, iid: Id, mem: Instance, branches: seq<string>)
    requires n > 0 && DecidesOnly(mem.def)
    ensures KeepsVars(mem.vars, Fork(env, n, db, iid, mem, branches))
    decreases n, 0, |branches|
  {
    hide Dispatch, DecidesOnly;
    if branches != [] {
      DispatchKeepsVars(env, n - 1, db, iid, mem, branches[0]);
      DispatchKeepsDef(env, n - 1, db, iid, mem, branches[0]);
      var o := Dispatch(env, n - 1, db, iid, mem, branches[0]);
      if o.Ok? {
        ForkKeepsVars(env, n, o.db, iid, o.mem, branches[1..]);
      }
    }
  }

  // ---- without such a cycle every dispatch ends ----

  /** The branch expressions that are true of these variables. */
  function TrueOf(def: Definition, eval: Evaluator, vars: Vars): set<string> {
    set s, b | s in def.steps && b in s.branches && eval(b.expr, vars) == Val(Bool(true)) :: b.expr
  }

  lemma ChoiceIsSelected(def: Definition, eval: Evaluator, vars: Vars, step: Step)
    requires step in def.steps && step.typ == Decision && Choose(eval, step.branches, vars).Take?
    ensures Selected(TrueOf(def, eval, vars), step) == [Choose(eval, step.branches, vars).target]
  {
    var T := TrueOf(def, eval, vars);
    var i := ChosenBranch(eval, step.branches, vars);
    assert step.branches[i] in step.branches && step.branches[i].expr in T;
    forall k | 0 <= k < i ensures step.branches[k].expr !in T {
    }
    FirstInIs(T, step.branches, i);
  }

  ghost predicate NoCycleFrom(g: Graph, start: string) {
    forall c :: Reaches(g, start, c) ==> !OnCycle(g, c)
  }

  /** The open calls lead to `id`, which lies on no cycle, and there is room for one more. */
  ghost predicate Bounded(def: Definition, g: Graph, start: string, trail: set<string>, id: string, n: nat) {
    && NoCycleFrom(g, start) && Reaches(g, start, id)
    && trail <= Ids(def) && (forall p :: p in trail ==> ReachesPlus(g, p, id))
    && |Ids(def) - trail| < n
  }

  lemma BoundedNext(def: Definition, g: Graph, start: string, trail: set<string>, id: string, next: string, n: nat)
    requires Bounded(def, g, start, trail, id, n) && next in g(id) && id in Ids(def)
    ensures n > 0 && Bounded(def, g, start, trail + {id}, next, n - 1)
  {
    hide ReachesPlus, Reaches, Ids;
    Lengthen(g, trail, id, next);
    assert !OnCycle(g, id) && id !in trail;
    Fewer(Ids(def), trail, id, n);
    ReachesEdge(g, id, next);
    ReachesTransitive(g, start, id, next);
  }

  lemma BoundedPositive(def: Definition, g: Graph, start: string, trail: set<string>, id: string, n: nat)
    requires Bounded(def, g, start, trail, id, n)
    ensures n > 0
  {
  }

  /** The graph of this definition, these variables and this evaluator. */
  function GraphFor(env: Env, mem: Instance): Graph {
    SelectedGraph(mem.def, TrueOf(mem.def, env.eval, mem.vars))
  }

  lemma SelectedAt(env: Env, mem: Instance, step: Step, next: string)
    requires FindStep(mem.def, step.id) == Some(step) && next in Selected(TrueOf(mem.def, env.eval, mem.vars), step)
    ensures next in GraphFor(env, mem)(step.id) && step.id in Ids(mem.def)
  {
    hide Selected, TrueOf;
  }

  lemma {:induction false} EndsUnder(env: Env, n: nat, db: Db, iid: Id, mem: Instance, stepId: string, start: string, trail: set<string>)
    requires DecidesOnly(mem.def) && Bounded(mem.def, GraphFor(env, mem), start, trail, stepId, n)
    ensures !Dispatch(env, n, db, iid, mem, stepId).Diverged?
    decreases n, 1
  {
    hide Route, PlanOf, Enter, Fork, DecidesOnly, Bounded, TrueOf, Selected, SelectedGraph, Handovers, Choose, GraphFor;
    var g := GraphFor(env, mem);
    BoundedPositive(mem.def, g, start, trail, stepId, n);
    if FindStep(mem.def, stepId).Some? {
      var step := FindStep(mem.def, stepId).value;
      EnterHasExec(db, iid, mem, step);
      var db1, mem1 := Enter(db, iid, mem, step), Entered(mem, step);
      RouteFollowsPlan(env, n, db1, iid, mem1, step, db.nextId);
      PlanHandsOver(env, db1, iid, mem1, step, db.nextId);
      PlanSelects(env, db1, iid, mem1, step, db.nextId);
      hide FindStep;
      forall b | b in Selected(TrueOf(mem.def, env.eval, mem.vars), step) ensures Bounded(mem.def, g, start, trail + {stepId}, b, n - 1) {
        SelectedAt(env, mem, step, b);
        BoundedNext(mem.def, g, start, trail, stepId, b, n);
      }
      match PlanOf(env, db1, iid, mem1, step, db.nextId)
      case Stop(_) =>
      case Go(db2, mem2, next) =>
        ChoiceIsSelected(mem.def, env.eval, mem.vars, step);
        SameGraph(env, mem, mem2);
        assert next in Selected(TrueOf(mem.def, env.eval, mem.vars), step);
        EndsUnder(env, n - 1, db2, iid, mem2, next, start, trail + {stepId});
      case Split(db2, mem2, branches) =>
        GatewaySelects(TrueOf(mem.def, env.eval, mem.vars), step);
        SameGraph(env, mem, mem2);
        ForkEndsUnder(env, n, db2, iid, mem2, branches, start, trail + {stepId});
    }
  }

  lemma GatewaySelects(T: set<string>, step: Step)
    requires step.typ == ParallelGateway
    ensures Selected(T, step) == step.parallelNextSteps
  {
  }

  lemma {:induction false} ForkEndsUnder(env: Env, n: nat, db: Db, iid: Id, mem: Instance, branches: seq<string>, start: string, trail: set<string>)
    requires n > 0 && DecidesOnly(mem.def)
    requires forall b :: b in branches ==> Bounded(mem.def, GraphFor(env, mem), start, trail, b, n - 1)
    ensures !Fork(env, n, db, iid, mem, branches).Diverged?
    decreases n, 0, |branches|
  {
    hide Dispatch, DecidesOnly, Bounded, GraphFor;
    if branches != [] {
      assert branches[0] in branches;
      EndsUnder(env, n - 1, db, iid, mem, branches[0], start, trail);
      DispatchKeepsDef(env, n - 1, db, iid, mem, branches[0]);
      DispatchKeepsVars(env, n - 1, db, iid, mem, branches[0]);
      var o := Dispatch(env, n - 1, db, iid, mem, branches[0]);
      if o.Ok? {
        SameGraph(env, mem, o.mem);
        forall b | b in branches[1..] ensures Bounded(mem.def, GraphFor(env, mem), start, trail, b, n - 1) {
          assert b in branches;
        }
        ForkEndsUnder(env, n, o.db, iid, o.mem, branches[1..], start, trail);
      }
    }
  }

  lemma SameGraph(env: Env, a: Instance, b: Instance)
    requires a.def == b.def && a.vars == b.vars
    ensures GraphFor(env, a) == GraphFor(env, b)
  {
  }

  lemma EndlessNeedsCycle(env: Env, db: Db, iid: Id, mem: Instance, stepId: string)
    requires DecidesOnly(mem.def) && EndlessDispatch(env, db, iid, mem, stepId)
    ensures LeadsToCycle(GraphFor(env, mem), stepId)
  {
    hide Dispatch, DecidesOnly, GraphFor, Reaches;
    var g, n := GraphFor(env, mem), |Ids(mem.def)| + 1;
    if NoCycleFrom(g, stepId) {
      ReachesSelf(g, stepId);
      assert Ids(mem.def) - {} == Ids(mem.def);
      assert Bounded(mem.def, g, stepId, {}, stepId, n);
      EndsUnder(env, n, db, iid, mem, stepId, stepId, {});
    }
  }

  // ---- with such a cycle some evaluator makes the dispatch endless ----

  /** Exactly the expressions of T are true, and every duration is well formed. */
  function Obliging(T: set<string>): Env {
    Env((e: string, v: Vars) => Val(Bool(e in T)), (t: int) => Null, (d: string) => Some(0), (s: Schema, v: Vars) => true,
        (e: Id, i: nat, keys: set<string>) => [])
  }

  lemma {:induction false} ScheduleTotal(env: Env, db: Db, iid: Id, exec: Id, events: seq<BoundaryEvent>)
    requires forall d :: env.duration(d).Some?
    ensures Schedule(env, db, iid, exec, events).Some?
    decreases |events|
  {
    if events != [] {
      if events[0].kind != "TIMER" {
        ScheduleTotal(env, db, iid, exec, events[1..]);
      } else {
        var d := env.duration(events[0].duration).value;
        var row := Timer(iid, exec, events[0].target, db.now + d, events[0].interrupting, false);
        ScheduleTotal(env, InsertTimer(db, row), iid, exec, events[1..]);
      }
    }
  }

  lemma PlanRaisesNothing(env: Env, db: Db, iid: Id, mem: Instance, step: Step, exec: Id)
    requires exec in db.execs && DecidesOnly(mem.def) && step in mem.def.steps && forall d :: env.duration(d).Some?
    ensures var plan := PlanOf(env, db, iid, mem, step, exec); plan.Stop? ==> !plan.o.Err?
  {
    hide InsertJob, InsertTask, SetStatus, SetRunning, SetCurrent, InsertChain, SetExec, Schedule, Choose, Dispatch, Fork;
    assert step.typ == Decision || step.typ == ParallelGateway || Parked(step.typ) || step.typ == End;
    forall d: Db ensures Schedule(env, d, iid, exec, step.boundaryEvents).Some? {
      ScheduleTotal(env, d, iid, exec, step.boundaryEvents);
    }
  }

  ghost predicate Sound(env: Env, def: Definition) {
    DecidesOnly(def) && HandsOverDeclared(def) && forall d :: env.duration(d).Some?
  }

  lemma {:induction false} RaisesNothing(env: Env, n: nat, db: Db, iid: Id, mem: Instance, stepId: string)
    requires Sound(env, mem.def) && Declared(mem.def, stepId)
    ensures !Dispatch(env, n, db, iid, mem, stepId).Err?
    decreases n, 1
  {
    hide Route, PlanOf, Enter, Fork, DecidesOnly, HandsOverDeclared, Handovers;
    if n > 0 {
      var step := FindStep(mem.def, stepId).value;
      EnterHasExec(db, iid, mem, step);
      var db1, mem1 := Enter(db, iid, mem, step), Entered(mem, step);
      RouteFollowsPlan(env, n, db1, iid, mem1, step, db.nextId);
      PlanHandsOver(env, db1, iid, mem1, step, db.nextId);
      PlanRaisesNothing(env, db1, iid, mem1, step, db.nextId);
      hide FindStep;
      forall b | b in Handovers(step) ensures Declared(mem.def, b) {
        HandoverDeclared(mem.def, step, b);
      }
      match PlanOf(env, db1, iid, mem1, step, db.nextId)
      case Stop(_) =>
      case Go(db2, mem2, next) => RaisesNothing(env, n - 1, db2, iid, mem2, next);
      case Split(db2, mem2, branches) => ForkRaisesNothing(env, n, db2, iid, mem2, branches);
    }
  }

  lemma {:induction false} ForkRaisesNothing(env: Env, n: nat, db: Db, iid: Id, mem: Instance, branches: seq<string>)
    requires n > 0 && Sound(env, mem.def) && forall b :: b in branches ==> Declared(mem.def, b)
    ensures !Fork(env, n, db, iid, mem, branches).Err?
    decreases n, 0, |branches|
  {
    hide Dispatch, Sound, FindStep;
    if branches != [] {
      assert branches[0] in branches;
      RaisesNothing(env, n - 1, db, iid, mem, branches[0]);
      DispatchKeepsDef(env, n - 1, db, iid, mem, branches[0]);
      var o := Dispatch(env, n - 1, db, iid, mem, branches[0]);
      if o.Ok? {
        ForkRaisesNothing(env, n, o.db, iid, o.mem, branches[1..]);
      }
    }
  }

  /** A step that leads to a cycle has a successor that does. */
  lemma LeadsOn(g: Graph, id: string) returns (next: string)
    requires LeadsToCycle(g, id)
    ensures next in g(id) && LeadsToCycle(g, next)
  {
    var c :| Reaches(g, id, c) && OnCycle(g, c);
    if c == id {
      next :| next in g(c) && Reaches(g, next, c);
    } else {
      var n: nat :| Within(g, id, c, n);
      next :| next in g(id) && Within(g, next, c, n - 1);
    }
  }

  lemma {:induction false} ObligingChoice(T: set<string>, branches: seq<Branch>, vars: Vars)
    ensures var t := FirstIn(T, branches);
            Choose(Obliging(T).eval, branches, vars) == if t.Some? then Take(t.value) else NoBranch
  {
    if branches != [] && branches[0].expr !in T {
      ObligingChoice(T, branches[1..], vars);
    }
  }

  lemma {:induction false} CycleDiverges(T: set<string>, n: nat, db: Db, iid: Id, mem: Instance, stepId: string)
    requires Sound(Obliging(T), mem.def) && LeadsToCycle(SelectedGraph(mem.def, T), stepId)
    ensures Dispatch(Obliging(T), n, db, iid, mem, stepId).Diverged?
    decreases n, 1
  {
    hide Enter, Fork, Sound, LeadsToCycle, Obliging, Route, PlanOf, Selected, FindStep, SelectedGraph;
    if n > 0 {
      var next := LeadsOn(SelectedGraph(mem.def, T), stepId);
      SelectedStep(mem.def, T, stepId, next);
      var step := FindStep(mem.def, stepId).value;
      EnterHasExec(db, iid, mem, step);
      var db1, mem1 := Enter(db, iid, mem, step), Entered(mem, step);
      RouteFollowsPlan(Obliging(T), n, db1, iid, mem1, step, db.nextId);
      ObligingPlan(T, db1, iid, mem1, step, db.nextId);
      match PlanOf(Obliging(T), db1, iid, mem1, step, db.nextId)
      case Stop(_) =>
      case Go(db2, mem2, _) => CycleDiverges(T, n - 1, db2, iid, mem2, next);
      case Split(db2, mem2, branches) =>
        SoundHandovers(Obliging(T), mem.def, step);
        ForkDiverges(T, n, db2, iid, mem2, branches, next);
    }
  }

  lemma SelectedStep(def: Definition, T: set<string>, id: string, next: string)
    requires next in SelectedGraph(def, T)(id)
    ensures FindStep(def, id).Some? && FindStep(def, id).value in def.steps && FindStep(def, id).value.id == id
    ensures next in Selected(T, FindStep(def, id).value)
  {
    hide Selected;
  }

  /** Under the obliging evaluator a step with selected successors hands over to exactly those. */
  lemma ObligingPlan(T: set<string>, db: Db, iid: Id, mem: Instance, step: Step, exec: Id)
    requires exec in db.execs && Selected(T, step) != []
    ensures match PlanOf(Obliging(T), db, iid, mem, step, exec)
            case Stop(_) => false
            case Go(_, mem1, next) => mem1.def == mem.def && Selected(T, step) == [next]
            case Split(_, mem1, branches) => mem1.def == mem.def && step.typ == ParallelGateway && branches == Selected(T, step) == step.parallelNextSteps
  {
    hide SetRunning, Dispatch, Fork, Obliging, FirstIn, Choose;
    if step.typ == Decision {
      ObligingChoice(T, step.branches, mem.vars);
    }
  }

  lemma SoundHandovers(env: Env, def: Definition, step: Step)
    requires Sound(env, def) && step in def.steps && step.typ == ParallelGateway
    ensures forall b :: b in step.parallelNextSteps ==> Declared(def, b)
  {
    hide FindStep;
    forall b | b in step.parallelNextSteps ensures Declared(def, b) {
      assert b in Handovers(step);
      HandoverDeclared(def, step, b);
    }
  }

  /** Branches before the one that leads to the cycle return or diverge; none raises an error. */
  lemma {:induction false} ForkDiverges(T: set<string>, n: nat, db: Db, iid: Id, mem: Instance, branches: seq<string>, next: string)
    requires n > 0 && Sound(Obliging(T), mem.def) && (forall b :: b in branches ==> Declared(mem.def, b))
    requires next in branches && LeadsToCycle(SelectedGraph(mem.def, T), next)
    ensures Fork(Obliging(T), n, db, iid, mem, branches).Diverged?
    decreases n, 0, |branches|
  {
    hide Dispatch, Sound, FindStep, LeadsToCycle, Obliging, SelectedGraph;
    var env := Obliging(T);
    assert branches[0] in branches;
    RaisesNothing(env, n - 1, db, iid, mem, branches[0]);
    DispatchKeepsDef(env, n - 1, db, iid, mem, branches[0]);
    if branches[0] == next {
      CycleDiverges(T, n - 1, db, iid, mem, next);
    } else {
      var o := Dispatch(env, n - 1, db, iid, mem, branches[0]);
      if o.Ok? {
        ForkDiverges(T, n, o.db, iid, o.mem, branches[1..], next);
      }
    }
  }

  // ---- the exact condition ----

  /**
   Let all immediate steps of a definition be decisions and parallel gateways, and all their
   targets be declared. Then, from every state, some evaluator makes the dispatch of a step
   endless exactly when some set of true expressions selects branches that lead it to a cycle.
   */
  lemma EndlessIff(db: Db, iid: Id, mem: Instance, stepId: string)
    requires DecidesOnly(mem.def) && HandsOverDeclared(mem.def)
    ensures (exists env :: EndlessDispatch(env, db, iid, mem, stepId)) <==> (exists T :: LeadsToCycle(SelectedGraph(mem.def, T), stepId))
  {
    hide DecidesOnly, HandsOverDeclared, LeadsToCycle, Dispatch, TrueOf, SelectedGraph;
    if env :| EndlessDispatch(env, db, iid, mem, stepId) {
      EndlessNeedsCycle(env, db, iid, mem, stepId);
    }
    if T :| LeadsToCycle(SelectedGraph(mem.def, T), stepId) {
      assert Sound(Obliging(T), mem.def);
      forall n: nat ensures Dispatch(Obliging(T), n, db, iid, mem, stepId).Diverged? {
        CycleDiverges(T, n, db, iid, mem, stepId);
      }
      assert EndlessDispatch(Obliging(T), db, iid, mem, stepId);
    }
  }
}
