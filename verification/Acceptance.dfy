/**
 What the engine's validator does and does not guarantee about runs: when accepted definitions
 resolve all the references their handlers follow, and three accepted definitions that show
 which runtime properties acceptance alone does not give.
 */
module Acceptance {
  import opened Values
  import opened Definitions
  import opened Database
  import opened Interpreter
  import opened Transactions
  import opened Plans
  import opened Graphs
  import Engine = EngineValidator
  import Resolution
  import Termination
  import Divergence
  import Joins
  import JoinOnce

  // ---- references ----

  /** The conditionalNextSteps of steps other than DECISION, which only the interpreter looks at. */
  predicate StrayBranchesResolve(def: Definition) {
    forall s :: s in def.steps && Parked(s.typ) && s.branches != [] ==>
      forall id :: id in Targets(s.branches) ==> Declared(def, id)
  }

  predicate OnlyDecisionsBranch(def: Definition) {
    forall s :: s in def.steps && s.branches != [] ==> s.typ == Decision
  }

  lemma IdsDeclared(def: Definition, id: string)
    ensures Declared(def, id) <==> id in Engine.Ids(def.steps)
  {
  }

  lemma TargetsAt(branches: seq<Branch>, ids: set<string>)
    requires forall i :: 0 <= i < |branches| ==> branches[i].target in ids
    ensures forall id :: id in Targets(branches) ==> id in ids
  {
  }

  lemma HandoversAccepted(s: Step, ids: set<string>)
    requires Engine.StepOk(s, ids)
    ensures forall id :: id in Handovers(s) ==> id in ids
    ensures forall b :: b in s.boundaryEvents ==> b.target in ids
    ensures Parked(s.typ) && s.branches == [] ==> forall id :: id in Resolution.Followers(s) ==> id in ids
  {
    hide Engine.SchemaOk, Engine.TableOk, Targets;
    if s.typ == Decision {
      TargetsAt(s.branches, ids);
    } else if s.typ == DecisionTable {
      TableNext(s, ids);
    }
    forall b | b in s.boundaryEvents ensures b.target in ids {
      var i :| 0 <= i < |s.boundaryEvents| && s.boundaryEvents[i] == b;
      assert Engine.EventOk(s.boundaryEvents[i], ids);
    }
  }

  lemma TableNext(s: Step, ids: set<string>)
    requires Engine.TableOk(s, ids)
    ensures s.nextStep in ids
  {
  }

  /**
   An accepted definition resolves every reference a run can follow exactly when the stray
   branch targets on SERVICE_TASK, USER_TASK and WAIT steps are declared.
   */
  lemma AcceptedResolves(def: Definition)
    requires Engine.Accepted(def)
    ensures Resolution.Resolvable(def) <==> StrayBranchesResolve(def)
  {
    hide Engine.StepOk, FindStep, Handovers, Engine.AllReachable, Engine.EndReachable, Engine.TopOk, Targets;
    forall s | s in def.steps
      ensures Resolution.StepResolves(def, s) <==>
                (Parked(s.typ) && s.branches != [] ==> forall id :: id in Targets(s.branches) ==> Declared(def, id))
    {
      HandoversAccepted(s, Engine.Ids(def.steps));
      forall id ensures Declared(def, id) <==> id in Engine.Ids(def.steps) {
        IdsDeclared(def, id);
      }
    }
  }

  /** In particular when only DECISION steps branch. */
  lemma OnlyDecisionsResolve(def: Definition)
    requires Engine.Accepted(def) && OnlyDecisionsBranch(def)
    ensures Resolution.Resolvable(def)
  {
    hide Engine.Accepted, Resolution.Resolvable, FindStep, Targets;
    AcceptedResolves(def);
  }

  /**
   Runs over accepted definitions whose stray branches resolve, in particular those in which
   only DECISION steps branch, never dispatch an undeclared step.
   */
  lemma AcceptedRunsResolve(env: Env, states: seq<Db>, events: seq<Event>, i: nat, ev: Event, depth: nat)
    requires IsRun(env, states, events) && i < |states|
    requires forall d :: Resolution.Brings(ev, d) ==> Engine.Accepted(d) && StrayBranchesResolve(d)
    requires forall k, d :: 0 <= k < |events| && Resolution.Brings(events[k], d) ==> Engine.Accepted(d) && StrayBranchesResolve(d)
    ensures var r := Next(env, depth, states[i], ev); !(r.Aborted? && r.error.StepNotFound?)
  {
    hide Engine.Accepted, StrayBranchesResolve, Resolution.Resolvable, IsRun, Next, Resolution.Brings;
    forall d | Resolution.Brings(ev, d) ensures Resolution.Resolvable(d) {
      AcceptedResolves(d);
    }
    forall k | 0 <= k < |events| ensures Resolution.BringsResolvable(events[k]) {
      forall d | Resolution.Brings(events[k], d) ensures Resolution.Resolvable(d) {
        AcceptedResolves(d);
      }
    }
    Resolution.NoUndeclaredDispatch(env, states, events, i, ev, depth);
  }

  lemma AcceptedHandsOver(def: Definition)
    requires Engine.Accepted(def)
    ensures HandsOverDeclared(def)
  {
    hide Engine.StepOk, FindStep, Handovers, Engine.AllReachable, Engine.EndReachable, Engine.TopOk;
    forall s | s in def.steps ensures forall id :: id in Handovers(s) ==> Declared(def, id) {
      HandoversAccepted(s, Engine.Ids(def.steps));
      forall id | id in Handovers(s) ensures Declared(def, id) {
        IdsDeclared(def, id);
      }
    }
  }

  // ---- finishing a step with stray branches ----

  ghost predicate Missing(o: Outcome) {
    o.Err? && o.error.StepNotFound?
  }

  /** Within one dispatch of a declared step every step met is declared. */
  lemma {:induction false} DispatchFindsSteps(env: Env, n: nat, db: Db, iid: Id, mem: Instance, stepId: string)
    requires HandsOverDeclared(mem.def) && Declared(mem.def, stepId)
    ensures !Missing(Dispatch(env, n, db, iid, mem, stepId))
    decreases n, 1
  {
    hide Route, PlanOf, Enter, Fork, HandsOverDeclared, Handovers;
    if n > 0 {
      var step := FindStep(mem.def, stepId).value;
      EnterHasExec(db, iid, mem, step);
      var db1, mem1 := Enter(db, iid, mem, step), Entered(mem, step);
      RouteFollowsPlan(env, n, db1, iid, mem1, step, db.nextId);
      PlanHandsOver(env, db1, iid, mem1, step, db.nextId);
      hide FindStep;
      forall b | b in Handovers(step) ensures Declared(mem.def, b) {
        HandoverDeclared(mem.def, step, b);
      }
      match PlanOf(env, db1, iid, mem1, step, db.nextId)
      case Stop(_) =>
      case Go(db2, mem2, next) => DispatchFindsSteps(env, n - 1, db2, iid, mem2, next);
      case Split(db2, mem2, branches) => ForkFindsSteps(env, n, db2, iid, mem2, branches);
    }
  }

  lemma {:induction false} ForkFindsSteps(env: Env, n: nat, db: Db, iid: Id, mem: Instance, branches: seq<string>)
    requires n > 0 && HandsOverDeclared(mem.def) && forall b :: b in branches ==> Declared(mem.def, b)
    ensures !Missing(Fork(env, n, db, iid, mem, branches))
    decreases n, 0, |branches|
  {
    hide Dispatch, HandsOverDeclared, FindStep;
    if branches != [] {
      assert branches[0] in branches;
      DispatchFindsSteps(env, n - 1, db, iid, mem, branches[0]);
      DispatchKeepsDef(env, n - 1, db, iid, mem, branches[0]);
      var o := Dispatch(env, n - 1, db, iid, mem, branches[0]);
      if o.Ok? {
        ForkFindsSteps(env, n, o.db, iid, o.mem, branches[1..]);
      }
    }
  }

  /** A branch that can be taken: no earlier branch has the same expression. */
  predicate Offered(branches: seq<Branch>, i: nat) {
    i < |branches| && forall k :: 0 <= k < i ==> branches[k].expr != branches[i].expr
  }

  predicate OffersUndeclared(def: Definition, step: Step) {
    exists i :: 0 <= i < |step.branches| && Offered(step.branches, i) && !Declared(def, step.branches[i].target)
  }

  /**
   Finishing a parked step of an accepted definition, from any state: some evaluator makes it
   dispatch an undeclared step exactly when one of its branches can be taken and names one.
   */
  lemma FinishingDanglesIff(depth: nat, db: Db, iid: Id, mem: Instance, step: Step)
    requires depth > 0 && Engine.Accepted(mem.def) && step in mem.def.steps && Parked(step.typ)
    ensures (exists env :: Missing(Advance(env, depth, db, iid, mem, step))) <==> OffersUndeclared(mem.def, step)
  {
    hide Engine.Accepted, FindStep, Missing, Advance, HandsOverDeclared;
    AcceptedHandsOver(mem.def);
    if env :| Missing(Advance(env, depth, db, iid, mem, step)) {
      DanglesOnlyThere(env, depth, db, iid, mem, step);
    }
    if i :| 0 <= i < |step.branches| && Offered(step.branches, i) && !Declared(mem.def, step.branches[i].target) {
      DanglesThere(depth, db, iid, mem, step, i);
    }
  }

  lemma DanglesThere(depth: nat, db: Db, iid: Id, mem: Instance, step: Step, i: nat)
    requires depth > 0 && Offered(step.branches, i) && !Declared(mem.def, step.branches[i].target)
    ensures Missing(Advance(Divergence.Obliging({step.branches[i].expr}), depth, db, iid, mem, step))
  {
    hide SetStatus, SetCurrent, WithoutStep, Recomputed, Divergence.Obliging, Choose;
    var T := {step.branches[i].expr};
    Divergence.FirstInIs(T, step.branches, i);
    Divergence.ObligingChoice(T, step.branches, mem.vars);
  }

  lemma DanglesOnlyThere(env: Env, depth: nat, db: Db, iid: Id, mem: Instance, step: Step)
    requires Engine.Accepted(mem.def) && HandsOverDeclared(mem.def) && step in mem.def.steps && Parked(step.typ)
    requires Missing(Advance(env, depth, db, iid, mem, step))
    ensures OffersUndeclared(mem.def, step)
  {
    hide SetStatus, SetCurrent, WithoutStep, Recomputed, Choose, FindStep, Dispatch, HandsOverDeclared, FailStep, Engine.Accepted;
    var mem1 := Leaving(mem, step);
    var db1 := SetStatus(SetCurrent(db, iid, mem1.current), iid, mem1.status);
    var c := Choose(env.eval, step.branches, mem.vars);
    if step.branches == [] {
      if step.nextStep != "" {
        NextAccepted(mem.def, step);
        DispatchFindsSteps(env, depth, db1, iid, mem1, step.nextStep);
      }
    } else if c.Take? {
      var i := ChosenBranch(env.eval, step.branches, mem.vars);
      if Declared(mem.def, c.target) {
        DispatchFindsSteps(env, depth, db1, iid, mem1, c.target);
      }
      assert Offered(step.branches, i);
    } else {
      FailsQuietly(db1, iid, mem1, step.id);
    }
  }

  lemma FailsQuietly(db: Db, iid: Id, mem: Instance, stepId: string)
    ensures FailStep(db, iid, mem, stepId).Ok?
  {
  }

  lemma NextAccepted(def: Definition, step: Step)
    requires Engine.Accepted(def) && step in def.steps && Parked(step.typ) && step.branches == [] && step.nextStep != ""
    ensures Declared(def, step.nextStep)
  {
    hide Engine.StepOk, FindStep, Engine.AllReachable, Engine.EndReachable, Engine.TopOk;
    HandoversAccepted(step, Engine.Ids(def.steps));
    Resolution.NextFollows(step);
    IdsDeclared(def, step.nextStep);
  }

  // ---- building small definitions ----

  function Plain(id: string, typ: StepType): Step {
    Step(id, id, typ, "", [], "", [], map[], None, "", "", "", 0, [], None)
  }

  function Small(steps: seq<Step>): Definition {
    Definition("d", "d", steps, false, "", None)
  }

  lemma SmallTop(steps: seq<Step>)
    requires steps != []
    ensures Engine.TopOk(Small(steps))
  {
    assert "d"[0] == 'd';
  }

  /** Two steps, the first leading to an END. */
  lemma TwoStepsAccepted(a: Step, b: Step)
    requires a.id == "a" && b == Plain("e", End) && Engine.StepOk(a, {"a", "e"}) && "e" in Engine.Successors(a)
    ensures Engine.Accepted(Small([a, b]))
  {
    hide Engine.Successors;
    var def := Small([a, b]);
    SmallTop(def.steps);
    assert "a" != "e";
    assert Engine.Ids(def.steps) == {"a", "e"};
    assert Engine.IdsOk(def.steps);
    assert Engine.StepOk(b, {"a", "e"});
    var g := Engine.WalkGraph(def);
    LookupUnique(def.steps, 0);
    LookupUnique(def.steps, 1);
    hide Engine.TopOk, Engine.StepOk, Engine.Lookup, Reaches, Engine.IdsOk;
    assert "e" in g("a");
    ReachesSelf(g, "a");
    ReachesEdge(g, "a", "e");
    assert Engine.AllReachable(def);
    assert Engine.EndReachable(def);
  }

  // ---- an accepted definition whose dispatch never ends ----

  /**
   For accepted definitions whose immediate steps are decisions and gateways: a dispatch can be
   endless exactly when some set of true expressions selects a cycle its step leads to.
   */
  lemma AcceptedEndlessIff(db: Db, iid: Id, mem: Instance, stepId: string)
    requires Engine.Accepted(mem.def) && Divergence.DecidesOnly(mem.def)
    ensures (exists env :: Divergence.EndlessDispatch(env, db, iid, mem, stepId)) <==>
            (exists T :: Divergence.LeadsToCycle(Divergence.SelectedGraph(mem.def, T), stepId))
  {
    hide Engine.Accepted, HandsOverDeclared, Divergence.EndlessDispatch, Divergence.LeadsToCycle, Divergence.DecidesOnly;
    AcceptedHandsOver(mem.def);
    Divergence.EndlessIff(db, iid, mem, stepId);
  }

  /** A decision that may branch back to itself. */
  const LOOPING := Small([
    Plain("a", Decision).(branches := [Branch("again", "a"), Branch("stop", "e")]),
    Plain("e", End)])

  lemma LoopingAccepted()
    ensures Engine.Accepted(LOOPING)
  {
    var a := LOOPING.steps[0];
    assert Targets(a.branches)[0] == "a" && Targets(a.branches)[1] == "e";
    assert Engine.StepOk(a, {"a", "e"});
    assert "e" in Targets(a.branches);
    TwoStepsAccepted(a, LOOPING.steps[1]);
  }

  /**
   Acceptance does not rule out cycles of immediate steps: this definition is accepted, and
   while its first condition holds, dispatching its first step ends at no recursion depth.
   */
  lemma {:induction false} AcceptedMayNotTerminate(env: Env, n: nat, db: Db, iid: Id, mem: Instance)
    requires mem.def == LOOPING && forall vars :: env.eval("again", vars) == Val(Bool(true))
    ensures Engine.Accepted(LOOPING) && Dispatch(env, n, db, iid, mem, "a") == Diverged
  {
    hide SetRunning, Enter, Engine.Accepted;
    LoopingAccepted();
    if n > 0 {
      var step := LOOPING.steps[0];
      assert FindStep(mem.def, "a") == Some(step);
      EnterHasExec(db, iid, mem, step);
      var db1, mem1 := Enter(db, iid, mem, step), Entered(mem, step);
      assert Choose(env.eval, step.branches, mem1.vars) == Take("a");
      AcceptedMayNotTerminate(env, n - 1, SetRunning(db1, iid, "a", Succeeded), iid, Left(mem1, step));
    }
  }

  // ---- an accepted definition that dispatches an undeclared step ----

  /** A service task with a branch to nowhere beside its nextStep. */
  const DANGLING := Small([
    Plain("a", ServiceTask).(jobType := "j", nextStep := "e", branches := [Branch("go", "nowhere")]),
    Plain("e", End)])

  lemma DanglingAccepted()
    ensures Engine.Accepted(DANGLING)
  {
    var a := DANGLING.steps[0];
    assert Engine.StepOk(a, {"a", "e"});
    assert Engine.Named("e") == ["e"];
    TwoStepsAccepted(a, DANGLING.steps[1]);
  }

  /** The database after one instance of DANGLING was started. */
  function Started(): Db {
    var row := Instance(DANGLING, Active, ["a"], map[], None, None);
    Db(0, 3, map[0 := row], map[1 := Exec(0, "a", ServiceTask, 1, Running)],
       map[2 := Job(0, 1, "j", Unlocked, "", None, 0, map[])], map[], map[], map[], map[1 := 2], multiset{2}, multiset{}, {})
  }

  lemma DanglingStarts(env: Env)
    ensures Next(env, 1, EMPTY, EvStart(DANGLING, map[], None)) == Commit(Started())
  {
    var step := DANGLING.steps[0];
    var row := NewInstance(DANGLING, map[], None, None);
    assert row == Instance(DANGLING, Active, ["a"], map[], None, None);
    var db := Inserted(EMPTY, row);
    assert FindStep(DANGLING, "a") == Some(step);
    assert ExecsOf(db, 0, "a") == {};
    var db1 := Enter(db, 0, row, step);
    assert WithStep(row.current, "a") == ["a"];
    assert db1.instances == map[0 := row];
    assert db1.execs == map[1 := Exec(0, "a", ServiceTask, 1, Running)];
    var db2 := InsertJob(db1, 0, 1, "j", 0, map[]);
    assert db2 == Started();
    assert Schedule(env, db2, 0, 1, []) == Some(db2);
    assert Entered(row, step) == row;
    assert Dispatch(env, 1, db, 0, row, "a") == Ok(db2, row);
  }

  /**
   Acceptance does not resolve branch targets outside DECISION steps: after one start and one
   completed job this accepted definition dispatches a step it does not declare.
   */
  lemma AcceptedMayDangle(env: Env)
    requires forall vars :: env.eval("go", vars) == Val(Bool(true))
    ensures Engine.Accepted(DANGLING)
    ensures Next(env, 1, EMPTY, EvStart(DANGLING, map[], None)) == Commit(Started())
    ensures Next(env, 1, Started(), EvComplete(2, "w", map[])) == Aborted(StepNotFound("nowhere"))
  {
    hide Engine.Accepted;
    DanglingAccepted();
    DanglingStarts(env);
    DanglingCompletes(env);
  }

  lemma DanglingCompletes(env: Env)
    requires forall vars :: env.eval("go", vars) == Val(Bool(true))
    ensures Next(env, 1, Started(), EvComplete(2, "w", map[])) == Aborted(StepNotFound("nowhere"))
  {
    hide SetStatus, SetCurrent, WithoutStep, Recomputed;
    var db, step := Started(), DANGLING.steps[0];
    assert FindStep(DANGLING, "a") == Some(step);
    assert Accepts(db, 2, "w");
    var db1 := Merged(Closed(db, 2, "w"), 0, 1, map[]);
    var mem := db1.instances[0];
    assert mem.def == DANGLING;
    assert Choose(env.eval, step.branches, mem.vars) == Take("nowhere");
    assert FindStep(DANGLING, "nowhere") == None;
    assert Advance(env, 1, db1, 0, mem, step) == Err(StepNotFound("nowhere"));
  }

  // ---- repeated branch entries ----

  /** A gateway that lists its only branch twice. */
  const REPEATED := Small([
    Plain("g", ParallelGateway).(parallelNextSteps := ["b", "b"], joinStep := "j"),
    Plain("b", UserTask).(nextStep := "j"),
    Plain("j", JoinGateway).(nextStep := "e"),
    Plain("e", End)])

  lemma RepeatedIds()
    ensures Engine.Ids(REPEATED.steps) == {"g", "b", "j", "e"} && Engine.IdsOk(REPEATED.steps)
  {
    var s := REPEATED.steps;
    assert s[0].id == "g" && s[1].id == "b" && s[2].id == "j" && s[3].id == "e";
    assert "g"[0] != "b"[0] && "g"[0] != "j"[0] && "g"[0] != "e"[0] && "b"[0] != "j"[0] && "b"[0] != "e"[0] && "j"[0] != "e"[0];
    forall x | x in {"g", "b", "j", "e"} ensures x in Engine.Ids(s) {
      assert s[0] in s && s[1] in s && s[2] in s && s[3] in s;
    }
  }

  lemma RepeatedSteps()
    ensures forall i :: 0 <= i < 4 ==> Engine.StepOk(REPEATED.steps[i], {"g", "b", "j", "e"})
  {
    var s, ids := REPEATED.steps, {"g", "b", "j", "e"};
    assert Engine.StepOk(s[0], ids);
    assert Engine.StepOk(s[1], ids);
    assert Engine.StepOk(s[2], ids);
    assert Engine.StepOk(s[3], ids);
  }

  lemma RepeatedLookup()
    ensures var s := REPEATED.steps;
            && Engine.Lookup(s, "g") == Some(s[0]) && Engine.Lookup(s, "b") == Some(s[1])
            && Engine.Lookup(s, "j") == Some(s[2]) && Engine.Lookup(s, "e") == Some(s[3])
  {
    var s := REPEATED.steps;
    assert s[0].id == "g" && s[1].id == "b" && s[2].id == "j" && s[3].id == "e";
    RepeatedIds();
    hide Engine.Lookup;
    LookupUnique(s, 0);
    LookupUnique(s, 1);
    LookupUnique(s, 2);
    LookupUnique(s, 3);
  }

  /** With unique ids each step is found under its own. */
  lemma LookupUnique(steps: seq<Step>, i: nat)
    requires Engine.IdsOk(steps) && i < |steps|
    ensures Engine.Lookup(steps, steps[i].id) == Some(steps[i])
  {
    var r := Engine.Lookup(steps, steps[i].id);
    assert steps[i] in steps;
    var k :| 0 <= k < |steps| && steps[k] == r.value;
  }

  lemma RepeatedEdges()
    ensures var g := Engine.WalkGraph(REPEATED); "b" in g("g") && "j" in g("b") && "e" in g("j")
  {
    hide Engine.Lookup, Engine.Successors;
    var s := REPEATED.steps;
    RepeatedLookup();
    assert "b" in Engine.Successors(s[0]) by { Leads(s[0], "b"); }
    assert "j" in Engine.Successors(s[1]) by { Leads(s[1], "j"); }
    assert "e" in Engine.Successors(s[2]) by { Leads(s[2], "e"); }
  }

  lemma Leads(s: Step, id: string)
    requires id in s.parallelNextSteps || (s.nextStep == id && id != "")
    ensures id in Engine.Successors(s)
  {
    hide Targets, EventTargets;
    assert s.nextStep == id && id != "" ==> id in Engine.Named(s.nextStep);
  }

  lemma RepeatedReaches()
    ensures forall i :: 0 <= i < 4 ==> Reaches(Engine.WalkGraph(REPEATED), "g", REPEATED.steps[i].id)
  {
    hide Reaches, Engine.WalkGraph, ReachesPlus;
    var s := REPEATED.steps;
    var g := Engine.WalkGraph(REPEATED);
    RepeatedEdges();
    ReachesSelf(g, "g");
    ReachesEdge(g, "g", "b");
    ReachesEdge(g, "b", "j");
    ReachesEdge(g, "j", "e");
    ReachesTransitive(g, "g", "b", "j");
    ReachesTransitive(g, "g", "j", "e");
    assert s[0].id == "g" && s[1].id == "b" && s[2].id == "j" && s[3].id == "e";
  }

  /** The validator accepts it. */
  lemma RepeatedAccepted()
    ensures Engine.Accepted(REPEATED) && GatewayFor(REPEATED, "j") == Some(REPEATED.steps[0]) && !NoDup(REPEATED.steps[0].parallelNextSteps)
  {
    hide Engine.StepOk, Engine.Lookup, Engine.TopOk, Engine.IdsOk, Engine.Ids, Reaches, Engine.WalkGraph;
    var s := REPEATED.steps;
    SmallTop(s);
    RepeatedIds();
    RepeatedSteps();
    RepeatedLookup();
    RepeatedReaches();
    assert Engine.AllReachable(REPEATED);
    assert Engine.EndReachable(REPEATED);
    assert s[0].parallelNextSteps[0] == s[0].parallelNextSteps[1];
  }

  /** A gateway that lists an entry twice never lets its join go on, in any run. */
  lemma RepeatedEntryNeverJoins(env: Env, states: seq<Db>, events: seq<Event>, i: nat, e: Id, gateway: Step)
    requires IsRun(env, states, events) && i < |states| && e in states[i].execs && states[i].execs[e].inst in states[i].instances
    requires GatewayFor(states[i].instances[states[i].execs[e].inst].def, states[i].execs[e].stepId) == Some(gateway)
    requires !NoDup(gateway.parallelNextSteps)
    ensures e !in states[i].passed
  {
    hide IsRun, NoDup, GatewayFor, Joins.Done;
    if e in states[i].passed {
      Joins.JoinSeesAllBranches(env, states, events, i, e);
    }
  }

  // ---- a fork and join of the shape that goes on once ----

  const FORKED := Small([
    Plain("g", ParallelGateway).(parallelNextSteps := ["b", "c"], joinStep := "j"),
    Plain("b", UserTask).(nextStep := "j"),
    Plain("c", UserTask).(nextStep := "j"),
    Plain("j", JoinGateway).(nextStep := "e"),
    Plain("e", End)])

  lemma ForkedRefs()
    ensures var s := FORKED.steps;
            && JoinOnce.Refs(s[0]) == ["b", "c"] && JoinOnce.Refs(s[1]) == ["j"] && JoinOnce.Refs(s[2]) == ["j"]
            && JoinOnce.Refs(s[3]) == ["e"] && JoinOnce.Refs(s[4]) == []
  {
  }

  lemma ForkedLookups()
    ensures FindStep(FORKED, "g") == Some(FORKED.steps[0]) && GatewayFor(FORKED, "j") == Some(FORKED.steps[0])
  {
  }

  /** What the shape asks of one step. */
  ghost predicate StepShaped(sh: JoinOnce.Shape, s: Step) {
    && (s.id == sh.join ==> s.typ == JoinGateway)
    && (s.id in sh.Entries() ==> JoinOnce.Single(sh, s))
    && (s.id !in sh.Entries() ==> sh.join !in JoinOnce.Refs(s))
    && (s.id != sh.gateway.id ==> forall id :: id in JoinOnce.Refs(s) ==> id !in sh.Entries())
    && (forall be :: be in s.boundaryEvents ==> !sh.Guarded(be.target))
  }

  lemma ForkedSteps(iid: Id)
    ensures forall i :: 0 <= i < 5 ==> StepShaped(JoinOnce.Shape(iid, FORKED, FORKED.steps[0], "j"), FORKED.steps[i])
  {
    hide JoinOnce.Refs;
    ForkedRefs();
    var s := FORKED.steps;
    var sh := JoinOnce.Shape(iid, FORKED, s[0], "j");
    assert sh.Entries() == ["b", "c"];
    assert StepShaped(sh, s[0]);
    assert StepShaped(sh, s[1]);
    assert StepShaped(sh, s[2]);
    assert StepShaped(sh, s[3]);
    assert StepShaped(sh, s[4]);
  }

  /** The smallest fork and join with two branches has the shape JoinOnce.JoinPassesOnce speaks of. */
  lemma ForkedIsWellShaped(iid: Id)
    ensures JoinOnce.WellShaped(JoinOnce.Shape(iid, FORKED, FORKED.steps[0], "j"))
  {
    hide JoinOnce.Refs, FindStep, GatewayFor, JoinOnce.Single;
    ForkedLookups();
    ForkedSteps(iid);
    var sh := JoinOnce.Shape(iid, FORKED, FORKED.steps[0], "j");
    assert sh.Entries() == ["b", "c"];
    forall s | s in sh.def.steps ensures StepShaped(sh, s) {
      var i :| 0 <= i < 5 && FORKED.steps[i] == s;
    }
    hide StepShaped;
    ShapedBySteps(sh);
  }

  lemma ShapedBySteps(sh: JoinOnce.Shape)
    requires sh.def.steps != [] && !sh.Guarded(sh.def.steps[0].id)
    requires FindStep(sh.def, sh.gateway.id) == Some(sh.gateway) && sh.gateway.typ == ParallelGateway
    requires GatewayFor(sh.def, sh.join) == Some(sh.gateway) && NoDup(sh.Entries()) && sh.join !in sh.Entries()
    requires forall s :: s in sh.def.steps ==> StepShaped(sh, s)
    ensures JoinOnce.WellShaped(sh)
  {
    hide JoinOnce.Refs, FindStep, GatewayFor, JoinOnce.Single;
  }
}
