/**
 One dispatch walks through immediate steps until it parks, ends or fails. It terminates when
 the immediate steps of the definition form no cycle; the recursion itself has no bound.
 */
module Termination {
  import opened Values
  import opened Definitions
  import opened Database
  import opened Interpreter
  import opened Graphs
  import opened Plans

  // ---- more depth changes nothing ----

  ghost predicate SameUnlessDiverged(a: Outcome, b: Outcome) {
    a != Diverged ==> b == a
  }

  lemma {:induction false} DeeperDispatch(env: Env, n: nat, m: nat, db: Db, iid: Id, mem: Instance, stepId: string)
    requires n <= m
    ensures SameUnlessDiverged(Dispatch(env, n, db, iid, mem, stepId), Dispatch(env, m, db, iid, mem, stepId))
    decreases n, 1
  {
    hide Route, PlanOf, Enter, Entered, Fork;
    var step := FindStep(mem.def, stepId);
    if n > 0 && step.Some? {
      assert db.nextId in Enter(db, iid, mem, step.value).execs by { EnterHasExec(db, iid, mem, step.value); }
      var db1, mem1 := Enter(db, iid, mem, step.value), Entered(mem, step.value);
      RouteFollowsPlan(env, n, db1, iid, mem1, step.value, db.nextId);
      RouteFollowsPlan(env, m, db1, iid, mem1, step.value, db.nextId);
      var plan := PlanOf(env, db1, iid, mem1, step.value, db.nextId);
      match plan
      case Stop(_) =>
      case Go(db2, mem2, next) => DeeperDispatch(env, n - 1, m - 1, db2, iid, mem2, next);
      case Split(db2, mem2, branches) => DeeperFork(env, n, m, db2, iid, mem2, branches);
    }
  }

  lemma {:induction false} DeeperFork(env: Env, n: nat, m: nat, db: Db, iid: Id, mem: Instance, branches: seq<string>)
    requires 0 < n <= m
    ensures SameUnlessDiverged(Fork(env, n, db, iid, mem, branches), Fork(env, m, db, iid, mem, branches))
    decreases n, 0, |branches|
  {
    hide Dispatch;
    if branches != [] {
      DeeperDispatch(env, n - 1, m - 1, db, iid, mem, branches[0]);
      var o := Dispatch(env, n - 1, db, iid, mem, branches[0]);
      if o.Ok? {
        DeeperFork(env, n, m, o.db, iid, o.mem, branches[1..]);
      }
    }
  }

  /** Every two depths at which a dispatch ends give the same outcome. */
  lemma DepthIrrelevant(env: Env, n: nat, m: nat, db: Db, iid: Id, mem: Instance, stepId: string)
    requires !Dispatch(env, n, db, iid, mem, stepId).Diverged? && !Dispatch(env, m, db, iid, mem, stepId).Diverged?
    ensures Dispatch(env, n, db, iid, mem, stepId) == Dispatch(env, m, db, iid, mem, stepId)
  {
    hide Dispatch;
    if n <= m {
      DeeperDispatch(env, n, m, db, iid, mem, stepId);
    } else {
      DeeperDispatch(env, m, n, db, iid, mem, stepId);
    }
  }

  // ---- termination ----

  function Immediate(def: Definition): Graph {
    (id: string) => var s := FindStep(def, id); if s.Some? then Handovers(s.value) else []
  }

  ghost predicate NoImmediateCycle(def: Definition) {
    forall id :: !OnCycle(Immediate(def), id)
  }

  function Ids(def: Definition): set<string> {
    set s | s in def.steps :: s.id
  }

  /** `trail` holds the steps of the dispatches still open; each leads to `stepId`. */
  ghost predicate Leads(def: Definition, trail: set<string>, stepId: string) {
    trail <= Ids(def) && forall p :: p in trail ==> ReachesPlus(Immediate(def), p, stepId)
  }

  ghost predicate Enough(def: Definition, trail: set<string>, n: nat) {
    |Ids(def) - trail| < n
  }

  lemma Lengthen(g: Graph, trail: set<string>, id: string, next: string)
    requires (forall p :: p in trail ==> ReachesPlus(g, p, id)) && next in g(id)
    ensures forall p :: p in trail + {id} ==> ReachesPlus(g, p, next)
  {
    hide ReachesPlus;
    forall p | p in trail + {id} ensures ReachesPlus(g, p, next) {
      if p == id {
        ReachesEdge(g, p, next);
      } else {
        PlusSnoc(g, p, id, next);
      }
    }
  }

  lemma Fewer(ids: set<string>, trail: set<string>, id: string, n: nat)
    requires id in ids && id !in trail && |ids - trail| < n
    ensures n > 0 && |ids - (trail + {id})| < n - 1
  {
    assert ids - trail == (ids - (trail + {id})) + {id};
  }

  lemma Deepen(def: Definition, trail: set<string>, step: Step, next: string, n: nat)
    requires NoImmediateCycle(def) && Leads(def, trail, step.id) && Enough(def, trail, n)
    requires FindStep(def, step.id) == Some(step) && next in Handovers(step)
    ensures n > 0 && Leads(def, trail + {step.id}, next) && Enough(def, trail + {step.id}, n - 1)
  {
    hide ReachesPlus, Handovers;
    Lengthen(Immediate(def), trail, step.id, next);
    assert !OnCycle(Immediate(def), step.id);
    assert step.id !in trail;
    Fewer(Ids(def), trail, step.id, n);
  }

  lemma EnoughIsPositive(def: Definition, trail: set<string>, n: nat)
    requires Enough(def, trail, n)
    ensures n > 0
  {
  }

  lemma {:induction false} DispatchEnds(env: Env, n: nat, db: Db, iid: Id, mem: Instance, stepId: string, trail: set<string>)
    requires NoImmediateCycle(mem.def) && Leads(mem.def, trail, stepId) && Enough(mem.def, trail, n)
    ensures !Dispatch(env, n, db, iid, mem, stepId).Diverged?
    decreases n, 1
  {
    hide Route, PlanOf, Enter, Handovers, NoImmediateCycle, Leads, Fork, Enough;
    EnoughIsPositive(mem.def, trail, n);
    var step := FindStep(mem.def, stepId);
    if step.Some? {
      assert db.nextId in Enter(db, iid, mem, step.value).execs by { EnterHasExec(db, iid, mem, step.value); }
      var db1, mem1 := Enter(db, iid, mem, step.value), Entered(mem, step.value);
      RouteFollowsPlan(env, n, db1, iid, mem1, step.value, db.nextId);
      PlanHandsOver(env, db1, iid, mem1, step.value, db.nextId);
      hide FindStep;
      forall b | b in Handovers(step.value)
        ensures Leads(mem.def, trail + {stepId}, b) && Enough(mem.def, trail + {stepId}, n - 1)
      {
        Deepen(mem.def, trail, step.value, b, n);
      }
      match PlanOf(env, db1, iid, mem1, step.value, db.nextId)
      case Stop(_) =>
      case Go(db2, mem2, next) => DispatchEnds(env, n - 1, db2, iid, mem2, next, trail + {stepId});
      case Split(db2, mem2, branches) => ForkEnds(env, n, db2, iid, mem2, branches, trail + {stepId});
    }
  }

  lemma {:induction false} ForkEnds(env: Env, n: nat, db: Db, iid: Id, mem: Instance, branches: seq<string>, trail: set<string>)
    requires 0 < n && NoImmediateCycle(mem.def)
    requires forall b :: b in branches ==> Leads(mem.def, trail, b) && Enough(mem.def, trail, n - 1)
    ensures !Fork(env, n, db, iid, mem, branches).Diverged?
    decreases n, 0, |branches|
  {
    hide Dispatch, NoImmediateCycle, Leads, Enough;
    if branches != [] {
      assert branches[0] in branches;
      DispatchEnds(env, n - 1, db, iid, mem, branches[0], trail);
      DispatchKeepsDef(env, n - 1, db, iid, mem, branches[0]);
      var o := Dispatch(env, n - 1, db, iid, mem, branches[0]);
      if o.Ok? {
        ForkEnds(env, n, o.db, iid, o.mem, branches[1..], trail);
      }
    }
  }

  /**
   For a definition whose immediate steps form no cycle, one dispatch of any step, declared or
   not, from any state, terminates: a recursion depth of one more than the number of step ids
   is enough.
   */
  lemma DispatchTerminates(env: Env, n: nat, db: Db, iid: Id, mem: Instance, stepId: string)
    requires NoImmediateCycle(mem.def) && n > |Ids(mem.def)|
    ensures !Dispatch(env, n, db, iid, mem, stepId).Diverged?
  {
    hide Dispatch, NoImmediateCycle;
    assert Ids(mem.def) - {} == Ids(mem.def);
    DispatchEnds(env, n, db, iid, mem, stepId, {});
  }
}
