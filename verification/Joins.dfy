/**
 Fork and join. A join execution that goes on has seen a COMPLETED execution of every branch
 entry its gateway lists; and for a join with single-step branches whose gateway is entered
 once, at most one join execution goes on.
 */
module Joins {
  import opened Values
  import opened Definitions
  import opened Database
  import opened Interpreter
  import opened Transactions
  import opened Invariants
  import opened Evolution
  import opened EventProofs
  import opened Plans
  import EngineTheorems
  import Resolution
  import Transformations

  // ---- counting branch entries ----

  lemma {:induction false} EntriesBound(s: seq<string>)
    ensures |set x | x in s| <= |s|
    ensures |set x | x in s| == |s| <==> NoDup(s)
  {
    var all := set x | x in s;
    if s == [] {
      assert all == {};
    } else {
      var n := |s| - 1;
      var rest := s[..n];
      EntriesBound(rest);
      var others := set x | x in rest;
      assert s == rest + [s[n]];
      assert all == others + {s[n]};
      if s[n] in rest {
        assert all == others;
        var i :| 0 <= i < n && rest[i] == s[n];
        assert s[i] == s[n];
      } else {
        assert |all| == |others| + 1;
        assert NoDup(rest) ==> NoDup(s);
        assert NoDup(s) ==> NoDup(rest);
      }
    }
  }

  ghost predicate Done(execs: Execs, iid: Id, id: string) {
    exists e :: e in execs && execs[e].inst == iid && execs[e].stepId == id && execs[e].status == Succeeded
  }

  /**
   The join's test counts distinct entries against the length of the list: it succeeds exactly
   when the list has no repetition and every entry has a COMPLETED execution.
   */
  lemma JoinTest(db: Db, iid: Id, leafs: seq<string>)
    ensures |CompletedLeafs(db, iid, leafs)| >= |leafs| <==> NoDup(leafs) && forall b :: b in leafs ==> Done(db.execs, iid, b)
  {
    var all := set x | x in leafs;
    var done := CompletedLeafs(db, iid, leafs);
    EntriesBound(leafs);
    forall b | b in leafs ensures b in done <==> Done(db.execs, iid, b) {
    }
    assert done <= all;
    if |done| >= |leafs| {
      Smaller(done, all);
      assert done == all;
    }
    if NoDup(leafs) && forall b :: b in leafs ==> Done(db.execs, iid, b) {
      assert all <= done;
      assert done == all;
    }
  }

  lemma Smaller(a: set<string>, b: set<string>)
    requires a <= b
    ensures |a| <= |b| && (|a| == |b| ==> a == b)
  {
    assert b == a + (b - a);
  }

  // ---- what a handler does to executions, tasks, timers and join history ----

  function NewRow(db: Db, iid: Id, step: Step, status: ExecStatus): Exec {
    Exec(iid, step.id, step.typ, |ExecsOf(db, iid, step.id)| + 1, status)
  }

  /** Executions of (iid, id) may have been closed, and nothing else changed. */
  ghost predicate ClosedAt(a: Execs, b: Execs, iid: Id, id: string) {
    ClosedExecs(a, b) && forall e :: e in a && b[e] != a[e] ==> a[e].inst == iid && a[e].stepId == id
  }

  ghost predicate TimersBy(a: map<Id, Timer>, b: map<Id, Timer>, iid: Id, step: Step) {
    forall t :: t in b && (t !in a || b[t] != a[t]) ==> b[t].inst == iid && exists be :: be in step.boundaryEvents && be.target == b[t].target
  }

  ghost predicate TasksBy(a: map<Id, UserTaskRow>, b: map<Id, UserTaskRow>, iid: Id, step: Step, n: Id, execs: Execs) {
    forall t :: t in b && (t !in a || b[t] != a[t]) ==>
      step.typ == UserTask && b[t] == UserTaskRow(iid, n, step.id, Open) && n in execs && execs[n].status == Running
  }

  /** All of the gateway's entries are there when a join goes on. */
  ghost predicate MayPass(def: Definition, execs: Execs, iid: Id, join: string) {
    var gw := GatewayFor(def, join);
    gw.Some? && NoDup(gw.value.parallelNextSteps) && forall b :: b in gw.value.parallelNextSteps ==> Done(execs, iid, b)
  }

  ghost predicate PassedBy(db: Db, db2: Db, def: Definition, iid: Id, step: Step) {
    db2.passed == db.passed
    || (step.typ == JoinGateway && db2.passed == db.passed + {db.nextId} && MayPass(def, db.execs, iid, step.id))
  }

  ghost predicate ExecsBy(db: Db, execs: Execs, iid: Id, step: Step) {
    && ClosedAt(db.execs[db.nextId := NewRow(db, iid, step, Running)], execs, iid, step.id)
    && (step.typ == JoinGateway ==> execs == db.execs[db.nextId := NewRow(db, iid, step, Succeeded)])
    && (Parked(step.typ) ==> execs == db.execs[db.nextId := NewRow(db, iid, step, Running)])
  }

  /** The effect of entering `step` and of its handler, up to the steps it hands over to. */
  ghost predicate Effect(db: Db, db2: Db, def: Definition, iid: Id, step: Step) {
    && db.nextId < db2.nextId && ExecsBy(db, db2.execs, iid, step)
    && TasksBy(db.tasks, db2.tasks, iid, step, db.nextId, db2.execs)
    && TimersBy(db.timers, db2.timers, iid, step)
    && PassedBy(db, db2, def, iid, step)
  }

  ghost predicate PlanEffect(db: Db, def: Definition, iid: Id, step: Step, plan: Plan) {
    match plan
    case Stop(o) => o.Ok? ==> Effect(db, o.db, def, iid, step)
    case Go(db2, _, _) => Effect(db, db2, def, iid, step)
    case Split(db2, _, _) => Effect(db, db2, def, iid, step)
  }

  lemma Entering(db: Db, iid: Id, mem: Instance, step: Step)
    ensures var db1 := Enter(db, iid, mem, step);
            && db1.execs == db.execs[db.nextId := NewRow(db, iid, step, Running)] && db1.nextId == db.nextId + 1
            && db1.tasks == db.tasks && db1.timers == db.timers && db1.passed == db.passed
  {
  }

  /** A handler that only closes executions of its own step. */
  lemma ClosingEffect(db: Db, db2: Db, def: Definition, iid: Id, step: Step)
    requires db.nextId < db2.nextId && !Parked(step.typ) && step.typ != JoinGateway
    requires ClosedAt(db.execs[db.nextId := NewRow(db, iid, step, Running)], db2.execs, iid, step.id)
    requires db2.tasks == db.tasks && db2.timers == db.timers && db2.passed == db.passed
    ensures Effect(db, db2, def, iid, step)
  {
  }

  lemma RunningClosed(db: Db, iid: Id, stepId: string, status: ExecStatus)
    requires status != Running
    ensures ClosedAt(db.execs, SetRunning(db, iid, stepId, status).execs, iid, stepId)
  {
  }

  lemma OneClosed(db: Db, e: Id, status: ExecStatus)
    requires e in db.execs && db.execs[e].status == Running && status != Running
    ensures ClosedAt(db.execs, SetExec(db, e, status).execs, db.execs[e].inst, db.execs[e].stepId)
  {
  }

  lemma SideRows(db: Db, iid: Id)
    ensures forall st :: var d := SetStatus(db, iid, st); SameSides(db, d)
    ensures forall v :: var d := PatchVars(db, iid, v); SameSides(db, d)
    ensures forall ids :: var d := SetCurrent(db, iid, ids); SameSides(db, d)
  {
    forall st ensures var d := SetStatus(db, iid, st); SameSides(db, d) {
    }
    forall v ensures var d := PatchVars(db, iid, v); SameSides(db, d) {
    }
    forall ids ensures var d := SetCurrent(db, iid, ids); SameSides(db, d) {
    }
  }

  ghost predicate SameSides(a: Db, b: Db) {
    b.execs == a.execs && b.tasks == a.tasks && b.timers == a.timers && b.passed == a.passed && b.nextId == a.nextId
  }

  lemma FailEffect(db: Db, iid: Id, mem: Instance, step: Step, def: Definition, mem1: Instance)
    requires !Parked(step.typ) && step.typ != JoinGateway
    ensures var o := FailStep(Enter(db, iid, mem, step), iid, mem1, step.id); o.Ok? && Effect(db, o.db, def, iid, step)
  {
    hide Enter, SetStatus, ClosedAt, Effect;
    Entering(db, iid, mem, step);
    var db1 := Enter(db, iid, mem, step);
    RunningClosed(db1, iid, step.id, Faulted);
    var db2 := SetRunning(db1, iid, step.id, Faulted);
    SideRows(db2, iid);
    assert SameSides(db2, SetStatus(db2, iid, Failed));
    ClosingEffect(db, SetStatus(db2, iid, Failed), def, iid, step);
  }

  lemma PassEffect(db: Db, iid: Id, mem: Instance, step: Step, def: Definition, patch: Vars)
    requires !Parked(step.typ) && step.typ != JoinGateway && db.nextId in Enter(db, iid, mem, step).execs
    ensures var db1 := Enter(db, iid, mem, step);
            && Effect(db, SetRunning(db1, iid, step.id, Succeeded), def, iid, step)
            && Effect(db, SetExec(PatchVars(db1, iid, patch), db.nextId, Succeeded), def, iid, step)
            && Effect(db, SetRunning(PatchVars(db1, iid, patch), iid, step.id, Succeeded), def, iid, step)
  {
    hide Enter, PatchVars, ClosedAt, Effect;
    Entering(db, iid, mem, step);
    var db1 := Enter(db, iid, mem, step);
    SideRows(db1, iid);
    assert SameSides(db1, PatchVars(db1, iid, patch));
    RunningClosed(db1, iid, step.id, Succeeded);
    RunningClosed(PatchVars(db1, iid, patch), iid, step.id, Succeeded);
    OneClosed(PatchVars(db1, iid, patch), db.nextId, Succeeded);
    ClosingEffect(db, SetRunning(db1, iid, step.id, Succeeded), def, iid, step);
    ClosingEffect(db, SetExec(PatchVars(db1, iid, patch), db.nextId, Succeeded), def, iid, step);
    ClosingEffect(db, SetRunning(PatchVars(db1, iid, patch), iid, step.id, Succeeded), def, iid, step);
  }

  lemma {:induction false} ScheduleRows(env: Env, db: Db, iid: Id, exec: Id, events: seq<BoundaryEvent>)
    ensures var s := Schedule(env, db, iid, exec, events);
            s.Some? ==>
              && s.value.execs == db.execs && s.value.tasks == db.tasks && s.value.passed == db.passed && db.nextId <= s.value.nextId
              && forall t :: t in s.value.timers && (t !in db.timers || s.value.timers[t] != db.timers[t]) ==>
                   s.value.timers[t].inst == iid && exists be :: be in events && be.target == s.value.timers[t].target
    decreases |events|
  {
    if events != [] {
      assert events[0] in events;
      assert forall be :: be in events[1..] ==> be in events;
      if events[0].kind != "TIMER" {
        ScheduleRows(env, db, iid, exec, events[1..]);
      } else {
        var d := env.duration(events[0].duration);
        if d.Some? {
          var row := Timer(iid, exec, events[0].target, db.now + d.value, events[0].interrupting, false);
          ScheduleRows(env, InsertTimer(db, row), iid, exec, events[1..]);
        }
      }
    }
  }

  lemma ScheduledEffect(env: Env, db: Db, db1: Db, iid: Id, mem: Instance, step: Step, def: Definition)
    requires Parked(step.typ) && db.nextId < db1.nextId
    requires db1.execs == db.execs[db.nextId := NewRow(db, iid, step, Running)] && db1.timers == db.timers && db1.passed == db.passed
    requires TasksBy(db.tasks, db1.tasks, iid, step, db.nextId, db1.execs)
    ensures var o := Scheduled(env, db1, iid, mem, db.nextId, step); o.Ok? ==> Effect(db, o.db, def, iid, step)
  {
    hide Schedule;
    ScheduleRows(env, db1, iid, db.nextId, step.boundaryEvents);
  }

  lemma ParkEffect(env: Env, db: Db, iid: Id, mem: Instance, mem1: Instance, step: Step, def: Definition)
    requires Parked(step.typ) && db.nextId in Enter(db, iid, mem, step).execs
    ensures var o := Route(env, 1, Enter(db, iid, mem, step), iid, mem1, step, db.nextId); o.Ok? ==> Effect(db, o.db, def, iid, step)
  {
    hide Scheduled, SetStatus, Dispatch, Fork, Effect, Enter;
    Entering(db, iid, mem, step);
    var db1 := Enter(db, iid, mem, step);
    match step.typ
    case ServiceTask =>
      var job := InsertJob(db1, iid, db.nextId, if step.jobType == "" then step.id else step.jobType, step.retryCount, mem1.vars);
      ScheduledEffect(env, db, job, iid, mem1, step, def);
    case UserTask =>
      var task := InsertTask(db1, iid, db.nextId, step.id);
      SideRows(task, iid);
      assert SameSides(task, SetStatus(task, iid, Waiting));
      ScheduledEffect(env, db, SetStatus(task, iid, Waiting), iid, mem1.(status := Waiting), step, def);
    case Wait =>
      SideRows(db1, iid);
      assert SameSides(db1, SetStatus(db1, iid, Waiting));
      ScheduledEffect(env, db, SetStatus(db1, iid, Waiting), iid, mem1.(status := Waiting), step, def);
  }

  lemma DoneEntered(db: Db, iid: Id, step: Step, id: string)
    requires db.nextId !in db.execs
    ensures Done(db.execs[db.nextId := NewRow(db, iid, step, Running)], iid, id) ==> Done(db.execs, iid, id)
  {
  }

  lemma LeafsMayPass(db: Db, iid: Id, mem: Instance, mem1: Instance, step: Step)
    requires db.nextId !in db.execs
    ensures var gw := GatewayFor(mem1.def, step.id);
            gw.Some? && |CompletedLeafs(Enter(db, iid, mem, step), iid, gw.value.parallelNextSteps)| >= |gw.value.parallelNextSteps| ==>
              MayPass(mem1.def, db.execs, iid, step.id)
  {
    hide GatewayFor, CompletedLeafs, Enter, Done, NoDup;
    Entering(db, iid, mem, step);
    var db1 := Enter(db, iid, mem, step);
    var gw := GatewayFor(mem1.def, step.id);
    if gw.Some? {
      var leafs := gw.value.parallelNextSteps;
      JoinTest(db1, iid, leafs);
      if |CompletedLeafs(db1, iid, leafs)| >= |leafs| {
        forall b | b in leafs ensures Done(db.execs, iid, b) {
          DoneEntered(db, iid, step, b);
        }
      }
    }
  }

  lemma JoinRows(db: Db, iid: Id, mem: Instance, step: Step, def: Definition)
    requires step.typ == JoinGateway && db.nextId in Enter(db, iid, mem, step).execs
    ensures var closed := SetExec(Enter(db, iid, mem, step), db.nextId, Succeeded);
            && Effect(db, closed, def, iid, step)
            && (MayPass(def, db.execs, iid, step.id) ==> Effect(db, PassJoin(closed, db.nextId), def, iid, step))
  {
    hide Enter, MayPass;
    Entering(db, iid, mem, step);
  }

  lemma JoinEffect(env: Env, db: Db, iid: Id, mem: Instance, mem1: Instance, step: Step)
    requires step.typ == JoinGateway && db.nextId !in db.execs && db.nextId in Enter(db, iid, mem, step).execs
    ensures PlanEffect(db, mem1.def, iid, step, PlanOf(env, Enter(db, iid, mem, step), iid, mem1, step, db.nextId))
  {
    hide Dispatch, GatewayFor, CompletedLeafs, Left, Enter, MayPass, Effect, SetExec;
    LeafsMayPass(db, iid, mem, mem1, step);
    JoinRows(db, iid, mem, step, mem1.def);
  }

  lemma EndEffect(env: Env, db: Db, iid: Id, mem: Instance, mem1: Instance, step: Step, def: Definition)
    requires step.typ == End && db.nextId in Enter(db, iid, mem, step).execs
    ensures var o := Route(env, 1, Enter(db, iid, mem, step), iid, mem1, step, db.nextId); o.Ok? ==> Effect(db, o.db, def, iid, step)
  {
    hide Enter, SetStatus, SetCurrent, ClosedAt, Effect, Left;
    Entering(db, iid, mem, step);
    var db1 := Enter(db, iid, mem, step);
    OneClosed(db1, db.nextId, Succeeded);
    var closed := SetExec(db1, db.nextId, Succeeded);
    var ids := Left(mem1, step).current;
    SideRows(closed, iid);
    SideRows(SetCurrent(closed, iid, ids), iid);
    var done := SetStatus(SetCurrent(closed, iid, ids), iid, Completed);
    assert SameSides(closed, SetCurrent(closed, iid, ids));
    assert SameSides(SetCurrent(closed, iid, ids), done);
    ClosingEffect(db, done, def, iid, step);
    var row := Chain(mem1.def.nextWorkflowId, mem1.vars, mem1.businessKey, None);
    ClosingEffect(db, InsertChain(done, iid, row), def, iid, step);
  }

  lemma PlanHasEffect(env: Env, db: Db, iid: Id, mem: Instance, step: Step)
    requires db.nextId !in db.execs && db.nextId in Enter(db, iid, mem, step).execs
    ensures PlanEffect(db, mem.def, iid, step, PlanOf(env, Enter(db, iid, mem, step), iid, Entered(mem, step), step, db.nextId))
  {
    hide TableOutcome, Transformations.Run, CompletedLeafs, Dispatch, Fork, Scheduled, FindStep, GatewayFor, Choose, Enter,
         Left, Effect, FailStep, SetRunning, SetExec, PatchVars, Route, SetStatus, InsertJob, InsertTask;
    var db1, mem1 := Enter(db, iid, mem, step), Entered(mem, step);
    if !Parked(step.typ) && step.typ != JoinGateway {
      FailEffect(db, iid, mem, step, mem.def, mem1);
      PassEffect(db, iid, mem, step, mem.def, map[]);
    }
    match step.typ
    case Transformation =>
      var r := Transformations.Run(step.transformations, env.eval, env.clockText(db1.now),
                                   env.order(db.nextId, 0, step.transformations.Keys), mem1.vars, map[]);
      PassEffect(db, iid, mem, step, mem.def, if r.Done? then r.delta else map[]);
    case DecisionTable =>
      var o := TableOutcome(env, db.nextId, db1.now, step, mem1.vars);
      PassEffect(db, iid, mem, step, mem.def, if o.Outputs? then o.row else map[]);
    case Decision =>
    case ParallelGateway =>
    case JoinGateway => JoinEffect(env, db, iid, mem, mem1, step);
    case End => EndEffect(env, db, iid, mem, mem1, step, mem.def);
    case Unsupported(_) => UnsupportedFails(env, db1, iid, mem1, step, db.nextId);
    case _ => ParkEffect(env, db, iid, mem, mem1, step, mem.def);
  }

  lemma UnsupportedFails(env: Env, db: Db, iid: Id, mem: Instance, step: Step, exec: Id)
    requires exec in db.execs && step.typ.Unsupported?
    ensures Route(env, 1, db, iid, mem, step, exec).Err?
  {
  }

  // ---- a join goes on only when every entry is complete ----

  lemma EffectEvolves(db: Db, db2: Db, def: Definition, iid: Id, step: Step)
    requires Effect(db, db2, def, iid, step) && Below(db.execs, db.nextId)
    ensures ExecsEvolve(db.execs, db2.execs) && Below(db2.execs, db2.nextId)
  {
    hide MayPass, TasksBy, TimersBy;
  }

  /** The join execution `e` went on rightly. */
  ghost predicate PassedAt(def: Definition, iid: Id, execs: Execs, e: Id) {
    e in execs && execs[e].inst == iid && MayPass(def, execs, iid, execs[e].stepId)
  }

  lemma DoneStays(a: Execs, b: Execs, iid: Id, id: string)
    requires ExecsEvolve(a, b) && Done(a, iid, id)
    ensures Done(b, iid, id)
  {
    var e :| e in a && a[e].inst == iid && a[e].stepId == id && a[e].status == Succeeded;
    assert b[e] == a[e];
  }

  lemma MayPassStays(a: Execs, b: Execs, def: Definition, iid: Id, join: string)
    requires ExecsEvolve(a, b) && MayPass(def, a, iid, join)
    ensures MayPass(def, b, iid, join)
  {
    hide GatewayFor, Done, ExecsEvolve;
    var gw := GatewayFor(def, join).value;
    forall x | x in gw.parallelNextSteps ensures Done(b, iid, x) {
      DoneStays(a, b, iid, x);
    }
  }

  lemma PassedStays(a: Execs, b: Execs, def: Definition, iid: Id, e: Id)
    requires ExecsEvolve(a, b) && PassedAt(def, iid, a, e)
    ensures PassedAt(def, iid, b, e)
  {
    hide MayPass;
    MayPassStays(a, b, def, iid, a[e].stepId);
  }

  /** Whatever was added to the join history between two states went on rightly. */
  ghost predicate Passes(db: Db, db2: Db, def: Definition, iid: Id) {
    && ExecsEvolve(db.execs, db2.execs) && Below(db2.execs, db2.nextId)
    && forall e :: e in db2.passed ==> e in db.passed || PassedAt(def, iid, db2.execs, e)
  }

  lemma PassesTransitive(a: Db, b: Db, c: Db, def: Definition, iid: Id)
    requires Passes(a, b, def, iid) && Passes(b, c, def, iid)
    ensures Passes(a, c, def, iid)
  {
    hide PassedAt, Below;
    EvolvesThrough(a.execs, b.execs, c.execs);
    forall e | e in c.passed ensures e in a.passed || PassedAt(def, iid, c.execs, e) {
      if e in b.passed && e !in a.passed {
        PassedStays(b.execs, c.execs, def, iid, e);
      }
    }
  }

  lemma EvolvesThrough(a: Execs, b: Execs, c: Execs)
    requires ExecsEvolve(a, b) && ExecsEvolve(b, c)
    ensures ExecsEvolve(a, c)
  {
  }

  lemma EffectPasses(db: Db, db2: Db, def: Definition, iid: Id, step: Step)
    requires Effect(db, db2, def, iid, step) && Below(db.execs, db.nextId)
    ensures Passes(db, db2, def, iid)
  {
    hide MayPass, TasksBy, TimersBy;
    EffectEvolves(db, db2, def, iid, step);
    if db2.passed != db.passed {
      hide ExecsEvolve;
      MayPassStays(db.execs, db2.execs, def, iid, step.id);
    }
  }

  lemma {:induction false} DispatchPasses(env: Env, n: nat, db: Db, iid: Id, mem: Instance, stepId: string)
    requires Below(db.execs, db.nextId)
    ensures var o := Dispatch(env, n, db, iid, mem, stepId); o.Ok? ==> Passes(db, o.db, mem.def, iid)
    decreases n, 1
  {
    hide Route, PlanOf, Enter, Handovers, Fork, Effect, Passes;
    if n > 0 && FindStep(mem.def, stepId).Some? {
      var step := FindStep(mem.def, stepId).value;
      EnterHasExec(db, iid, mem, step);
      var db1, mem1 := Enter(db, iid, mem, step), Entered(mem, step);
      RouteFollowsPlan(env, n, db1, iid, mem1, step, db.nextId);
      PlanHandsOver(env, db1, iid, mem1, step, db.nextId);
      PlanHasEffect(env, db, iid, mem, step);
      match PlanOf(env, db1, iid, mem1, step, db.nextId)
      case Stop(o) =>
        if o.Ok? {
          EffectPasses(db, o.db, mem.def, iid, step);
        }
      case Go(db2, mem2, next) =>
        EffectPasses(db, db2, mem.def, iid, step);
        EffectEvolves(db, db2, mem.def, iid, step);
        DispatchPasses(env, n - 1, db2, iid, mem2, next);
        var o := Dispatch(env, n - 1, db2, iid, mem2, next);
        if o.Ok? {
          PassesTransitive(db, db2, o.db, mem.def, iid);
        }
      case Split(db2, mem2, branches) =>
        EffectPasses(db, db2, mem.def, iid, step);
        EffectEvolves(db, db2, mem.def, iid, step);
        ForkPasses(env, n, db2, iid, mem2, branches);
        var o := Fork(env, n, db2, iid, mem2, branches);
        if o.Ok? {
          PassesTransitive(db, db2, o.db, mem.def, iid);
        }
    }
  }

  lemma {:induction false} ForkPasses(env: Env, n: nat, db: Db, iid: Id, mem: Instance, branches: seq<string>)
    requires n > 0 && Below(db.execs, db.nextId)
    ensures var o := Fork(env, n, db, iid, mem, branches); o.Ok? ==> Passes(db, o.db, mem.def, iid)
    decreases n, 0, |branches|
  {
    hide Dispatch, PassedAt;
    if branches != [] {
      DispatchPasses(env, n - 1, db, iid, mem, branches[0]);
      DispatchKeepsDef(env, n - 1, db, iid, mem, branches[0]);
      var o := Dispatch(env, n - 1, db, iid, mem, branches[0]);
      if o.Ok? {
        ForkPasses(env, n, o.db, iid, o.mem, branches[1..]);
        var o2 := Fork(env, n, o.db, iid, o.mem, branches[1..]);
        if o2.Ok? {
          PassesTransitive(db, o.db, o2.db, mem.def, iid);
        }
      }
    }
  }

  // ---- the first stage of a transaction ----

  /** Executions are only closed, and no join goes on. */
  ghost predicate FirstStage(db: Db, db1: Db) {
    ClosedExecs(db.execs, db1.execs) && db1.passed == db.passed && db.nextId <= db1.nextId
  }

  lemma StageReflexive(db: Db)
    ensures FirstStage(db, db)
  {
  }

  lemma StageRows(db0: Db, db: Db, db1: Db)
    requires FirstStage(db0, db) && db1.execs == db.execs && db1.passed == db.passed && db.nextId <= db1.nextId
    ensures FirstStage(db0, db1)
  {
  }

  lemma StageRunning(db0: Db, db: Db, iid: Id, stepId: string, status: ExecStatus)
    requires FirstStage(db0, db) && status != Running
    ensures FirstStage(db0, SetRunning(db, iid, stepId, status))
  {
    RunningClosed(db, iid, stepId, status);
    ClosedThrough(db0.execs, db.execs, SetRunning(db, iid, stepId, status).execs);
  }

  lemma ClosedThrough(a: Execs, b: Execs, c: Execs)
    requires ClosedExecs(a, b) && ClosedExecs(b, c)
    ensures ClosedExecs(a, c)
  {
  }

  ghost predicate StagedBody(db: Db, body: Body) {
    match body
    case Settle(r) => r.Commit? ==> FirstStage(db, r.db)
    case Launch(db1, _, _, _, _) => FirstStage(db, db1)
  }

  lemma AdvanceStaged(env: Env, db0: Db, db: Db, iid: Id, mem: Instance, step: Step)
    requires FirstStage(db0, db)
    ensures StagedBody(db0, AdvanceBody(env, db, iid, mem, step))
  {
    hide FirstStage, SetStatus, SetCurrent, SetRunning, WithoutStep, Recomputed, Choose;
    var mem1, db1 := Leaving(mem, step), Departed(db, iid, mem, step);
    SideRows(db, iid);
    SideRows(SetCurrent(db, iid, mem1.current), iid);
    assert SameSides(db, SetCurrent(db, iid, mem1.current));
    assert SameSides(SetCurrent(db, iid, mem1.current), db1);
    StageRows(db0, db, db1);
    StageRunning(db0, db1, iid, step.id, Faulted);
    var failed := SetRunning(db1, iid, step.id, Faulted);
    SideRows(failed, iid);
    assert SameSides(failed, SetStatus(failed, iid, Failed));
    StageRows(db0, failed, SetStatus(failed, iid, Failed));
  }

  lemma AcceptedRunning(db: Db, j: Id, worker: string)
    requires Accepts(db, j, worker)
    ensures j in db.jobs && db.jobs[j].exec in db.execs && db.execs[db.jobs[j].exec].status == Running
  {
  }

  lemma CallbackStaged(db: Db, j: Id, worker: string, output: Vars)
    requires Accepts(db, j, worker)
    ensures j in db.jobs && db.jobs[j].exec in db.execs
    ensures var e, iid := db.jobs[j].exec, db.jobs[j].inst;
            && FirstStage(db, Closed(db, j, worker)) && FirstStage(db, Merged(Closed(db, j, worker), iid, e, output))
            && FirstStage(db, SetStatus(SetExec(CancelJobs(db, e), e, Faulted), iid, Failed))
            && FirstStage(db, SetStatus(SetExec(SetJob(db, j, db.jobs[j].(status := JobFailed, worker := worker)), e, Faulted), iid, Failed))
  {
    AcceptedRunning(db, j, worker);
  }

  lemma CompleteStaged(env: Env, db: Db, j: Id, worker: string, output: Vars)
    ensures StagedBody(db, CompleteBody(env, db, j, worker, output))
  {
    hide FirstStage, FindStep, AdvanceBody, Accepts, SetStatus, SetExec, CancelJobs, Closed;
    StageReflexive(db);
    if LockJob(db, j).Some? && Accepts(db, j, worker) {
      CallbackStaged(db, j, worker, output);
      var e, iid := db.jobs[j].exec, db.jobs[j].inst;
      var found := FindStep(db.instances[iid].def, db.execs[e].stepId);
      if found.Some? {
        MergedHasRow(db, j, worker, output);
        var db1 := Merged(Closed(db, j, worker), iid, e, output);
        AdvanceStaged(env, db, db1, iid, db1.instances[iid], found.value);
      }
    }
  }

  lemma FireStaged(db: Db, t: Id, iid: Id)
    ensures StagedBody(db, FireBody(db, t, iid))
  {
    hide WithoutStep, CancelTasks, CancelJobs;
    if t in db.timers && db.timers[t].exec in db.execs && db.execs[db.timers[t].exec].status == Running {
      var db1 := db.(timers := db.timers[t := db.timers[t].(fired := true)]);
      InterruptedStage(db, db1, db.timers[t].exec);
    }
  }

  lemma InterruptedStage(db: Db, db1: Db, exec: Id)
    requires FirstStage(db, db1) && exec in db1.execs && db1.execs[exec].status == Running
    ensures FirstStage(db, Interrupted(db1, exec))
  {
  }

  lemma UserTaskStaged(env: Env, db: Db, iid: Id, stepId: string, vars: Vars)
    ensures StagedBody(db, UserTaskBody(env, db, iid, stepId, vars))
  {
    hide FirstStage, FindStep, AdvanceBody, OpenTasks, SetRunning, PatchVars;
    ResumedStage(db, iid, stepId, vars);
    if iid in db.instances && FindStep(db.instances[iid].def, stepId).Some? {
      var row := db.instances[iid];
      AdvanceStaged(env, db, PatchVars(SetRunning(CompleteTasks(db, iid, stepId), iid, stepId, Succeeded), iid, vars), iid,
                    row.(vars := row.vars + vars), FindStep(row.def, stepId).value);
    }
  }

  lemma SignalStaged(env: Env, db: Db, iid: Id, stepId: string, vars: Vars)
    ensures StagedBody(db, SignalBody(env, db, iid, stepId, vars))
  {
    hide FirstStage, FindStep, AdvanceBody, RunningOf, SetRunning, PatchVars;
    ResumedStage(db, iid, stepId, vars);
    if iid in db.instances && FindStep(db.instances[iid].def, stepId).Some? {
      var row := db.instances[iid];
      AdvanceStaged(env, db, PatchVars(SetRunning(db, iid, stepId, Succeeded), iid, vars), iid,
                    row.(vars := row.vars + vars), FindStep(row.def, stepId).value);
    }
  }

  lemma ResumedStage(db: Db, iid: Id, stepId: string, vars: Vars)
    ensures FirstStage(db, PatchVars(SetRunning(CompleteTasks(db, iid, stepId), iid, stepId, Succeeded), iid, vars))
    ensures FirstStage(db, PatchVars(SetRunning(db, iid, stepId, Succeeded), iid, vars))
  {
    hide FirstStage, SetRunning, PatchVars;
    StageReflexive(db);
    StageRows(db, db, CompleteTasks(db, iid, stepId));
    StageRunning(db, CompleteTasks(db, iid, stepId), iid, stepId, Succeeded);
    StageRunning(db, db, iid, stepId, Succeeded);
    var a, b := SetRunning(CompleteTasks(db, iid, stepId), iid, stepId, Succeeded), SetRunning(db, iid, stepId, Succeeded);
    SideRows(a, iid);
    SideRows(b, iid);
    assert SameSides(a, PatchVars(a, iid, vars)) && SameSides(b, PatchVars(b, iid, vars));
    StageRows(db, a, PatchVars(a, iid, vars));
    StageRows(db, b, PatchVars(b, iid, vars));
  }

  lemma RetryStepStaged(db: Db, iid: Id, stepId: string, patch: Vars)
    ensures StagedBody(db, RetryStepBody(db, iid, stepId, patch))
  {
    hide FindStep, IsLatestExec, KeyTaken;
  }

  lemma JobEventStaged(env: Env, db: Db, ev: Event)
    requires IsSideline(ev) || ev.EvCompleteLegacy? || ev.EvFail?
    ensures StagedBody(db, Settle(Next(env, 0, db, ev)))
  {
    hide Accepts, Closed, SetExec, FirstStage;
    StageReflexive(db);
    match ev
    case EvCompleteLegacy(j, worker) =>
      if Accepts(db, j, worker) {
        CallbackStaged(db, j, worker, map[]);
      }
    case EvFail(j, worker, retryable) =>
      if Accepts(db, j, worker) {
        CallbackStaged(db, j, worker, map[]);
        var db1 := SetJob(db, j, db.jobs[j].(status := JobFailed, worker := worker));
        StageRows(db, db, Replacement(db1, db.jobs[j], db.jobs[j].retries - 1));
      }
    case _ => RowsStaged(env, db, ev);
  }

  lemma RowsStaged(env: Env, db: Db, ev: Event)
    requires IsSideline(ev)
    ensures StagedBody(db, Settle(Next(env, 0, db, ev)))
  {
    hide Next;
    SidelineEvents(env, db, ev);
    var r := Next(env, 0, db, ev);
    if r.Commit? {
      StageReflexive(db);
      StageRows(db, db, r.db);
    }
  }

  lemma BodyStaged(env: Env, db: Db, ev: Event)
    ensures StagedBody(db, BodyOf(env, db, ev))
  {
    hide CompleteBody, FireBody, UserTaskBody, SignalBody, RetryStepBody, Next, KeyTaken, Startable;
    match ev
    case EvComplete(j, worker, vars) => CompleteStaged(env, db, j, worker, vars);
    case EvFire(t, iid) => FireStaged(db, t, iid);
    case EvUserTask(iid, stepId, vars) => UserTaskStaged(env, db, iid, stepId, vars);
    case EvSignal(iid, stepId, vars) => SignalStaged(env, db, iid, stepId, vars);
    case EvRetryStep(iid, stepId, vars) => RetryStepStaged(db, iid, stepId, vars);
    case EvStart(def, vars, key) =>
    case EvChain(source, def) =>
    case _ => JobEventStaged(env, db, ev);
  }

  // ---- every run: a join goes on only when every entry is complete ----

  ghost predicate PassedOk(instances: Instances, execs: Execs, passed: set<Id>) {
    forall e :: e in passed ==> e in execs && execs[e].inst in instances && PassedAt(instances[execs[e].inst].def, execs[e].inst, execs, e)
  }

  lemma PassedKept(db: Db, db': Db, e: Id)
    requires Evolves(db, db') && PassedOk(db.instances, db.execs, db.passed) && e in db.passed
    ensures e in db'.execs && db'.execs[e].inst in db'.instances
    ensures PassedAt(db'.instances[db'.execs[e].inst].def, db'.execs[e].inst, db'.execs, e)
  {
    hide PassedAt, JobsEvolve, ChainsEvolve;
    PassedStays(db.execs, db'.execs, db.instances[db.execs[e].inst].def, db.execs[e].inst, e);
  }

  lemma BelowStaged(db: Db, db1: Db)
    requires Inv(db) && FirstStage(db, db1)
    ensures Below(db1.execs, db1.nextId)
  {
    hide Typed, Attempts, Budget, Chained, MergedOnce, Currents, Requested, KeysDistinct, JobRefs, TaskRefs, TimerRefs, ChainRefs;
  }

  lemma NextPassedOk(env: Env, depth: nat, db: Db, ev: Event)
    requires Inv(db) && PassedOk(db.instances, db.execs, db.passed)
    ensures var r := Next(env, depth, db, ev); r.Commit? ==> PassedOk(r.db.instances, r.db.execs, r.db.passed)
  {
    hide Inv, Next, BodyOf, Dispatch, Evolves, Acknowledged, FirstStage, Resolution.Resolved, Resolution.DefsFrom, Resolution.TimersFrom,
         Resolution.BringsResolvable, Below, Definitions.FindStep, Resolution.Resolvable;
    var r := Next(env, depth, db, ev);
    if r.Commit? {
      NextKept(env, depth, db, ev);
      NextPerforms(env, depth, db, ev);
      BodyStaged(env, db, ev);
      Resolution.BodyTidy(env, db, ev);
      forall e | e in r.db.passed
        ensures e in r.db.execs && r.db.execs[e].inst in r.db.instances
                && PassedAt(r.db.instances[r.db.execs[e].inst].def, r.db.execs[e].inst, r.db.execs, e)
      {
        if e in db.passed {
          PassedKept(db, r.db, e);
        } else {
          NewlyPassed(env, depth, db, BodyOf(env, db, ev), r.db, e);
        }
      }
    }
  }

  lemma NewlyPassed(env: Env, depth: nat, db: Db, body: Body, db': Db, e: Id)
    requires Inv(db) && StagedBody(db, body) && Perform(env, depth, body) == Commit(db') && e in db'.passed && e !in db.passed
    requires body.Launch? ==> body.iid in body.db.instances && body.mem.def == body.db.instances[body.iid].def
    ensures e in db'.execs && db'.execs[e].inst in db'.instances
    ensures PassedAt(db'.instances[db'.execs[e].inst].def, db'.execs[e].inst, db'.execs, e)
  {
    hide Inv, Dispatch, MayPass, Below, ClosedExecs;
    if body.Launch? {
      BelowStaged(db, body.db);
      DispatchPasses(env, depth, body.db, body.iid, body.mem, body.stepId);
      Resolution.DispatchSameDefs(env, depth, body.db, body.iid, body.mem, body.stepId);
    }
  }

  lemma {:induction false} RunPassedOk(env: Env, states: seq<Db>, events: seq<Event>, i: nat)
    requires IsRun(env, states, events) && i < |states|
    ensures PassedOk(states[i].instances, states[i].execs, states[i].passed)
  {
    hide Inv, Next, PassedAt;
    if i > 0 {
      RunPassedOk(env, states, events, i - 1);
      EngineTheorems.RunInv(env, states, events, i - 1);
      if states[i] != states[i - 1] {
        var depth :| Next(env, depth, states[i - 1], events[i - 1]) == Commit(states[i]);
        NextPassedOk(env, depth, states[i - 1], events[i - 1]);
      }
    }
  }

  /**
   In every run, for every definition: a join execution that went on belongs to a gateway whose
   entries are distinct, and each entry has a COMPLETED execution in that instance.
   */
  lemma JoinSeesAllBranches(env: Env, states: seq<Db>, events: seq<Event>, i: nat, e: Id)
    requires IsRun(env, states, events) && i < |states| && e in states[i].passed
    ensures var db := states[i];
            && e in db.execs && db.execs[e].inst in db.instances
            && var gw := GatewayFor(db.instances[db.execs[e].inst].def, db.execs[e].stepId);
               && gw.Some? && NoDup(gw.value.parallelNextSteps)
               && forall b :: b in gw.value.parallelNextSteps ==> Done(db.execs, db.execs[e].inst, b)
  {
    hide IsRun, Done, GatewayFor, NoDup;
    RunPassedOk(env, states, events, i);
  }
}
