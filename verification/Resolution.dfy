/**
 Which definitions and steps a run can meet. Instances keep the definition they were started
 with, and timers keep the target their boundary event named; so when every reference a handler
 follows is declared, no transaction of any run dispatches an undeclared step.
 */
module Resolution {
  import opened Values
  import opened Definitions
  import opened Database
  import opened Interpreter
  import opened Transactions
  import opened Invariants
  import opened Evolution
  import opened Plans
  import EngineTheorems
  import EventProofs
  import Termination
  import Transformations

  // ---- references ----

  /** Where advancePastStep continues once a parked step is finished. */
  function Followers(step: Step): seq<string> {
    if step.branches != [] then Targets(step.branches) else if step.nextStep != "" then [step.nextStep] else []
  }

  predicate StepResolves(def: Definition, step: Step) {
    && (forall id :: id in Handovers(step) ==> Declared(def, id))
    && (Parked(step.typ) ==> forall id :: id in Followers(step) ==> Declared(def, id))
    && (forall b :: b in step.boundaryEvents ==> Declared(def, b.target))
  }

  predicate Resolvable(def: Definition) {
    forall s :: s in def.steps ==> StepResolves(def, s)
  }

  // ---- one dispatch ----

  ghost predicate SameDefs(a: Instances, b: Instances) {
    a.Keys == b.Keys && forall i :: i in a ==> b[i].def == a[i].def
  }

  /** Timers are old ones, or point into the definition of `iid`. */
  ghost predicate TimersWithin(a: map<Id, Timer>, b: map<Id, Timer>, iid: Id, def: Definition) {
    forall t :: t in b ==> (t in a && b[t] == a[t]) || (b[t].inst == iid && Declared(def, b[t].target))
  }

  ghost predicate Tidy(db: Db, iid: Id, def: Definition, o: Outcome) {
    && (o.Ok? ==> SameDefs(db.instances, o.db.instances))
    && (Resolvable(def) ==> !(o.Err? && o.error.StepNotFound?))
    && (Resolvable(def) && o.Ok? ==> TimersWithin(db.timers, o.db.timers, iid, def))
  }

  lemma {:induction false} ScheduleTidy(env: Env, db: Db, iid: Id, exec: Id, events: seq<BoundaryEvent>, def: Definition)
    requires Resolvable(def) ==> forall b :: b in events ==> Declared(def, b.target)
    ensures var s := Schedule(env, db, iid, exec, events);
            && (s.Some? ==> s.value.instances == db.instances)
            && (s.Some? && Resolvable(def) ==> TimersWithin(db.timers, s.value.timers, iid, def))
    decreases |events|
  {
    hide FindStep, Resolvable;
    if events != [] {
      assert events[0] in events;
      if events[0].kind != "TIMER" {
        ScheduleTidy(env, db, iid, exec, events[1..], def);
      } else {
        var d := env.duration(events[0].duration);
        if d.Some? {
          var row := Timer(iid, exec, events[0].target, db.now + d.value, events[0].interrupting, false);
          ScheduleTidy(env, InsertTimer(db, row), iid, exec, events[1..], def);
        }
      }
    }
  }

  /** What the first stage of a handler does to definitions and timers. */
  ghost predicate TidyPlan(db: Db, iid: Id, def: Definition, plan: Plan) {
    match plan
    case Stop(o) => Tidy(db, iid, def, o)
    case Go(db1, _, _) => Quiet(db, db1)
    case Split(db1, _, _) => Quiet(db, db1)
  }

  ghost predicate Quiet(db: Db, db1: Db) {
    db1.now == db.now && SameDefs(db.instances, db1.instances) && db1.timers == db.timers
  }

  lemma QuietStatus(db0: Db, db: Db, iid: Id, status: InstanceStatus)
    requires Quiet(db0, db)
    ensures Quiet(db0, SetStatus(db, iid, status))
  {
  }

  lemma QuietVars(db0: Db, db: Db, iid: Id, patch: Vars)
    requires Quiet(db0, db)
    ensures Quiet(db0, PatchVars(db, iid, patch))
  {
  }

  lemma QuietCurrent(db0: Db, db: Db, iid: Id, ids: seq<string>)
    requires Quiet(db0, db)
    ensures Quiet(db0, SetCurrent(db, iid, ids))
  {
  }

  lemma QuietRows(db0: Db, db: Db, db1: Db)
    requires Quiet(db0, db) && db1.now == db.now && db1.instances == db.instances && db1.timers == db.timers
    ensures Quiet(db0, db1)
  {
  }

  lemma ScheduledTidy(env: Env, db: Db, db1: Db, iid: Id, mem: Instance, exec: Id, step: Step, def: Definition)
    requires step in def.steps && Quiet(db, db1)
    ensures Tidy(db, iid, def, Scheduled(env, db1, iid, mem, exec, step))
  {
    hide FindStep, Schedule;
    assert Resolvable(def) ==> StepResolves(def, step);
    ScheduleTidy(env, db1, iid, exec, step.boundaryEvents, def);
  }

  lemma QuietTidy(db: Db, db1: Db, iid: Id, def: Definition, mem: Instance)
    requires Quiet(db, db1)
    ensures Tidy(db, iid, def, Ok(db1, mem))
  {
  }

  lemma FailTidy(db: Db, iid: Id, mem: Instance, stepId: string, def: Definition)
    ensures Tidy(db, iid, def, FailStep(db, iid, mem, stepId))
  {
    hide FindStep;
    QuietRows(db, db, SetRunning(db, iid, stepId, Faulted));
    QuietStatus(db, SetRunning(db, iid, stepId, Faulted), iid, Failed);
    hide *;
    QuietTidy(db, SetStatus(SetRunning(db, iid, stepId, Faulted), iid, Failed), iid, def, mem.(status := Failed));
    assert FailStep(db, iid, mem, stepId) == Ok(SetStatus(SetRunning(db, iid, stepId, Faulted), iid, Failed), mem.(status := Failed)) by {
      FailStepIs(db, iid, mem, stepId);
    }
  }

  lemma FailStepIs(db: Db, iid: Id, mem: Instance, stepId: string)
    ensures FailStep(db, iid, mem, stepId) == Ok(SetStatus(SetRunning(db, iid, stepId, Faulted), iid, Failed), mem.(status := Failed))
  {
  }

  lemma PassTidy(db: Db, iid: Id, patch: Vars, stepId: string, exec: Id)
    requires exec in db.execs
    ensures Quiet(db, SetRunning(db, iid, stepId, Succeeded)) && Quiet(db, PassJoin(SetExec(db, exec, Succeeded), exec))
    ensures Quiet(db, SetExec(PatchVars(db, iid, patch), exec, Succeeded))
    ensures Quiet(db, SetRunning(PatchVars(db, iid, patch), iid, stepId, Succeeded))
  {
    QuietVars(db, db, iid, patch);
    hide SameDefs;
    QuietRows(db, db, SetRunning(db, iid, stepId, Succeeded));
  }

  lemma EndTidy(env: Env, db: Db, iid: Id, mem: Instance, step: Step, exec: Id, def: Definition)
    requires exec in db.execs && step.typ == End
    ensures Tidy(db, iid, def, Route(env, 1, db, iid, mem, step, exec))
  {
    hide FindStep, SameDefs, SetStatus, SetCurrent, TimersWithin, Tidy, WithoutStep;
    var out := Left(mem, step).(status := Completed);
    var closed := SetExec(db, exec, Succeeded);
    assert Quiet(db, closed) by { DefsReflexive(db.instances); }
    QuietCurrent(db, closed, iid, out.current);
    QuietStatus(db, SetCurrent(closed, iid, out.current), iid, Completed);
    var done := SetStatus(SetCurrent(closed, iid, out.current), iid, Completed);
    var chain := InsertChain(done, iid, Chain(mem.def.nextWorkflowId, mem.vars, mem.businessKey, None));
    QuietRows(db, done, chain);
    QuietTidy(db, done, iid, def, out);
    QuietTidy(db, chain, iid, def, out);
  }

  lemma PlanTidy(env: Env, db: Db, iid: Id, mem: Instance, step: Step, exec: Id)
    requires exec in db.execs && step in mem.def.steps
    ensures TidyPlan(db, iid, mem.def, PlanOf(env, db, iid, mem, step, exec))
  {
    hide TableOutcome, Transformations.Run, CompletedLeafs, Dispatch, Fork, Scheduled, FindStep, StepResolves, GatewayFor, Choose,
         Left, Tidy, Quiet, FailStep, SetRunning, SetExec, PatchVars, Route, SetStatus, InsertJob, InsertTask;
    FailTidy(db, iid, mem, step.id, mem.def);
    PassTidy(db, iid, map[], step.id, exec);
    match step.typ
    case Transformation =>
      var r := Transformations.Run(step.transformations, env.eval, env.clockText(db.now),
                                   env.order(exec, 0, step.transformations.Keys), mem.vars, map[]);
      PassTidy(db, iid, if r.Done? then r.delta else map[], step.id, exec);
    case DecisionTable =>
      var o := TableOutcome(env, exec, db.now, step, mem.vars);
      PassTidy(db, iid, if o.Outputs? then o.row else map[], step.id, exec);
    case Decision =>
    case ParallelGateway =>
    case JoinGateway => JoinTidy(env, db, iid, mem, step, exec, mem.def);
    case End => EndTidy(env, db, iid, mem, step, exec, mem.def);
    case Unsupported(_) => UnsupportedTidy(env, db, iid, mem, step, exec, mem.def);
    case _ => ParkTidy(env, db, iid, mem, step, exec);
  }

  lemma JoinTidy(env: Env, db: Db, iid: Id, mem: Instance, step: Step, exec: Id, def: Definition)
    requires exec in db.execs && step.typ == JoinGateway
    ensures var gateway := GatewayFor(mem.def, step.id);
            gateway.None? || |CompletedLeafs(db, iid, gateway.value.parallelNextSteps)| < |gateway.value.parallelNextSteps| ==>
              Tidy(db, iid, def, Route(env, 1, db, iid, mem, step, exec))
  {
    hide FindStep, CompletedLeafs, GatewayFor, TimersWithin, SameDefs;
    SameTimers(db.timers, iid, def);
    DefsReflexive(db.instances);
  }

  lemma UnsupportedTidy(env: Env, db: Db, iid: Id, mem: Instance, step: Step, exec: Id, def: Definition)
    requires exec in db.execs && step.typ.Unsupported?
    ensures Tidy(db, iid, def, Route(env, 1, db, iid, mem, step, exec))
  {
  }

  lemma SameTimers(a: map<Id, Timer>, iid: Id, def: Definition)
    ensures TimersWithin(a, a, iid, def)
  {
  }

  lemma ParkTidy(env: Env, db: Db, iid: Id, mem: Instance, step: Step, exec: Id)
    requires exec in db.execs && step in mem.def.steps && Parked(step.typ)
    ensures Tidy(db, iid, mem.def, Route(env, 1, db, iid, mem, step, exec))
  {
    hide Scheduled, FindStep, StepResolves, Tidy, SameDefs, SetStatus, Fork, Dispatch, Quiet;
    var job := InsertJob(db, iid, exec, if step.jobType == "" then step.id else step.jobType, step.retryCount, mem.vars);
    var task := InsertTask(db, iid, exec, step.id);
    var waiting := mem.(status := Waiting);
    QuietReflexive(db);
    match step.typ
    case ServiceTask =>
      QuietRows(db, db, job);
      ScheduledTidy(env, db, job, iid, mem, exec, step, mem.def);
    case UserTask =>
      QuietRows(db, db, task);
      QuietStatus(db, task, iid, Waiting);
      ScheduledTidy(env, db, SetStatus(task, iid, Waiting), iid, waiting, exec, step, mem.def);
    case Wait =>
      QuietStatus(db, db, iid, Waiting);
      ScheduledTidy(env, db, SetStatus(db, iid, Waiting), iid, waiting, exec, step, mem.def);
  }

  lemma QuietReflexive(db: Db)
    ensures Quiet(db, db)
  {
  }

  lemma TidyAfter(db: Db, mid: Db, iid: Id, def: Definition, o: Outcome)
    requires Tidy(mid, iid, def, o)
    requires Quiet(db, mid) || (SameDefs(db.instances, mid.instances) && (Resolvable(def) ==> TimersWithin(db.timers, mid.timers, iid, def)))
    ensures Tidy(db, iid, def, o)
  {
    hide FindStep;
  }

  lemma EnterTidy(db: Db, iid: Id, mem: Instance, step: Step)
    ensures Quiet(db, Enter(db, iid, mem, step))
  {
  }

  lemma {:induction false} DispatchTidy(env: Env, n: nat, db: Db, iid: Id, mem: Instance, stepId: string)
    requires Resolvable(mem.def) ==> Declared(mem.def, stepId)
    ensures Tidy(db, iid, mem.def, Dispatch(env, n, db, iid, mem, stepId))
    decreases n, 1
  {
    hide Route, PlanOf, Enter, Handovers, Fork, Tidy, Quiet, StepResolves;
    if n > 0 && FindStep(mem.def, stepId).Some? {
      var step := FindStep(mem.def, stepId).value;
      EnterHasExec(db, iid, mem, step);
      EnterTidy(db, iid, mem, step);
      var db1, mem1 := Enter(db, iid, mem, step), Entered(mem, step);
      RouteFollowsPlan(env, n, db1, iid, mem1, step, db.nextId);
      PlanHandsOver(env, db1, iid, mem1, step, db.nextId);
      PlanTidy(env, db1, iid, mem1, step, db.nextId);
      if Resolvable(mem.def) {
        HandoversDeclared(mem.def, step);
      }
      match PlanOf(env, db1, iid, mem1, step, db.nextId) {
        case Stop(_) =>
        case Go(db2, mem2, next) =>
          DispatchTidy(env, n - 1, db2, iid, mem2, next);
          TidyAfter(db1, db2, iid, mem.def, Dispatch(env, n - 1, db2, iid, mem2, next));
        case Split(db2, mem2, branches) =>
          ForkTidy(env, n, db2, iid, mem2, branches);
          TidyAfter(db1, db2, iid, mem.def, Fork(env, n, db2, iid, mem2, branches));
      }
      TidyAfter(db, db1, iid, mem.def, Dispatch(env, n, db, iid, mem, stepId));
    } else {
      NothingTidy(db, iid, mem.def, stepId);
    }
  }

  lemma NothingTidy(db: Db, iid: Id, def: Definition, stepId: string)
    ensures Tidy(db, iid, def, Diverged)
    ensures !Resolvable(def) ==> Tidy(db, iid, def, Err(StepNotFound(stepId)))
  {
  }

  lemma HandoversDeclared(def: Definition, step: Step)
    requires Resolvable(def) && step in def.steps
    ensures forall id :: id in Handovers(step) ==> Declared(def, id)
  {
    hide FindStep, Handovers;
  }

  lemma {:induction false} ForkTidy(env: Env, n: nat, db: Db, iid: Id, mem: Instance, branches: seq<string>)
    requires n > 0 && (Resolvable(mem.def) ==> forall b :: b in branches ==> Declared(mem.def, b))
    ensures Tidy(db, iid, mem.def, Fork(env, n, db, iid, mem, branches))
    decreases n, 0, |branches|
  {
    hide Dispatch, Resolvable, FindStep, TimersWithin, SameDefs;
    if branches == [] {
      SameTimers(db.timers, iid, mem.def);
      assert SameDefs(db.instances, db.instances) by { DefsReflexive(db.instances); }
    } else {
      assert branches[0] in branches;
      DispatchTidy(env, n - 1, db, iid, mem, branches[0]);
      DispatchKeepsDef(env, n - 1, db, iid, mem, branches[0]);
      var o := Dispatch(env, n - 1, db, iid, mem, branches[0]);
      if o.Ok? {
        ForkTidy(env, n, o.db, iid, o.mem, branches[1..]);
        TidyAfter(db, o.db, iid, mem.def, Fork(env, n, o.db, iid, o.mem, branches[1..]));
      }
    }
  }

  lemma DefsReflexive(a: Instances)
    ensures SameDefs(a, a)
  {
  }

  // ---- one transaction ----

  ghost predicate Brings(ev: Event, def: Definition) {
    (ev.EvStart? && ev.def == def) || (ev.EvChain? && ev.def == def)
  }

  /** Every definition was there before, or arrives with the event. */
  ghost predicate DefsFrom(a: Instances, b: Instances, ev: Event) {
    forall i :: i in b ==> (i in a && b[i].def == a[i].def) || Brings(ev, b[i].def)
  }

  /** No timer appears; one that is due may be consumed. */
  ghost predicate TimersFrom(now: int, a: map<Id, Timer>, b: map<Id, Timer>) {
    forall t :: t in b ==>
      t in a && b[t] == a[t].(fired := b[t].fired) && (a[t].fired ==> b[t].fired) && (b[t].fired && !a[t].fired ==> a[t].fireAt <= now)
  }

  /** All definitions of running instances resolve, and so do the targets of their timers. */
  ghost predicate Resolved(instances: Instances, timers: map<Id, Timer>) {
    && (forall i :: i in instances ==> Resolvable(instances[i].def))
    && (forall t :: t in timers ==> timers[t].inst in instances && Declared(instances[timers[t].inst].def, timers[t].target))
  }

  ghost predicate BringsResolvable(ev: Event) {
    forall d :: Brings(ev, d) ==> Resolvable(d)
  }

  /** What the first stage of a transaction does to definitions and timers. */
  ghost predicate TidyBody(db: Db, ev: Event, body: Body) {
    match body
    case Settle(r) =>
      && !r.Aborted? && !r.Endless?
      && (r.Commit? ==> DefsFrom(db.instances, r.db.instances, ev) && TimersFrom(db.now, db.timers, r.db.timers))
    case Launch(db1, iid, mem, stepId, _) =>
      && db1.now == db.now && DefsFrom(db.instances, db1.instances, ev) && TimersFrom(db.now, db.timers, db1.timers)
      && iid in db1.instances && mem.def == db1.instances[iid].def
      && (Resolved(db.instances, db.timers) && BringsResolvable(ev) ==> Resolvable(mem.def) && Declared(mem.def, stepId))
  }

  lemma QuietFrom(db: Db, db1: Db, ev: Event)
    requires Quiet(db, db1)
    ensures db1.now == db.now && DefsFrom(db.instances, db1.instances, ev) && TimersFrom(db.now, db.timers, db1.timers)
  {
    hide Brings;
  }

  lemma FollowersDeclared(def: Definition, step: Step, id: string)
    requires Resolvable(def) && step in def.steps && Parked(step.typ) && id in Followers(step)
    ensures Declared(def, id)
  {
    hide FindStep, Followers, Handovers;
    assert StepResolves(def, step);
  }

  lemma DepartedRows(db0: Db, db: Db, iid: Id, mem: Instance, step: Step)
    requires Quiet(db0, db)
    ensures Quiet(db0, Departed(db, iid, mem, step))
    ensures Quiet(db0, SetStatus(SetRunning(Departed(db, iid, mem, step), iid, step.id, Faulted), iid, Failed))
  {
    hide Quiet, WithoutStep, Recomputed, SetStatus, SetCurrent, SetRunning;
    var mem1, db1 := Leaving(mem, step), Departed(db, iid, mem, step);
    QuietCurrent(db0, db, iid, mem1.current);
    QuietStatus(db0, SetCurrent(db, iid, mem1.current), iid, mem1.status);
    var failed := SetRunning(db1, iid, step.id, Faulted);
    RunningRows(db1, iid, step.id, Faulted);
    QuietRows(db0, db1, failed);
    QuietStatus(db0, failed, iid, Failed);
  }

  lemma AdvanceTargets(env: Env, mem: Instance, step: Step)
    requires step in mem.def.steps && Parked(step.typ) && Resolvable(mem.def)
    ensures step.branches != [] ==> var c := Choose(env.eval, step.branches, mem.vars); c.Take? ==> Declared(mem.def, c.target)
    ensures step.branches == [] && step.nextStep != "" ==> Declared(mem.def, step.nextStep)
  {
    hide FindStep, Resolvable, Choose, Followers, Handovers;
    var c := Choose(env.eval, step.branches, mem.vars);
    if step.branches != [] && c.Take? {
      ChosenFollows(env, step, mem.vars);
      FollowersDeclared(mem.def, step, c.target);
    } else if step.branches == [] && step.nextStep != "" {
      NextFollows(step);
      FollowersDeclared(mem.def, step, step.nextStep);
    }
  }

  lemma ResolvedDef(instances: Instances, timers: map<Id, Timer>, iid: Id)
    requires iid in instances && Resolved(instances, timers)
    ensures Resolvable(instances[iid].def)
  {
    hide Resolvable, FindStep;
  }

  lemma QuietRow(db0: Db, db: Db, iid: Id)
    requires Quiet(db0, db) && iid in db0.instances
    ensures iid in db.instances && db.instances[iid].def == db0.instances[iid].def
  {
  }

  lemma AdvanceTidy(env: Env, db0: Db, db: Db, iid: Id, mem: Instance, step: Step, ev: Event)
    requires Quiet(db0, db) && iid in db0.instances && mem.def == db0.instances[iid].def
    requires step in mem.def.steps && Parked(step.typ)
    ensures TidyBody(db0, ev, AdvanceBody(env, db, iid, mem, step))
  {
    hide FindStep, Resolvable, Choose, DefsFrom, TimersFrom, Departed, Quiet, Resolved, BringsResolvable, SetRunning, SetStatus, WithoutStep,
         Recomputed;
    var db1 := Departed(db, iid, mem, step);
    DepartedRows(db0, db, iid, mem, step);
    QuietFrom(db0, db1, ev);
    QuietFrom(db0, SetStatus(SetRunning(db1, iid, step.id, Faulted), iid, Failed), ev);
    QuietRow(db0, db1, iid);
    if Resolved(db0.instances, db0.timers) {
      ResolvedDef(db0.instances, db0.timers, iid);
      AdvanceTargets(env, mem, step);
    }
  }

  lemma RunningRows(db: Db, iid: Id, stepId: string, status: ExecStatus)
    ensures var d := SetRunning(db, iid, stepId, status); d.now == db.now && d.instances == db.instances && d.timers == db.timers
  {
  }

  lemma ChosenFollows(env: Env, step: Step, vars: Vars)
    requires step.branches != []
    ensures var c := Choose(env.eval, step.branches, vars); c.Take? ==> c.target in Followers(step)
  {
    var c := Choose(env.eval, step.branches, vars);
    if c.Take? {
      var i := ChosenBranch(env.eval, step.branches, vars);
    }
  }

  lemma NextFollows(step: Step)
    requires step.branches == [] && step.nextStep != ""
    ensures step.nextStep in Followers(step)
  {
  }

  lemma StartTidy(db: Db, row: Instance, ack: Option<Id>, ev: Event)
    requires row.def.steps != [] && Brings(ev, row.def)
    ensures TidyBody(db, ev, StartBody(db, row, ack))
  {
    hide FindStep, Resolvable;
    assert row.def.steps[0] in row.def.steps;
    assert Declared(row.def, row.def.steps[0].id) by { FirstDeclared(row.def); }
  }

  lemma FirstDeclared(def: Definition)
    requires def.steps != []
    ensures Declared(def, def.steps[0].id)
  {
    assert def.steps[0] in def.steps;
  }

  /** The step of a delivery attempt is a SERVICE_TASK of its instance's definition. */
  lemma JobStep(db: Db, j: Id)
    requires Inv(db) && LockJob(db, j).Some?
    ensures var found := FindStep(db.instances[db.jobs[j].inst].def, db.execs[db.jobs[j].exec].stepId);
            found.Some? && found.value.typ == ServiceTask && found.value in db.instances[db.jobs[j].inst].def.steps
  {
    hide FindStep, Budget, Chained, MergedOnce, Currents, Requested, KeysDistinct, TaskRefs, TimerRefs, ExecRefs, ChainRefs, Below;
    var e := db.execs[db.jobs[j].exec];
    assert e.inst == db.jobs[j].inst;
    assert StepOf(db.instances, e).Some? && StepOf(db.instances, e).value.typ == e.typ;
    StepFound(db.instances[e.inst].def, e.stepId);
  }

  lemma StepFound(def: Definition, id: string)
    ensures FindStep(def, id).Some? ==> FindStep(def, id).value in def.steps
  {
  }

  lemma CompleteTidy(env: Env, db: Db, j: Id, worker: string, output: Vars, ev: Event)
    requires Inv(db)
    ensures TidyBody(db, ev, CompleteBody(env, db, j, worker, output))
  {
    hide Inv, FindStep, Quiet, TidyBody, AdvanceBody, Accepts, SetStatus, Merged, Closed, CancelJobs, SetExec;
    QuietReflexive(db);
    SettledTidy(db, db, ev);
    if LockJob(db, j).Some? {
      JobStep(db, j);
      var e, iid := db.jobs[j].exec, db.jobs[j].inst;
      CancelKeepsExecs(db, e);
      var step := FindStep(db.instances[iid].def, db.execs[e].stepId).value;
      CompletedRows(db, j, worker, output);
      var db1 := Merged(Closed(db, j, worker), iid, e, output);
      SettledTidy(db, db1, ev);
      SettledTidy(db, SetStatus(SetExec(CancelJobs(db, e), e, Faulted), iid, Failed), ev);
      AdvanceTidy(env, db, db1, iid, db1.instances[iid], step, ev);
    }
  }

  lemma SettledTidy(db: Db, d: Db, ev: Event)
    requires Quiet(db, d)
    ensures TidyBody(db, ev, Settle(Commit(d))) && TidyBody(db, ev, Settle(Rollback))
  {
    hide Quiet;
    QuietFrom(db, d, ev);
  }

  lemma CompletedRows(db: Db, j: Id, worker: string, output: Vars)
    requires LockJob(db, j).Some?
    ensures var e, iid := db.jobs[j].exec, db.jobs[j].inst;
            var db1 := Merged(Closed(db, j, worker), iid, e, output);
            && Quiet(db, db1) && iid in db1.instances && db1.instances[iid].def == db.instances[iid].def
            && Quiet(db, SetStatus(SetExec(CancelJobs(db, e), e, Faulted), iid, Failed))
  {
  }

  lemma FireTidy(db: Db, t: Id, iid: Id)
    ensures TidyBody(db, EvFire(t, iid), FireBody(db, t, iid))
  {
    hide FindStep, Resolvable, WithoutStep, CancelTasks, CancelJobs;
    if t in db.timers && db.timers[t].exec in db.execs {
      InterruptedRows(db.(timers := db.timers[t := db.timers[t].(fired := true)]), db.timers[t].exec);
    }
  }

  lemma InterruptedRows(db: Db, exec: Id)
    requires exec in db.execs
    ensures var d := Interrupted(db, exec); d.now == db.now && d.instances == db.instances && d.timers == db.timers
  {
  }

  lemma UserTaskTidy(env: Env, db: Db, iid: Id, stepId: string, vars: Vars, ev: Event)
    ensures TidyBody(db, ev, UserTaskBody(env, db, iid, stepId, vars))
  {
    hide FindStep, Quiet, DefsFrom, TimersFrom, Resolved, BringsResolvable, AdvanceBody, Resolvable, OpenTasks, CompleteTasks, SetRunning, PatchVars;
    if iid in db.instances {
      var row := db.instances[iid];
      var found := FindStep(row.def, stepId);
      StepFound(row.def, stepId);
      if found.Some? && found.value.typ == UserTask {
        ResumedRows(db, iid, stepId, vars);
        AdvanceTidy(env, db, PatchVars(SetRunning(CompleteTasks(db, iid, stepId), iid, stepId, Succeeded), iid, vars), iid,
                    row.(vars := row.vars + vars), found.value, ev);
      }
    }
  }

  lemma SignalTidy(env: Env, db: Db, iid: Id, stepId: string, vars: Vars, ev: Event)
    ensures TidyBody(db, ev, SignalBody(env, db, iid, stepId, vars))
  {
    hide FindStep, Quiet, DefsFrom, TimersFrom, Resolved, BringsResolvable, AdvanceBody, Resolvable, RunningOf, SetRunning, PatchVars;
    if iid in db.instances {
      var row := db.instances[iid];
      var found := FindStep(row.def, stepId);
      StepFound(row.def, stepId);
      if found.Some? && found.value.typ == Wait {
        ResumedRows(db, iid, stepId, vars);
        AdvanceTidy(env, db, PatchVars(SetRunning(db, iid, stepId, Succeeded), iid, vars), iid,
                    row.(vars := row.vars + vars), found.value, ev);
      }
    }
  }

  lemma ResumedRows(db: Db, iid: Id, stepId: string, vars: Vars)
    ensures Quiet(db, PatchVars(SetRunning(CompleteTasks(db, iid, stepId), iid, stepId, Succeeded), iid, vars))
    ensures Quiet(db, PatchVars(SetRunning(db, iid, stepId, Succeeded), iid, vars))
  {
    hide PatchVars, SameDefs, SetRunning;
    DefsReflexive(db.instances);
    RunningRows(db, iid, stepId, Succeeded);
    RunningRows(CompleteTasks(db, iid, stepId), iid, stepId, Succeeded);
    QuietVars(db, SetRunning(CompleteTasks(db, iid, stepId), iid, stepId, Succeeded), iid, vars);
    QuietVars(db, SetRunning(db, iid, stepId, Succeeded), iid, vars);
  }

  lemma RetryStepTidy(db: Db, iid: Id, stepId: string, patch: Vars, ev: Event)
    ensures TidyBody(db, ev, RetryStepBody(db, iid, stepId, patch))
  {
    hide FindStep, DefsFrom, TimersFrom, BringsResolvable, Resolvable, IsLatestExec, KeyTaken;
    if iid in db.instances {
      var db1 := PatchVars(SetStatus(db, iid, Active), iid, patch);
      assert Quiet(db, db1);
      QuietFrom(db, db1, ev);
    }
  }

  lemma SidelineTidy(env: Env, db: Db, ev: Event)
    requires IsSideline(ev)
    ensures TidyBody(db, ev, Settle(Next(env, 0, db, ev)))
  {
    hide Next, Brings;
    SidelineEvents(env, db, ev);
  }

  lemma LegacyTidy(db: Db, j: Id, worker: string, ev: Event)
    ensures TidyBody(db, ev, Settle(CompleteLegacy(db, j, worker)))
  {
    hide Accepts, DefsFrom, TimersFrom, SameDefs;
    assert Quiet(db, db) by { QuietReflexive(db); }
    QuietFrom(db, db, ev);
    var r := CompleteLegacy(db, j, worker);
    if r.Commit? {
      QuietRows(db, db, r.db);
      QuietFrom(db, r.db, ev);
    }
  }

  lemma FailJobTidy(db: Db, j: Id, worker: string, retryable: bool, ev: Event)
    ensures TidyBody(db, ev, Settle(FailJob(db, j, worker, retryable)))
  {
    hide Accepts, DefsFrom, TimersFrom, Quiet, SetStatus;
    QuietReflexive(db);
    QuietFrom(db, db, ev);
    if LockJob(db, j).Some? {
      var job := db.jobs[j];
      var db1 := SetJob(db, j, job.(status := JobFailed, worker := worker));
      var again := Replacement(db1, job, job.retries - 1);
      QuietRows(db, db, again);
      QuietFrom(db, again, ev);
      var closed := SetExec(db1, job.exec, Faulted);
      QuietRows(db, db, closed);
      QuietStatus(db, closed, job.inst, Failed);
      QuietFrom(db, SetStatus(closed, job.inst, Failed), ev);
    }
  }

  lemma QuietEvents(env: Env, db: Db, ev: Event)
    requires IsSideline(ev) || ev.EvCompleteLegacy? || ev.EvFail?
    ensures TidyBody(db, ev, Settle(Next(env, 0, db, ev)))
  {
    hide TidyBody, CompleteLegacy, FailJob;
    match ev
    case EvCompleteLegacy(j, worker) => LegacyTidy(db, j, worker, ev);
    case EvFail(j, worker, retryable) => FailJobTidy(db, j, worker, retryable, ev);
    case _ =>
      hide Next;
      SidelineTidy(env, db, ev);
  }

  lemma BodyTidy(env: Env, db: Db, ev: Event)
    requires Inv(db)
    ensures TidyBody(db, ev, BodyOf(env, db, ev))
  {
    hide Inv, CompleteBody, FireBody, UserTaskBody, SignalBody, RetryStepBody, StartBody, Next, DefsFrom, TimersFrom, Resolved,
         BringsResolvable, KeyTaken, FindStep;
    QuietReflexive(db);
    QuietFrom(db, db, ev);
    match ev
    case EvStart(def, vars, key) =>
      if def.steps != [] {
        StartTidy(db, NewInstance(def, vars, key, None), None, ev);
      }
    case EvComplete(j, worker, vars) => CompleteTidy(env, db, j, worker, vars, ev);
    case EvFire(t, iid) => FireTidy(db, t, iid);
    case EvUserTask(iid, stepId, vars) => UserTaskTidy(env, db, iid, stepId, vars, ev);
    case EvSignal(iid, stepId, vars) => SignalTidy(env, db, iid, stepId, vars, ev);
    case EvRetryStep(iid, stepId, vars) => RetryStepTidy(db, iid, stepId, vars, ev);
    case EvChain(source, def) =>
      if source in db.chains && def.steps != [] {
        StartTidy(db, NewInstance(def, db.chains[source].vars, db.chains[source].businessKey, Some(source)), Some(source), ev);
      }
    case _ => QuietEvents(env, db, ev);
  }

  // ---- runs ----

  lemma ResolvedAfter(now: int, a: Instances, b: Instances, ev: Event, timers: map<Id, Timer>, timers': map<Id, Timer>)
    requires Resolved(a, timers) && DefsFrom(a, b, ev) && BringsResolvable(ev) && TimersFrom(now, timers, timers')
    requires forall i :: i in a ==> i in b && b[i].def == a[i].def
    ensures Resolved(b, timers')
  {
    hide Resolvable, FindStep;
  }

  lemma ResolvedLaunched(a: Instances, b: Instances, timers: map<Id, Timer>, timers': map<Id, Timer>, iid: Id)
    requires Resolved(a, timers) && SameDefs(a, b) && iid in a && TimersWithin(timers, timers', iid, a[iid].def)
    ensures Resolved(b, timers')
  {
    hide Resolvable, FindStep;
  }

  lemma DispatchSameDefs(env: Env, depth: nat, db: Db, iid: Id, mem: Instance, stepId: string)
    ensures var o := Dispatch(env, depth, db, iid, mem, stepId); o.Ok? ==> SameDefs(db.instances, o.db.instances)
  {
    hide Route, SameDefs, Resolvable;
    if Declared(mem.def, stepId) {
      DispatchTidy(env, depth, db, iid, mem, stepId);
    }
  }

  lemma DefsFromVia(a: Instances, b: Instances, c: Instances, ev: Event)
    requires DefsFrom(a, b, ev) && SameDefs(b, c)
    ensures DefsFrom(a, c, ev)
  {
    hide Brings;
  }

  lemma AcknowledgedRows(db: Db, source: Id, child: Id)
    ensures Acknowledged(db, source, child).instances == db.instances && Acknowledged(db, source, child).timers == db.timers
  {
  }

  /** A transaction uses no definition but those of its instances and the one it brings. */
  lemma NextDefs(env: Env, depth: nat, db: Db, ev: Event)
    requires Inv(db)
    ensures var r := Next(env, depth, db, ev); r.Commit? ==> DefsFrom(db.instances, r.db.instances, ev)
  {
    hide Inv, Next, BodyOf, Dispatch, DefsFrom, SameDefs, TimersFrom, Resolved, BringsResolvable, Acknowledged, FindStep, Resolvable;
    NextPerforms(env, depth, db, ev);
    BodyTidy(env, db, ev);
    match BodyOf(env, db, ev)
    case Settle(_) =>
    case Launch(db1, iid, mem, stepId, ack) =>
      DispatchSameDefs(env, depth, db1, iid, mem, stepId);
      var o := Dispatch(env, depth, db1, iid, mem, stepId);
      if o.Ok? {
        DefsFromVia(db.instances, db1.instances, o.db.instances, ev);
        AcknowledgedRows(o.db, if ack.Some? then ack.value else 0, iid);
      }
  }

  /** With resolving references a transaction never meets an undeclared step, and leaves only resolving ones. */
  lemma NextResolved(env: Env, depth: nat, db: Db, ev: Event)
    requires Inv(db) && Resolved(db.instances, db.timers) && BringsResolvable(ev)
    ensures var r := Next(env, depth, db, ev);
            && !(r.Aborted? && r.error.StepNotFound?)
            && (r.Commit? ==> Resolved(r.db.instances, r.db.timers))
  {
    hide Inv, Next, BodyOf, Dispatch, DefsFrom, SameDefs, TimersFrom, Resolved, BringsResolvable, Acknowledged, FindStep, Resolvable, TimersWithin;
    NextPerforms(env, depth, db, ev);
    BodyTidy(env, db, ev);
    match BodyOf(env, db, ev)
    case Settle(r) =>
      if r.Commit? {
        OldDefsKept(env, depth, db, ev);
        ResolvedAfter(db.now, db.instances, r.db.instances, ev, db.timers, r.db.timers);
      }
    case Launch(db1, iid, mem, stepId, ack) =>
      DispatchTidy(env, depth, db1, iid, mem, stepId);
      var o := Dispatch(env, depth, db1, iid, mem, stepId);
      if o.Ok? {
        AcknowledgedRows(o.db, if ack.Some? then ack.value else 0, iid);
        OldDefsLaunched(env, depth, db, ev, db1, o.db);
        ResolvedAfter(db.now, db.instances, db1.instances, ev, db.timers, db1.timers);
        ResolvedLaunched(db1.instances, o.db.instances, db1.timers, o.db.timers, iid);
      }
  }

  lemma OldDefsKept(env: Env, depth: nat, db: Db, ev: Event)
    requires Inv(db) && Next(env, depth, db, ev).Commit?
    ensures var b := Next(env, depth, db, ev).db.instances;
            forall i :: i in db.instances ==> i in b && b[i].def == db.instances[i].def
  {
    hide Inv, Next, ExecsEvolve, JobsEvolve, ChainsEvolve;
    EventProofs.NextKept(env, depth, db, ev);
  }

  lemma OldDefsLaunched(env: Env, depth: nat, db: Db, ev: Event, mid: Db, end: Db)
    requires Inv(db) && Next(env, depth, db, ev).Commit? && Next(env, depth, db, ev).db.instances == end.instances
    requires SameDefs(mid.instances, end.instances)
    ensures forall i :: i in db.instances ==> i in mid.instances && mid.instances[i].def == db.instances[i].def
  {
    hide Inv, Next;
    OldDefsKept(env, depth, db, ev);
  }

  /** Every definition a run uses was brought by one of its events. */
  lemma {:induction false} RunDefs(env: Env, states: seq<Db>, events: seq<Event>, i: nat, p: Definition -> bool)
    requires IsRun(env, states, events) && i < |states|
    requires forall k, d :: 0 <= k < |events| && Brings(events[k], d) ==> p(d)
    ensures forall iid :: iid in states[i].instances ==> p(states[i].instances[iid].def)
  {
    hide Inv, Brings, Next;
    if i > 0 {
      RunDefs(env, states, events, i - 1, p);
      EngineTheorems.RunInv(env, states, events, i - 1);
      if states[i] != states[i - 1] {
        var depth :| Next(env, depth, states[i - 1], events[i - 1]) == Commit(states[i]);
        NextDefs(env, depth, states[i - 1], events[i - 1]);
        assert DefsFrom(states[i - 1].instances, states[i].instances, events[i - 1]);
      }
    }
  }

  lemma {:induction false} RunResolved(env: Env, states: seq<Db>, events: seq<Event>, i: nat)
    requires IsRun(env, states, events) && i < |states|
    requires forall k :: 0 <= k < |events| ==> BringsResolvable(events[k])
    ensures Resolved(states[i].instances, states[i].timers)
  {
    hide Inv, BringsResolvable, Next, Resolvable, FindStep;
    if i > 0 {
      RunResolved(env, states, events, i - 1);
      EngineTheorems.RunInv(env, states, events, i - 1);
      if states[i] != states[i - 1] {
        var depth :| Next(env, depth, states[i - 1], events[i - 1]) == Commit(states[i]);
        NextResolved(env, depth, states[i - 1], events[i - 1]);
      }
    }
  }

  /**
   When every definition that is started resolves the references its handlers follow, no
   transaction of any run, timers and manual retries included, dispatches an undeclared step.
   */
  lemma NoUndeclaredDispatch(env: Env, states: seq<Db>, events: seq<Event>, i: nat, ev: Event, depth: nat)
    requires IsRun(env, states, events) && i < |states| && BringsResolvable(ev)
    requires forall k :: 0 <= k < |events| ==> BringsResolvable(events[k])
    ensures var r := Next(env, depth, states[i], ev); !(r.Aborted? && r.error.StepNotFound?)
  {
    hide Inv, BringsResolvable, Next, Resolved, IsRun;
    RunResolved(env, states, events, i);
    EngineTheorems.RunInv(env, states, events, i);
    NextResolved(env, depth, states[i], ev);
  }

  /**
   When no definition that is started has a cycle of immediate steps, every transaction of any
   run comes to an end.
   */
  lemma EveryTransactionEnds(env: Env, states: seq<Db>, events: seq<Event>, i: nat, ev: Event)
    requires IsRun(env, states, events) && i < |states|
    requires forall d :: Brings(ev, d) ==> Termination.NoImmediateCycle(d)
    requires forall k, d :: 0 <= k < |events| && Brings(events[k], d) ==> Termination.NoImmediateCycle(d)
    ensures exists depth :: !Next(env, depth, states[i], ev).Endless?
  {
    hide Inv, Next, IsRun, BodyOf, Dispatch, Termination.NoImmediateCycle, Resolved, BringsResolvable, TimersFrom, Brings, FindStep;
    var db := states[i];
    EngineTheorems.RunInv(env, states, events, i);
    RunDefs(env, states, events, i, (d: Definition) => Termination.NoImmediateCycle(d));
    BodyTidy(env, db, ev);
    var body := BodyOf(env, db, ev);
    var depth := if body.Launch? then |Termination.Ids(body.mem.def)| + 1 else 0;
    NextPerforms(env, depth, db, ev);
    if body.Launch? {
      assert Termination.NoImmediateCycle(body.mem.def);
      Termination.DispatchTerminates(env, depth, body.db, body.iid, body.mem, body.stepId);
    }
    assert !Next(env, depth, db, ev).Endless?;
  }
}
