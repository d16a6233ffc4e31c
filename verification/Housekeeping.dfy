/**
 The housekeeper deletes timer rows that are fired or whose parent execution has left RUNNING.
 Such rows are dead: a run with the housekeeper and the run without it agree on everything
 but the deleted rows.
 */
module Housekeeping {
  import opened Values
  import opened Definitions
  import opened Database
  import opened Interpreter
  import opened Transactions
  import opened Invariants
  import opened Evolution
  import opened Plans
  import EngineTheorems
  import EventProofs
  import Transformations

  type Timers = map<Id, Timer>

  /** The same state with more timer rows. */
  function With(db: Db, x: Timers): Db {
    db.(timers := x + db.timers)
  }

  function WithOutcome(o: Outcome, x: Timers): Outcome {
    if o.Ok? then Ok(With(o.db, x), o.mem) else o
  }

  function WithResult(r: TxResult, x: Timers): TxResult {
    if r.Commit? then Commit(With(r.db, x)) else r
  }

  // ---- no row operation reads a timer ----

  lemma RowOps(db: Db, x: Timers, iid: Id, stepId: string, patch: Vars, ids: seq<string>)
    ensures forall st :: SetStatus(With(db, x), iid, st) == With(SetStatus(db, iid, st), x)
    ensures SetCurrent(With(db, x), iid, ids) == With(SetCurrent(db, iid, ids), x)
    ensures PatchVars(With(db, x), iid, patch) == With(PatchVars(db, iid, patch), x)
    ensures forall e, st :: e in db.execs ==> SetExec(With(db, x), e, st) == With(SetExec(db, e, st), x)
  {
    hide With, SetStatus, SetCurrent, PatchVars, SetExec;
    WithRows(db, x);
    forall st ensures SetStatus(With(db, x), iid, st) == With(SetStatus(db, iid, st), x) {
      StatusWith(db, x, iid, st);
    }
    CurrentWith(db, x, iid, ids);
    VarsWith(db, x, iid, patch);
    forall e, st | e in db.execs ensures SetExec(With(db, x), e, st) == With(SetExec(db, e, st), x) {
      ExecWith(db, x, e, st);
    }
  }

  lemma StatusWith(db: Db, x: Timers, iid: Id, status: InstanceStatus)
    ensures SetStatus(With(db, x), iid, status) == With(SetStatus(db, iid, status), x)
  {
  }

  lemma CurrentWith(db: Db, x: Timers, iid: Id, ids: seq<string>)
    ensures SetCurrent(With(db, x), iid, ids) == With(SetCurrent(db, iid, ids), x)
  {
  }

  lemma VarsWith(db: Db, x: Timers, iid: Id, patch: Vars)
    ensures PatchVars(With(db, x), iid, patch) == With(PatchVars(db, iid, patch), x)
  {
  }

  lemma ExecWith(db: Db, x: Timers, e: Id, status: ExecStatus)
    requires e in db.execs
    ensures SetExec(With(db, x), e, status) == With(SetExec(db, e, status), x)
  {
  }

  lemma RunningOps(db: Db, x: Timers, iid: Id, stepId: string)
    ensures RunningOf(With(db, x), iid, stepId) == RunningOf(db, iid, stepId)
    ensures ExecsOf(With(db, x), iid, stepId) == ExecsOf(db, iid, stepId)
    ensures forall st :: SetRunning(With(db, x), iid, stepId, st) == With(SetRunning(db, iid, stepId, st), x)
  {
    assert RunningOf(With(db, x), iid, stepId) == RunningOf(db, iid, stepId);
    assert ExecsOf(With(db, x), iid, stepId) == ExecsOf(db, iid, stepId);
    forall st ensures SetRunning(With(db, x), iid, stepId, st) == With(SetRunning(db, iid, stepId, st), x) {
      assert SetRunning(With(db, x), iid, stepId, st).execs == SetRunning(db, iid, stepId, st).execs;
    }
  }

  lemma LeafOps(db: Db, x: Timers, iid: Id, leafs: seq<string>)
    ensures CompletedLeafs(With(db, x), iid, leafs) == CompletedLeafs(db, iid, leafs)
  {
  }

  lemma {:induction false} ScheduleWith(env: Env, db: Db, x: Timers, iid: Id, exec: Id, events: seq<BoundaryEvent>)
    ensures var s := Schedule(env, db, iid, exec, events);
            Schedule(env, With(db, x), iid, exec, events) == if s.Some? then Some(With(s.value, x)) else None
    decreases |events|
  {
    if events != [] {
      if events[0].kind != "TIMER" {
        ScheduleWith(env, db, x, iid, exec, events[1..]);
      } else {
        var d := env.duration(events[0].duration);
        if d.Some? {
          var row := Timer(iid, exec, events[0].target, db.now + d.value, events[0].interrupting, false);
          assert (x + db.timers)[db.nextId := row] == x + db.timers[db.nextId := row];
          assert InsertTimer(With(db, x), row) == With(InsertTimer(db, row), x);
          ScheduleWith(env, InsertTimer(db, row), x, iid, exec, events[1..]);
        }
      }
    }
  }

  lemma ScheduledWith(env: Env, db: Db, x: Timers, iid: Id, mem: Instance, exec: Id, step: Step)
    ensures Scheduled(env, With(db, x), iid, mem, exec, step) == WithOutcome(Scheduled(env, db, iid, mem, exec, step), x)
  {
    hide Schedule, With;
    ScheduleWith(env, db, x, iid, exec, step.boundaryEvents);
  }

  lemma EnterWith(db: Db, x: Timers, iid: Id, mem: Instance, step: Step)
    ensures Enter(With(db, x), iid, mem, step) == With(Enter(db, iid, mem, step), x)
  {
    hide SetCurrent;
    RunningOps(db, x, iid, step.id);
    var attempt := |ExecsOf(db, iid, step.id)| + 1;
    assert InsertExec(With(db, x), iid, step, attempt) == With(InsertExec(db, iid, step, attempt), x);
    RowOps(InsertExec(db, iid, step, attempt), x, iid, step.id, map[], WithStep(mem.current, step.id));
  }

  // ---- one dispatch ----

  function WithPlan(plan: Plan, x: Timers): Plan {
    match plan
    case Stop(o) => Stop(WithOutcome(o, x))
    case Go(db, mem, next) => Go(With(db, x), mem, next)
    case Split(db, mem, branches) => Split(With(db, x), mem, branches)
  }

  lemma WithRows(db: Db, x: Timers)
    ensures With(db, x).execs == db.execs && With(db, x).now == db.now && With(db, x).nextId == db.nextId
    ensures With(db, x).instances == db.instances && With(db, x).jobs == db.jobs && With(db, x).chains == db.chains && With(db, x).tasks == db.tasks
  {
  }

  lemma FailWith(db: Db, x: Timers, iid: Id, mem: Instance, stepId: string)
    ensures FailStep(With(db, x), iid, mem, stepId) == WithOutcome(FailStep(db, iid, mem, stepId), x)
  {
    hide With, SetStatus, SetRunning;
    RunningOps(db, x, iid, stepId);
    RowOps(SetRunning(db, iid, stepId, Faulted), x, iid, stepId, map[], []);
  }

  lemma ParkWith(env: Env, db: Db, x: Timers, iid: Id, mem: Instance, step: Step, exec: Id)
    requires exec in db.execs && With(db, x).execs == db.execs && Parked(step.typ)
    ensures Route(env, 1, With(db, x), iid, mem, step, exec) == WithOutcome(Route(env, 1, db, iid, mem, step, exec), x)
  {
    hide Scheduled, SetStatus, Dispatch, Fork;
    var jobType := if step.jobType == "" then step.id else step.jobType;
    match step.typ
    case ServiceTask =>
      assert InsertJob(With(db, x), iid, exec, jobType, step.retryCount, mem.vars) == With(InsertJob(db, iid, exec, jobType, step.retryCount, mem.vars), x);
      ScheduledWith(env, InsertJob(db, iid, exec, jobType, step.retryCount, mem.vars), x, iid, mem, exec, step);
    case UserTask =>
      var task := InsertTask(db, iid, exec, step.id);
      assert InsertTask(With(db, x), iid, exec, step.id) == With(task, x);
      RowOps(task, x, iid, step.id, map[], []);
      ScheduledWith(env, SetStatus(task, iid, Waiting), x, iid, mem.(status := Waiting), exec, step);
    case Wait =>
      RowOps(db, x, iid, step.id, map[], []);
      ScheduledWith(env, SetStatus(db, iid, Waiting), x, iid, mem.(status := Waiting), exec, step);
  }

  lemma EndWith(env: Env, db: Db, x: Timers, iid: Id, mem: Instance, step: Step, exec: Id)
    requires exec in db.execs && With(db, x).execs == db.execs && step.typ == End
    ensures Route(env, 1, With(db, x), iid, mem, step, exec) == WithOutcome(Route(env, 1, db, iid, mem, step, exec), x)
  {
    hide SetStatus, SetCurrent, WithoutStep, SetExec;
    var ids := Left(mem, step).current;
    RowOps(db, x, iid, step.id, map[], ids);
    var closed := SetExec(db, exec, Succeeded);
    RowOps(closed, x, iid, step.id, map[], ids);
    RowOps(SetCurrent(closed, iid, ids), x, iid, step.id, map[], ids);
    var done := SetStatus(SetCurrent(closed, iid, ids), iid, Completed);
    var row := Chain(mem.def.nextWorkflowId, mem.vars, mem.businessKey, None);
    assert InsertChain(With(done, x), iid, row) == With(InsertChain(done, iid, row), x);
  }

  lemma PassWith(db: Db, x: Timers, exec: Id)
    ensures PassJoin(With(db, x), exec) == With(PassJoin(db, exec), x)
  {
  }

  lemma JoinWith(env: Env, db: Db, x: Timers, iid: Id, mem: Instance, step: Step, exec: Id)
    requires exec in db.execs && With(db, x).execs == db.execs && step.typ == JoinGateway
    ensures PlanOf(env, With(db, x), iid, mem, step, exec) == WithPlan(PlanOf(env, db, iid, mem, step, exec), x)
  {
    hide With, GatewayFor, SetExec, CompletedLeafs, Dispatch, Left, PassJoin;
    RowOps(db, x, iid, step.id, map[], []);
    PassWith(SetExec(db, exec, Succeeded), x, exec);
    var gateway := GatewayFor(mem.def, step.id);
    if gateway.Some? {
      LeafOps(db, x, iid, gateway.value.parallelNextSteps);
    }
  }

  lemma PlanWith(env: Env, db: Db, x: Timers, iid: Id, mem: Instance, step: Step, exec: Id)
    requires exec in db.execs && With(db, x).execs == db.execs
    ensures PlanOf(env, With(db, x), iid, mem, step, exec) == WithPlan(PlanOf(env, db, iid, mem, step, exec), x)
  {
    hide With, TableOutcome, Transformations.Run, CompletedLeafs, Dispatch, Fork, Scheduled, FindStep, GatewayFor, Choose,
         Left, FailStep, SetRunning, SetExec, PatchVars, Route, SetStatus, InsertJob, InsertTask;
    WithRows(db, x);
    FailWith(db, x, iid, mem, step.id);
    RunningOps(db, x, iid, step.id);
    RowOps(db, x, iid, step.id, map[], []);
    match step.typ
    case Transformation => TransformationWith(env, db, x, iid, mem, step, exec);
    case DecisionTable =>
      var o := TableOutcome(env, exec, db.now, step, mem.vars);
      if o.Outputs? {
        RowOps(db, x, iid, step.id, o.row, []);
        RunningOps(PatchVars(db, iid, o.row), x, iid, step.id);
      }
    case Decision =>
    case ParallelGateway =>
    case JoinGateway => JoinWith(env, db, x, iid, mem, step, exec);
    case End => EndWith(env, db, x, iid, mem, step, exec);
    case Unsupported(_) => UnsupportedWith(env, db, x, iid, mem, step, exec);
    case _ => ParkWith(env, db, x, iid, mem, step, exec);
  }

  lemma TransformationWith(env: Env, db: Db, x: Timers, iid: Id, mem: Instance, step: Step, exec: Id)
    requires exec in db.execs && With(db, x).execs == db.execs && step.typ == Transformation
    ensures PlanOf(env, With(db, x), iid, mem, step, exec) == WithPlan(PlanOf(env, db, iid, mem, step, exec), x)
  {
    hide With, Transformations.Run, Dispatch, Fork, Choose, Left, FailStep, SetRunning, SetExec, PatchVars, Route;
    WithRows(db, x);
    FailWith(db, x, iid, mem, step.id);
    var r := Transformations.Run(step.transformations, env.eval, env.clockText(db.now),
                                 env.order(exec, 0, step.transformations.Keys), mem.vars, map[]);
    if r.Done? {
      RowOps(db, x, iid, step.id, r.delta, []);
      PatchKeepsExecs(db, iid, r.delta);
      RowOps(PatchVars(db, iid, r.delta), x, iid, step.id, map[], []);
      RunningOps(PatchVars(db, iid, r.delta), x, iid, step.id);
    }
  }

  lemma UnsupportedWith(env: Env, db: Db, x: Timers, iid: Id, mem: Instance, step: Step, exec: Id)
    requires exec in db.execs && With(db, x).execs == db.execs && step.typ.Unsupported?
    ensures Route(env, 1, With(db, x), iid, mem, step, exec) == WithOutcome(Route(env, 1, db, iid, mem, step, exec), x)
  {
  }

  lemma {:induction false} DispatchWith(env: Env, n: nat, db: Db, x: Timers, iid: Id, mem: Instance, stepId: string)
    ensures Dispatch(env, n, With(db, x), iid, mem, stepId) == WithOutcome(Dispatch(env, n, db, iid, mem, stepId), x)
    decreases n, 1
  {
    hide Route, PlanOf, Enter, Entered, Fork, With;
    if n > 0 && FindStep(mem.def, stepId).Some? {
      var step := FindStep(mem.def, stepId).value;
      EnterHasExec(db, iid, mem, step);
      EnterWith(db, x, iid, mem, step);
      WithRows(db, x);
      var db1, mem1 := Enter(db, iid, mem, step), Entered(mem, step);
      WithRows(db1, x);
      RouteFollowsPlan(env, n, db1, iid, mem1, step, db.nextId);
      RouteFollowsPlan(env, n, With(db1, x), iid, mem1, step, db.nextId);
      PlanWith(env, db1, x, iid, mem1, step, db.nextId);
      match PlanOf(env, db1, iid, mem1, step, db.nextId)
      case Stop(_) =>
      case Go(db2, mem2, next) => DispatchWith(env, n - 1, db2, x, iid, mem2, next);
      case Split(db2, mem2, branches) => ForkWith(env, n, db2, x, iid, mem2, branches);
    }
  }

  lemma {:induction false} ForkWith(env: Env, n: nat, db: Db, x: Timers, iid: Id, mem: Instance, branches: seq<string>)
    requires n > 0
    ensures Fork(env, n, With(db, x), iid, mem, branches) == WithOutcome(Fork(env, n, db, iid, mem, branches), x)
    decreases n, 0, |branches|
  {
    hide Dispatch, With;
    if branches != [] {
      DispatchWith(env, n - 1, db, x, iid, mem, branches[0]);
      var o := Dispatch(env, n - 1, db, iid, mem, branches[0]);
      if o.Ok? {
        ForkWith(env, n, o.db, x, iid, o.mem, branches[1..]);
      }
    }
  }

  // ---- one transaction ----

  function WithBody(body: Body, x: Timers): Body {
    match body
    case Settle(r) => Settle(WithResult(r, x))
    case Launch(db, iid, mem, stepId, ack) => Launch(With(db, x), iid, mem, stepId, ack)
  }

  lemma PerformWith(env: Env, depth: nat, body: Body, x: Timers)
    ensures Perform(env, depth, WithBody(body, x)) == WithResult(Perform(env, depth, body), x)
  {
    hide Dispatch;
    if body.Launch? {
      DispatchWith(env, depth, body.db, x, body.iid, body.mem, body.stepId);
      var o := Dispatch(env, depth, body.db, body.iid, body.mem, body.stepId);
      if o.Ok? && body.ack.Some? {
        assert Acknowledged(With(o.db, x), body.ack.value, body.iid) == With(Acknowledged(o.db, body.ack.value, body.iid), x);
      }
    }
  }

  lemma AdvanceWith(env: Env, db: Db, x: Timers, iid: Id, mem: Instance, step: Step)
    ensures AdvanceBody(env, With(db, x), iid, mem, step) == WithBody(AdvanceBody(env, db, iid, mem, step), x)
  {
    hide With, SetStatus, SetCurrent, FailStep, Choose, WithoutStep, Recomputed;
    var mem1 := Leaving(mem, step);
    RowOps(db, x, iid, step.id, map[], mem1.current);
    RowOps(SetCurrent(db, iid, mem1.current), x, iid, step.id, map[], []);
    FailWith(Departed(db, iid, mem, step), x, iid, mem1, step.id);
  }

  lemma CompleteRowsWith(db: Db, x: Timers, j: Id, worker: string, output: Vars)
    requires j in db.jobs && db.jobs[j].exec in db.execs && With(db, x).execs == db.execs && With(db, x).jobs == db.jobs
    ensures var e, iid := db.jobs[j].exec, db.jobs[j].inst;
            && Merged(Closed(With(db, x), j, worker), iid, e, output) == With(Merged(Closed(db, j, worker), iid, e, output), x)
            && SetStatus(SetExec(CancelJobs(With(db, x), e), e, Faulted), iid, Failed)
               == With(SetStatus(SetExec(CancelJobs(db, e), e, Faulted), iid, Failed), x)
            && Closed(With(db, x), j, worker) == With(Closed(db, j, worker), x)
  {
    assert CancelJobs(With(db, x), db.jobs[j].exec).jobs == CancelJobs(db, db.jobs[j].exec).jobs;
  }

  lemma LockWith(db: Db, x: Timers, j: Id, worker: string)
    ensures LockJob(With(db, x), j) == LockJob(db, j) && Accepts(With(db, x), j, worker) == Accepts(db, j, worker)
  {
  }

  lemma CompleteWith(env: Env, db: Db, x: Timers, j: Id, worker: string, output: Vars)
    ensures CompleteBody(env, With(db, x), j, worker, output) == WithBody(CompleteBody(env, db, j, worker, output), x)
  {
    hide With, AdvanceBody, FindStep, Accepts, SetStatus, CancelJobs, SetExec, Merged, Closed;
    WithRows(db, x);
    LockWith(db, x, j, worker);
    if LockJob(db, j).Some? {
      CompleteRowsWith(db, x, j, worker, output);
      MergedHasRow(db, j, worker, output);
      var e, iid := db.jobs[j].exec, db.jobs[j].inst;
      var found := FindStep(db.instances[iid].def, db.execs[e].stepId);
      var db1 := Merged(Closed(db, j, worker), iid, e, output);
      WithRows(db1, x);
      if found.Some? {
        AdvanceWith(env, db1, x, iid, db1.instances[iid], found.value);
      }
    }
  }

  lemma InterruptedWith(db: Db, x: Timers, exec: Id)
    requires exec in db.execs && With(db, x).execs == db.execs
    ensures Interrupted(With(db, x), exec) == With(Interrupted(db, exec), x)
  {
    assert CancelJobs(With(db, x), exec).jobs == CancelJobs(db, exec).jobs;
    assert CancelTasks(With(db, x), exec).tasks == CancelTasks(db, exec).tasks;
  }

  function Fired(db: Db, t: Id): Db
    requires t in db.timers
  {
    db.(timers := db.timers[t := db.timers[t].(fired := true)])
  }

  lemma TimerWith(db: Db, x: Timers, t: Id)
    requires t in db.timers || t !in x
    ensures t in With(db, x).timers <==> t in db.timers
    ensures t in db.timers ==> With(db, x).timers[t] == db.timers[t] && Fired(With(db, x), t) == With(Fired(db, t), x)
  {
    if t in db.timers {
      var row := db.timers[t].(fired := true);
      assert (x + db.timers)[t := row] == x + db.timers[t := row];
    }
  }

  /** A row that both states have fires alike. */
  lemma FireWith(db: Db, x: Timers, t: Id, iid: Id)
    requires t in db.timers || t !in x
    ensures FireBody(With(db, x), t, iid) == WithBody(FireBody(db, t, iid), x)
  {
    hide Interrupted, WithoutStep, With;
    WithRows(db, x);
    TimerWith(db, x, t);
    if t in db.timers {
      var db1 := Fired(db, t);
      WithRows(db1, x);
      if db.timers[t].exec in db.execs {
        InterruptedWith(db1, x, db.timers[t].exec);
      }
    }
  }

  lemma TasksWith(db: Db, x: Timers, iid: Id, stepId: string)
    ensures OpenTasks(With(db, x), iid, stepId) == OpenTasks(db, iid, stepId)
    ensures CompleteTasks(With(db, x), iid, stepId) == With(CompleteTasks(db, iid, stepId), x)
  {
    assert OpenTasks(With(db, x), iid, stepId) == OpenTasks(db, iid, stepId);
    assert CompleteTasks(With(db, x), iid, stepId).tasks == CompleteTasks(db, iid, stepId).tasks;
  }

  lemma UserTaskWith(env: Env, db: Db, x: Timers, iid: Id, stepId: string, vars: Vars)
    ensures UserTaskBody(env, With(db, x), iid, stepId, vars) == WithBody(UserTaskBody(env, db, iid, stepId, vars), x)
  {
    hide With, AdvanceBody, FindStep, SetRunning, PatchVars, CompleteTasks, OpenTasks;
    WithRows(db, x);
    TasksWith(db, x, iid, stepId);
    RunningOps(CompleteTasks(db, iid, stepId), x, iid, stepId);
    var db1 := SetRunning(CompleteTasks(db, iid, stepId), iid, stepId, Succeeded);
    RowOps(db1, x, iid, stepId, vars, []);
    if iid in db.instances && FindStep(db.instances[iid].def, stepId).Some? {
      var row := db.instances[iid];
      AdvanceWith(env, PatchVars(db1, iid, vars), x, iid, row.(vars := row.vars + vars), FindStep(row.def, stepId).value);
    }
  }

  lemma SignalWith(env: Env, db: Db, x: Timers, iid: Id, stepId: string, vars: Vars)
    ensures SignalBody(env, With(db, x), iid, stepId, vars) == WithBody(SignalBody(env, db, iid, stepId, vars), x)
  {
    hide With, AdvanceBody, FindStep, SetRunning, PatchVars, RunningOf;
    WithRows(db, x);
    RunningOps(db, x, iid, stepId);
    var db1 := SetRunning(db, iid, stepId, Succeeded);
    RowOps(db1, x, iid, stepId, vars, []);
    if iid in db.instances && FindStep(db.instances[iid].def, stepId).Some? {
      var row := db.instances[iid];
      AdvanceWith(env, PatchVars(db1, iid, vars), x, iid, row.(vars := row.vars + vars), FindStep(row.def, stepId).value);
    }
  }

  lemma LatestWith(db: Db, x: Timers, iid: Id, stepId: string)
    ensures forall e :: IsLatestExec(With(db, x), iid, stepId, e) == IsLatestExec(db, iid, stepId, e)
  {
    hide ExecsOf;
    RunningOps(db, x, iid, stepId);
  }

  lemma RetryStepWith(db: Db, x: Timers, iid: Id, stepId: string, patch: Vars)
    ensures RetryStepBody(With(db, x), iid, stepId, patch) == WithBody(RetryStepBody(db, iid, stepId, patch), x)
  {
    hide With, FindStep, SetStatus, PatchVars, IsLatestExec, KeyHeld;
    WithRows(db, x);
    LatestWith(db, x, iid, stepId);
    RowOps(db, x, iid, stepId, patch, []);
    RowOps(SetStatus(db, iid, Active), x, iid, stepId, patch, []);
  }

  lemma StartWith(db: Db, x: Timers, row: Instance, ack: Option<Id>)
    requires row.def.steps != []
    ensures StartBody(With(db, x), row, ack) == WithBody(StartBody(db, row, ack), x)
  {
  }

  lemma PollWith(db: Db, x: Timers, worker: string, claimed: set<Id>, seconds: int)
    ensures Poll(With(db, x), worker, claimed, seconds) == WithResult(Poll(db, worker, claimed, seconds), x)
  {
    var s := LeaseSeconds(seconds);
    if s.Some? {
      assert LeaseEnd(With(db, x), s.value) == LeaseEnd(db, s.value);
      assert Poll(With(db, x), worker, claimed, seconds).db.jobs == Poll(db, worker, claimed, seconds).db.jobs;
    }
  }

  lemma JobOps(db: Db, x: Timers, j: Id, row: Job)
    ensures SetJob(With(db, x), j, row) == With(SetJob(db, j, row), x)
    ensures forall r :: Replacement(With(db, x), row, r) == With(Replacement(db, row, r), x)
  {
  }

  lemma LegacyWith(db: Db, x: Timers, j: Id, worker: string)
    ensures CompleteLegacy(With(db, x), j, worker) == WithResult(CompleteLegacy(db, j, worker), x)
  {
    hide Accepts, With, Merged, SetStatus;
    LockWith(db, x, j, worker);
    WithRows(db, x);
    if LockJob(db, j).Some? {
      CompleteRowsWith(db, x, j, worker, map[]);
    }
  }

  lemma FailJobWith(db: Db, x: Timers, j: Id, worker: string, retryable: bool)
    ensures FailJob(With(db, x), j, worker, retryable) == WithResult(FailJob(db, j, worker, retryable), x)
  {
    hide Accepts, With, SetStatus, SetExec, Replacement;
    LockWith(db, x, j, worker);
    WithRows(db, x);
    if LockJob(db, j).Some? {
      var job := db.jobs[j];
      var db1 := SetJob(db, j, job.(status := JobFailed, worker := worker));
      JobOps(db, x, j, job.(status := JobFailed, worker := worker));
      JobOps(db1, x, j, job);
      RowOps(db1, x, job.inst, "", map[], []);
      RowOps(SetExec(db1, job.exec, Faulted), x, job.inst, "", map[], []);
    }
  }

  lemma RetryJobWith(db: Db, x: Timers, j: Id, expiredOnly: bool)
    ensures RetryJob(With(db, x), j, expiredOnly) == WithResult(RetryJob(db, j, expiredOnly), x)
  {
    hide Accepts, With, Replacement;
    LockWith(db, x, j, "");
    WithRows(db, x);
    if LockJob(db, j).Some? {
      JobOps(db, x, j, db.jobs[j].(status := JobCancelled));
      JobOps(SetJob(db, j, db.jobs[j].(status := JobCancelled)), x, j, db.jobs[j]);
    }
  }

  lemma HeartbeatWith(db: Db, x: Timers, j: Id, worker: string, seconds: int)
    ensures Heartbeat(With(db, x), j, worker, seconds) == WithResult(Heartbeat(db, j, worker, seconds), x)
  {
    LockWith(db, x, j, worker);
  }

  lemma SettleWith(x: Timers)
    ensures forall r :: WithBody(Settle(r), x) == Settle(WithResult(r, x))
  {
  }

  lemma StartEventWith(env: Env, db: Db, x: Timers, def: Definition, vars: Vars, key: Option<string>)
    ensures BodyOf(env, With(db, x), EvStart(def, vars, key)) == WithBody(BodyOf(env, db, EvStart(def, vars, key)), x)
  {
    hide With, StartBody, KeyHeld, Startable;
    WithRows(db, x);
    if def.steps != [] {
      StartWith(db, x, NewInstance(def, vars, key, None), None);
    } else {
      NotStartable(env, def, vars);
    }
  }

  lemma ChainWith(env: Env, db: Db, x: Timers, source: Id, def: Definition)
    ensures ChainBody(env, With(db, x), source, def) == WithBody(ChainBody(env, db, source, def), x)
  {
    hide With, StartBody, KeyHeld, Startable;
    WithRows(db, x);
    if source in db.chains {
      var request := db.chains[source];
      if def.steps == [] {
        NotStartable(env, def, request.vars);
      } else {
        StartWith(db, x, NewInstance(def, request.vars, request.businessKey, Some(source)), Some(source));
      }
    }
  }

  lemma CancelWith(db: Db, x: Timers, iid: Id)
    ensures Cancel(With(db, x), iid) == WithResult(Cancel(db, iid), x)
  {
    hide With, SetStatus;
    WithRows(db, x);
    RowOps(db, x, iid, "", map[], []);
  }

  lemma BodyWith(env: Env, db: Db, x: Timers, ev: Event)
    requires !ev.EvHousekeep? && (ev.EvFire? ==> ev.timer in db.timers || ev.timer !in x)
    ensures BodyOf(env, With(db, x), ev) == WithBody(BodyOf(env, db, ev), x)
  {
    hide With, WithBody, CompleteBody, FireBody, UserTaskBody, SignalBody, RetryStepBody, Poll, CompleteLegacy, FailJob, RetryJob, Heartbeat, Cancel,
         ChainBody, Start;
    SettleWith(x);
    match ev
    case EvStart(def, vars, key) => StartEventWith(env, db, x, def, vars, key);
    case EvPoll(worker, claimed, seconds) => PollWith(db, x, worker, claimed, seconds);
    case EvComplete(j, worker, vars) => CompleteWith(env, db, x, j, worker, vars);
    case EvCompleteLegacy(j, worker) => LegacyWith(db, x, j, worker);
    case EvFail(j, worker, retryable) => FailJobWith(db, x, j, worker, retryable);
    case EvHeartbeat(j, worker, seconds) => HeartbeatWith(db, x, j, worker, seconds);
    case EvSweep(j) => RetryJobWith(db, x, j, true);
    case EvRetryJob(j) => RetryJobWith(db, x, j, false);
    case EvFire(t, iid) => FireWith(db, x, t, iid);
    case EvUserTask(iid, stepId, vars) => UserTaskWith(env, db, x, iid, stepId, vars);
    case EvSignal(iid, stepId, vars) => SignalWith(env, db, x, iid, stepId, vars);
    case EvCancel(iid) => CancelWith(db, x, iid);
    case EvRetryStep(iid, stepId, vars) => RetryStepWith(db, x, iid, stepId, vars);
    case EvChain(source, def) => ChainWith(env, db, x, source, def);
    case EvTick(elapsed) => TickWith(db, x, elapsed);
  }

  lemma TickWith(db: Db, x: Timers, elapsed: nat)
    ensures With(db, x).(now := With(db, x).now + elapsed) == With(db.(now := db.now + elapsed), x)
  {
  }

  // ---- dead rows ----

  predicate DeadRow(execs: Execs, row: Timer) {
    row.fired || (row.exec in execs && execs[row.exec].status != Running)
  }

  ghost predicate Dead(execs: Execs, x: Timers) {
    forall t :: t in x ==> DeadRow(execs, x[t])
  }

  /** `b` is `a` with some dead timer rows more. */
  ghost predicate Agree(a: Db, b: Db) {
    exists x :: Dead(a.execs, x) && b == With(a, x)
  }

  /** Nothing but timers differs, every timer of `a` is in `b`, and the others can never act. */
  lemma AgreeMeans(a: Db, b: Db)
    requires Agree(a, b)
    ensures b == a.(timers := b.timers) && Sub(a.timers, b.timers)
    ensures forall t :: t in b.timers && t !in a.timers ==> DeadRow(a.execs, b.timers[t])
  {
  }

  lemma DeadStays(a: Execs, b: Execs, x: Timers)
    requires Dead(a, x) && ExecsEvolve(a, b)
    ensures Dead(b, x)
  {
  }

  /** Firing a dead row that the other state no longer has changes only that row. */
  lemma DeadFires(env: Env, depth: nat, db: Db, x: Timers, t: Id, iid: Id) returns (x': Timers)
    requires Dead(db.execs, x) && t in x && t !in db.timers
    ensures Dead(db.execs, x')
    ensures Next(env, depth, With(db, x), EvFire(t, iid)) == WithResult(Next(env, depth, db, EvFire(t, iid)), x')
    ensures Next(env, depth, db, EvFire(t, iid)).Commit? ==> Next(env, depth, db, EvFire(t, iid)).db == db
  {
    hide Interrupted, WithoutStep, Dispatch;
    var row := x[t];
    assert With(db, x).timers[t] == row;
    if iid !in db.instances || row.inst != iid || row.fired || row.fireAt > db.now {
      x' := x;
    } else {
      x' := x[t := row.(fired := true)];
      assert x' + db.timers == (x + db.timers)[t := row.(fired := true)];
    }
  }

  /** A transaction on states that agree has the same result, up to dead rows. */
  lemma NextAgrees(env: Env, depth: nat, db: Db, x: Timers, ev: Event) returns (x': Timers)
    requires Inv(db) && Dead(db.execs, x) && !ev.EvHousekeep?
    ensures Next(env, depth, With(db, x), ev) == WithResult(Next(env, depth, db, ev), x')
    ensures var r := Next(env, depth, db, ev); r.Commit? ==> Dead(r.db.execs, x')
  {
    hide Inv, Dead, Next, With, BodyOf, Perform, InstancesEvolve, JobsEvolve, ChainsEvolve, ExecsEvolve;
    if ev.EvFire? && ev.timer !in db.timers && ev.timer in x {
      x' := DeadFires(env, depth, db, x, ev.timer, ev.inst);
    } else {
      x' := x;
      BodyWith(env, db, x, ev);
      NextPerforms(env, depth, db, ev);
      NextPerforms(env, depth, With(db, x), ev);
      PerformWith(env, depth, BodyOf(env, db, ev), x);
      EventProofs.NextKept(env, depth, db, ev);
      var r := Next(env, depth, db, ev);
      if r.Commit? {
        DeadStays(db.execs, r.db.execs, x);
      }
    }
  }

  lemma Recombined(x: Timers, rows: Timers, gone: Timers, kept: Timers)
    requires rows.Keys == gone.Keys + kept.Keys && Sub(gone, rows) && Sub(kept, rows)
    ensures (x + gone) + kept == x + rows
  {
  }

  function Swept(db: Db, retention: nat): Timers {
    map t | t in db.timers && Obsolete(db, db.timers[t], retention) :: db.timers[t]
  }

  lemma SweptDead(db: Db, retention: nat)
    ensures Dead(db.execs, Swept(db, retention))
  {
  }

  lemma SweptParts(db: Db, retention: nat)
    ensures var gone, kept := Swept(db, retention), Housekeep(db, retention).timers;
            db.timers.Keys == gone.Keys + kept.Keys && Sub(gone, db.timers) && Sub(kept, db.timers)
  {
    hide Obsolete;
    var gone, kept := Swept(db, retention), Housekeep(db, retention).timers;
    forall t ensures t in db.timers.Keys <==> t in gone.Keys + kept.Keys {
    }
  }

  /** What the housekeeper deletes is dead. */
  lemma HousekeepAgrees(db: Db, x: Timers, retention: nat)
    requires Dead(db.execs, x)
    ensures Agree(Housekeep(db, retention), With(db, x))
  {
    hide Obsolete, Swept;
    var gone, kept := Swept(db, retention), Housekeep(db, retention).timers;
    SweptDead(db, retention);
    assert Dead(db.execs, x + gone);
    SweptParts(db, retention);
    Recombined(x, db.timers, gone, kept);
    assert Housekeep(db, retention) == db.(timers := kept);
    assert With(Housekeep(db, retention), x + gone) == With(db, x);
  }

  // ---- runs ----

  /** The same events without the housekeeper: its turns pass without effect. */
  function Unkept(ev: Event): Event {
    if ev.EvHousekeep? then EvTick(0) else ev
  }

  function AllUnkept(events: seq<Event>): seq<Event> {
    seq(|events|, i requires 0 <= i < |events| => Unkept(events[i]))
  }

  ghost predicate AgreeAll(a: seq<Db>, b: seq<Db>) {
    |a| == |b| && forall i :: 0 <= i < |a| ==> Agree(a[i], b[i])
  }

  /** One step of the run with the housekeeper, followed without it. */
  lemma StepAgrees(env: Env, a: Db, a': Db, b: Db, ev: Event) returns (b': Db)
    requires Inv(a) && Agree(a, b) && Steps(env, a, ev, a')
    ensures Steps(env, b, Unkept(ev), b') && Agree(a', b')
  {
    hide Inv, Dead, Next, With;
    var x :| Dead(a.execs, x) && b == With(a, x);
    if a' == a {
      b' := b;
    } else {
      var depth :| Next(env, depth, a, ev) == Commit(a');
      if ev.EvHousekeep? {
        b' := b;
        HousekeepAgrees(a, x, ev.retention);
        assert a' == Housekeep(a, ev.retention) by { NextHousekeeps(env, depth, a, ev.retention); }
      } else {
        var x' := NextAgrees(env, depth, a, x, ev);
        b' := With(a', x');
        assert Next(env, depth, b, ev) == Commit(b');
      }
    }
  }

  lemma NextHousekeeps(env: Env, depth: nat, db: Db, retention: nat)
    ensures Next(env, depth, db, EvHousekeep(retention)) == Commit(Housekeep(db, retention))
    ensures Next(env, depth, db, EvTick(0)) == Commit(db)
  {
  }

  /** One step of the run without the housekeeper, followed with it. */
  lemma StepAgreesBack(env: Env, a: Db, b: Db, b': Db, ev: Event) returns (a': Db)
    requires Inv(a) && Agree(a, b) && Steps(env, b, Unkept(ev), b')
    ensures Steps(env, a, ev, a') && Agree(a', b')
  {
    hide Inv, Dead, Next, With;
    var x :| Dead(a.execs, x) && b == With(a, x);
    if ev.EvHousekeep? {
      NextHousekeeps(env, 0, a, ev.retention);
      NextTicks(env, b, b');
      HousekeepAgrees(a, x, ev.retention);
      a' := Housekeep(a, ev.retention);
    } else if b' == b {
      a' := a;
    } else {
      var depth :| Next(env, depth, b, ev) == Commit(b');
      var x' := NextAgrees(env, depth, a, x, ev);
      a' := Next(env, depth, a, ev).db;
    }
  }

  lemma NextTicks(env: Env, b: Db, b': Db)
    requires Steps(env, b, EvTick(0), b')
    ensures b' == b
  {
  }

  lemma PrefixRun(env: Env, states: seq<Db>, events: seq<Event>)
    requires IsRun(env, states, events) && |events| > 0
    ensures IsRun(env, states[..|events|], events[..|events| - 1])
    ensures Steps(env, states[|events| - 1], events[|events| - 1], states[|events|])
  {
    hide Steps;
    forall i | 0 <= i < |events| - 1 ensures Steps(env, states[..|events|][i], events[..|events| - 1][i], states[..|events|][i + 1]) {
      assert Steps(env, states[i], events[i], states[i + 1]);
    }
    assert Steps(env, states[|events| - 1], events[|events| - 1], states[|events| - 1 + 1]);
  }

  lemma ExtendRun(env: Env, states: seq<Db>, events: seq<Event>, ev: Event, db: Db)
    requires IsRun(env, states, events) && Steps(env, states[|events|], ev, db)
    ensures IsRun(env, states + [db], events + [ev])
  {
    hide Steps;
    var s, v := states + [db], events + [ev];
    forall i | 0 <= i < |v| ensures Steps(env, s[i], v[i], s[i + 1]) {
      if i < |events| {
        assert Steps(env, states[i], events[i], states[i + 1]);
      }
    }
  }

  lemma AgreeEmpty()
    ensures Agree(EMPTY, EMPTY)
  {
    assert Dead(EMPTY.execs, map[]) && With(EMPTY, map[]) == EMPTY;
  }

  /** Every run with the housekeeper is matched by one without it that agrees state by state. */
  lemma {:induction false} WithoutHousekeeper(env: Env, states: seq<Db>, events: seq<Event>) returns (others: seq<Db>)
    requires IsRun(env, states, events)
    ensures IsRun(env, others, AllUnkept(events)) && AgreeAll(states, others)
    decreases |events|
  {
    hide Steps, Agree, Inv;
    var n := |events|;
    if n == 0 {
      AgreeEmpty();
      others := [EMPTY];
    } else {
      PrefixRun(env, states, events);
      var before := WithoutHousekeeper(env, states[..n], events[..n - 1]);
      EngineTheorems.RunInv(env, states, events, n - 1);
      assert Agree(states[..n][n - 1], before[n - 1]);
      var b := StepAgrees(env, states[n - 1], states[n], before[n - 1], events[n - 1]);
      others := before + [b];
      ExtendRun(env, before, AllUnkept(events[..n - 1]), Unkept(events[n - 1]), b);
      assert AllUnkept(events) == AllUnkept(events[..n - 1]) + [Unkept(events[n - 1])];
      forall i | 0 <= i < |states| ensures Agree(states[i], others[i]) {
        if i < n {
          assert Agree(states[..n][i], before[i]);
        }
      }
    }
  }

  /** And wherever housekeeping turns are added to a run, there is such a run that agrees with it. */
  lemma {:induction false} WithHousekeeper(env: Env, others: seq<Db>, events: seq<Event>) returns (states: seq<Db>)
    requires IsRun(env, others, AllUnkept(events))
    ensures IsRun(env, states, events) && AgreeAll(states, others)
    decreases |events|
  {
    hide Steps, Agree, Inv;
    var n := |events|;
    if n == 0 {
      AgreeEmpty();
      states := [EMPTY];
    } else {
      PrefixRun(env, others, AllUnkept(events));
      assert AllUnkept(events)[..n - 1] == AllUnkept(events[..n - 1]);
      var before := WithHousekeeper(env, others[..n], events[..n - 1]);
      EngineTheorems.RunInv(env, before, events[..n - 1], n - 1);
      assert Agree(before[n - 1], others[..n][n - 1]);
      var a := StepAgreesBack(env, before[n - 1], others[n - 1], others[n], events[n - 1]);
      states := before + [a];
      ExtendRun(env, before, events[..n - 1], events[n - 1], a);
      assert events == events[..n - 1] + [events[n - 1]];
      forall i | 0 <= i < |others| ensures Agree(states[i], others[i]) {
        if i < n {
          assert Agree(before[i], others[..n][i]);
        }
      }
    }
  }
}
