/**
 One transaction in two stages: what it does by itself, and the one dispatch it may end with.
 Likewise one handler: what it does by itself, and the steps it hands over to. The later parts
 reason about these stages instead of walking through the interpreter's cases again.
 */
module Plans {
  import opened Values
  import opened Definitions
  import opened Database
  import opened Interpreter
  import opened Transactions
  import Transformations

  // ---- what a handler does before it dispatches again ----

  /** A handler stops, hands over to one step, or hands over to several. */
  datatype Plan =
    | Stop(o: Outcome)
    | Go(db: Db, mem: Instance, next: string)
    | Split(db: Db, mem: Instance, branches: seq<string>)

  ghost function PlanOf(env: Env, db: Db, iid: Id, mem: Instance, step: Step, exec: Id): Plan
    requires exec in db.execs
  {
    match step.typ
    case Decision =>
      (match Choose(env.eval, step.branches, mem.vars)
       case NoBranch => Stop(FailStep(db, iid, mem, step.id))
       case Take(target) => Go(SetRunning(db, iid, step.id, Succeeded), Left(mem, step), target))
    case Transformation =>
      (match Transformations.Run(step.transformations, env.eval, env.clockText(db.now),
                                 env.order(exec, 0, step.transformations.Keys), mem.vars, map[])
       case Failed => Stop(FailStep(db, iid, mem, step.id))
       case Done(vars, delta) =>
         Go(SetExec(PatchVars(db, iid, delta), exec, Succeeded), Left(mem.(vars := vars), step), step.nextStep))
    case DecisionTable =>
      (match TableOutcome(env, exec, db.now, step, mem.vars)
       case Failed(_) => Stop(FailStep(db, iid, mem, step.id))
       case Outputs(row) =>
         Go(SetRunning(PatchVars(db, iid, row), iid, step.id, Succeeded), Left(mem.(vars := mem.vars + row), step), step.nextStep))
    case ParallelGateway => Split(SetRunning(db, iid, step.id, Succeeded), Left(mem, step), step.parallelNextSteps)
    case JoinGateway =>
      var gateway := GatewayFor(mem.def, step.id);
      if gateway.None? || |CompletedLeafs(db, iid, gateway.value.parallelNextSteps)| < |gateway.value.parallelNextSteps| then
        Stop(Route(env, 1, db, iid, mem, step, exec))
      else Go(PassJoin(SetExec(db, exec, Succeeded), exec), Left(mem, step), step.nextStep)
    case _ => Stop(Route(env, 1, db, iid, mem, step, exec))
  }

  ghost function Follow(env: Env, n: nat, iid: Id, plan: Plan): Outcome
    requires n > 0
  {
    match plan
    case Stop(o) => o
    case Go(db, mem, next) => Dispatch(env, n - 1, db, iid, mem, next)
    case Split(db, mem, branches) => Fork(env, n, db, iid, mem, branches)
  }

  lemma RouteFollowsPlan(env: Env, n: nat, db: Db, iid: Id, mem: Instance, step: Step, exec: Id)
    requires n > 0 && exec in db.execs
    ensures Route(env, n, db, iid, mem, step, exec) == Follow(env, n, iid, PlanOf(env, db, iid, mem, step, exec))
  {
    hide Dispatch, Fork, TableOutcome, Transformations.Run, CompletedLeafs, FailStep, Scheduled, InsertJob, InsertTask, SetStatus,
         SetRunning, SetCurrent, InsertChain, PatchVars, SetExec, Choose, GatewayFor, Left;
  }

  /** The steps a plan hands over to are the ones the definition names, and its definition is unchanged. */
  lemma PlanHandsOver(env: Env, db: Db, iid: Id, mem: Instance, step: Step, exec: Id)
    requires exec in db.execs
    ensures match PlanOf(env, db, iid, mem, step, exec)
            case Stop(o) => !o.Diverged? && (o.Ok? ==> o.mem.def == mem.def) && !(o.Err? && o.error.StepNotFound?)
            case Go(_, mem1, next) => mem1.def == mem.def && next in Handovers(step)
            case Split(_, mem1, branches) => mem1.def == mem.def && branches == Handovers(step)
  {
    hide TableOutcome, Transformations.Run, CompletedLeafs, InsertJob, InsertTask, SetStatus, Dispatch, Fork,
         SetRunning, SetCurrent, InsertChain, PatchVars, SetExec, GatewayFor, Schedule;
    if step.typ == Decision {
      var c := Choose(env.eval, step.branches, mem.vars);
      if c.Take? {
        var i := ChosenBranch(env.eval, step.branches, mem.vars);
      }
    }
  }

  /** The branch taken is the first whose expression is true, after false ones only. */
  lemma {:induction false} ChosenBranch(eval: Evaluator, branches: seq<Branch>, vars: Vars) returns (i: nat)
    requires Choose(eval, branches, vars).Take?
    ensures i < |branches| && Choose(eval, branches, vars) == Take(branches[i].target) && eval(branches[i].expr, vars) == Val(Bool(true))
    ensures forall k :: 0 <= k < i ==> eval(branches[k].expr, vars) == Val(Bool(false))
    ensures branches[i].target in Targets(branches)
  {
    if eval(branches[0].expr, vars) == Val(Bool(true)) {
      i := 0;
    } else {
      var k := ChosenBranch(eval, branches[1..], vars);
      i := k + 1;
      forall m | 0 <= m < i ensures eval(branches[m].expr, vars) == Val(Bool(false)) {
        assert m > 0 ==> branches[m] == branches[1..][m - 1];
      }
    }
    assert Targets(branches)[i] == branches[i].target;
  }

  /** Where an immediate step may hand over within the same dispatch. */
  function Handovers(step: Step): seq<string> {
    match step.typ
    case Decision => Targets(step.branches)
    case Transformation => [step.nextStep]
    case DecisionTable => [step.nextStep]
    case JoinGateway => [step.nextStep]
    case ParallelGateway => step.parallelNextSteps
    case _ => []
  }

  /** Every step an immediate step hands over to is declared. */
  predicate HandsOverDeclared(def: Definition) {
    forall s :: s in def.steps ==> forall id :: id in Handovers(s) ==> Declared(def, id)
  }

  lemma HandoverDeclared(def: Definition, step: Step, id: string)
    requires HandsOverDeclared(def) && step in def.steps && id in Handovers(step)
    ensures Declared(def, id)
  {
    hide FindStep, Handovers;
  }

  lemma EnterHasExec(db: Db, iid: Id, mem: Instance, step: Step)
    ensures db.nextId in Enter(db, iid, mem, step).execs
  {
  }

  // ---- the definition stays the same ----

  ghost predicate KeepsDef(def: Definition, o: Outcome) {
    o.Ok? ==> o.mem.def == def
  }

  lemma {:induction false} DispatchKeepsDef(env: Env, n: nat, db: Db, iid: Id, mem: Instance, stepId: string)
    ensures KeepsDef(mem.def, Dispatch(env, n, db, iid, mem, stepId))
    decreases n, 1
  {
    hide Route, PlanOf, Enter, Fork;
    var step := FindStep(mem.def, stepId);
    if n > 0 && step.Some? {
      assert db.nextId in Enter(db, iid, mem, step.value).execs by { EnterHasExec(db, iid, mem, step.value); }
      var db1, mem1 := Enter(db, iid, mem, step.value), Entered(mem, step.value);
      RouteFollowsPlan(env, n, db1, iid, mem1, step.value, db.nextId);
      PlanHandsOver(env, db1, iid, mem1, step.value, db.nextId);
      match PlanOf(env, db1, iid, mem1, step.value, db.nextId)
      case Stop(_) =>
      case Go(db2, mem2, next) => DispatchKeepsDef(env, n - 1, db2, iid, mem2, next);
      case Split(db2, mem2, branches) => ForkKeepsDef(env, n, db2, iid, mem2, branches);
    }
  }

  lemma {:induction false} ForkKeepsDef(env: Env, n: nat, db: Db, iid: Id, mem: Instance, branches: seq<string>)
    requires 0 < n
    ensures KeepsDef(mem.def, Fork(env, n, db, iid, mem, branches))
    decreases n, 0, |branches|
  {
    hide Dispatch;
    if branches != [] {
      DispatchKeepsDef(env, n - 1, db, iid, mem, branches[0]);
      var o := Dispatch(env, n - 1, db, iid, mem, branches[0]);
      if o.Ok? {
        ForkKeepsDef(env, n, o.db, iid, o.mem, branches[1..]);
      }
    }
  }

  // ---- what a transaction does before its dispatch ----

  /** A transaction settles by itself, or ends with a dispatch and perhaps an acknowledgement. */
  datatype Body =
    | Settle(r: TxResult)
    | Launch(db: Db, iid: Id, mem: Instance, stepId: string, ack: Option<Id>)

  /** The end of a transaction: `ack` is the chain request answered by the new instance. */
  function Conclude(o: Outcome, iid: Id, ack: Option<Id>): TxResult {
    match o
    case Ok(db, _) => Commit(if ack.Some? then Acknowledged(db, ack.value, iid) else db)
    case Err(e) => Aborted(e)
    case Diverged => Endless
  }

  ghost function Perform(env: Env, depth: nat, body: Body): TxResult {
    match body
    case Settle(r) => r
    case Launch(db, iid, mem, stepId, ack) => Conclude(Dispatch(env, depth, db, iid, mem, stepId), iid, ack)
  }

  function Departed(db: Db, iid: Id, mem: Instance, step: Step): Db {
    var mem1 := Leaving(mem, step);
    SetStatus(SetCurrent(db, iid, mem1.current), iid, mem1.status)
  }

  ghost function AdvanceBody(env: Env, db: Db, iid: Id, mem: Instance, step: Step): Body {
    var mem1, db1 := Leaving(mem, step), Departed(db, iid, mem, step);
    if step.branches != [] then
      match Choose(env.eval, step.branches, mem.vars)
      case NoBranch => Settle(Finish(FailStep(db1, iid, mem1, step.id)))
      case Take(target) => Launch(db1, iid, mem1, target, None)
    else if step.nextStep != "" then Launch(db1, iid, mem1, step.nextStep, None)
    else Settle(Commit(db1))
  }

  lemma AdvancePerforms(env: Env, depth: nat, db: Db, iid: Id, mem: Instance, step: Step)
    ensures Finish(Advance(env, depth, db, iid, mem, step)) == Perform(env, depth, AdvanceBody(env, db, iid, mem, step))
  {
    hide Dispatch, FailStep, Choose, SetStatus, SetCurrent, WithoutStep, Recomputed;
  }

  ghost function StartBody(db: Db, row: Instance, ack: Option<Id>): Body
    requires row.def.steps != []
  {
    Launch(Inserted(db, row), db.nextId, row, row.def.steps[0].id, ack)
  }

  ghost function CompleteBody(env: Env, db: Db, j: Id, worker: string, output: Vars): Body {
    if LockJob(db, j).None? then Settle(Rollback)
    else
      var e, iid := db.jobs[j].exec, db.jobs[j].inst;
      var found := FindStep(db.instances[iid].def, db.execs[e].stepId);
      if found.None? then Settle(Rollback)
      else if !Accepts(db, j, worker) then Settle(Commit(db))
      else
        var step := found.value;
        if step.typ == ServiceTask && step.outputsSchema.Some? && !env.conforms(step.outputsSchema.value, output) then
          Settle(Commit(SetStatus(SetExec(CancelJobs(db, e), e, Faulted), iid, Failed)))
        else
          var db1 := Merged(Closed(db, j, worker), iid, e, output);
          if step.nextStep == "" && step.branches == [] then Settle(Commit(db1))
          else AdvanceBody(env, db1, iid, db1.instances[iid], step)
  }

  ghost function FireBody(db: Db, t: Id, iid: Id): Body {
    if iid !in db.instances then Settle(Rollback)
    else if t !in db.timers || db.timers[t].inst != iid || db.timers[t].fired || db.timers[t].fireAt > db.now then
      Settle(Commit(db))
    else
      var timer := db.timers[t];
      var db1 := db.(timers := db.timers[t := timer.(fired := true)]);
      var mem := db.instances[iid];
      if timer.exec !in db.execs then Settle(Rollback)
      else if !InFlight(mem.status) || db.execs[timer.exec].status != Running then Settle(Commit(db1))
      else if timer.interrupting then
        Launch(Interrupted(db1, timer.exec), iid,
               mem.(current := WithoutStep(mem.current, db.execs[timer.exec].stepId)), timer.target, None)
      else Launch(db1, iid, mem, timer.target, None)
  }

  ghost function UserTaskBody(env: Env, db: Db, iid: Id, stepId: string, vars: Vars): Body {
    if iid !in db.instances then Settle(Rollback)
    else
      var row := db.instances[iid];
      var found := FindStep(row.def, stepId);
      if found.None? || found.value.typ != UserTask || !InFlight(row.status) || OpenTasks(db, iid, stepId) == {} then
        Settle(Rollback)
      else
        var db1 := PatchVars(SetRunning(CompleteTasks(db, iid, stepId), iid, stepId, Succeeded), iid, vars);
        AdvanceBody(env, db1, iid, row.(vars := row.vars + vars), found.value)
  }

  ghost function SignalBody(env: Env, db: Db, iid: Id, stepId: string, vars: Vars): Body {
    if iid !in db.instances then Settle(Rollback)
    else
      var row := db.instances[iid];
      var found := FindStep(row.def, stepId);
      if found.None? || found.value.typ != Wait || !InFlight(row.status) || stepId !in row.current
         || RunningOf(db, iid, stepId) == {} then Settle(Rollback)
      else
        var db1 := PatchVars(SetRunning(db, iid, stepId, Succeeded), iid, vars);
        AdvanceBody(env, db1, iid, row.(vars := row.vars + vars), found.value)
  }

  ghost function RetryStepBody(db: Db, iid: Id, stepId: string, patch: Vars): Body {
    if iid !in db.instances then Settle(Rollback)
    else
      var row := db.instances[iid];
      if FindStep(row.def, stepId).None? || row.status != Failed then Settle(Rollback)
      else if !exists e :: IsLatestExec(db, iid, stepId, e) && db.execs[e].status == Faulted then Settle(Rollback)
      else if KeyTaken(db, iid, row.def, row.businessKey) then Settle(Rollback)
      else
        Launch(PatchVars(SetStatus(db, iid, Active), iid, patch), iid, row.(status := Active, vars := row.vars + patch), stepId, None)
  }

  ghost function ChainBody(env: Env, db: Db, source: Id, def: Definition): Body {
    if source !in db.chains || db.chains[source].child.Some? then Settle(Commit(db))
    else
      var request := db.chains[source];
      if def.id != request.target || !Startable(env, def, request.vars)
         || KeyTaken(db, db.nextId, def, NormalKey(request.businessKey)) then Settle(Rollback)
      else StartBody(db, NewInstance(def, request.vars, request.businessKey, Some(source)), Some(source))
  }

  ghost function BodyOf(env: Env, db: Db, ev: Event): Body {
    match ev
    case EvStart(def, vars, key) =>
      if !Startable(env, def, vars) || KeyTaken(db, db.nextId, def, NormalKey(key)) then Settle(Rollback)
      else StartBody(db, NewInstance(def, vars, key, None), None)
    case EvComplete(j, worker, vars) => CompleteBody(env, db, j, worker, vars)
    case EvFire(t, iid) => FireBody(db, t, iid)
    case EvUserTask(iid, stepId, vars) => UserTaskBody(env, db, iid, stepId, vars)
    case EvSignal(iid, stepId, vars) => SignalBody(env, db, iid, stepId, vars)
    case EvRetryStep(iid, stepId, vars) => RetryStepBody(db, iid, stepId, vars)
    case EvChain(source, def) => ChainBody(env, db, source, def)
    case _ => Settle(Next(env, 0, db, ev))
  }

  lemma CompletePerforms(env: Env, depth: nat, db: Db, j: Id, worker: string, output: Vars)
    ensures CompleteJob(env, depth, db, j, worker, output) == Perform(env, depth, CompleteBody(env, db, j, worker, output))
  {
    hide Perform, Advance, AdvanceBody, Finish, SetStatus, CancelJobs, FindStep, Accepts;
    if LockJob(db, j).Some? {
      var e, iid := db.jobs[j].exec, db.jobs[j].inst;
      var found := FindStep(db.instances[iid].def, db.execs[e].stepId);
      var db1 := Merged(Closed(db, j, worker), iid, e, output);
      if found.Some? {
        AdvancePerforms(env, depth, db1, iid, db1.instances[iid], found.value);
      }
    }
    SettlePerforms(env, depth);
  }

  lemma SettlePerforms(env: Env, depth: nat)
    ensures forall r :: Perform(env, depth, Settle(r)) == r
  {
  }

  lemma FirePerforms(env: Env, depth: nat, db: Db, t: Id, iid: Id)
    ensures FireTimer(env, depth, db, t, iid) == Perform(env, depth, FireBody(db, t, iid))
  {
    hide Dispatch, Interrupted, WithoutStep;
  }

  lemma UserTaskPerforms(env: Env, depth: nat, db: Db, iid: Id, stepId: string, vars: Vars)
    ensures CompleteUserTask(env, depth, db, iid, stepId, vars) == Perform(env, depth, UserTaskBody(env, db, iid, stepId, vars))
  {
    hide Perform, Advance, AdvanceBody, Finish, SetRunning, CompleteTasks, PatchVars, FindStep, OpenTasks;
    SettlePerforms(env, depth);
    if iid in db.instances {
      var row := db.instances[iid];
      var found := FindStep(row.def, stepId);
      if found.Some? {
        var db1 := PatchVars(SetRunning(CompleteTasks(db, iid, stepId), iid, stepId, Succeeded), iid, vars);
        AdvancePerforms(env, depth, db1, iid, row.(vars := row.vars + vars), found.value);
      }
    }
  }

  lemma SignalPerforms(env: Env, depth: nat, db: Db, iid: Id, stepId: string, vars: Vars)
    ensures SignalWait(env, depth, db, iid, stepId, vars) == Perform(env, depth, SignalBody(env, db, iid, stepId, vars))
  {
    hide Perform, Advance, AdvanceBody, Finish, SetRunning, PatchVars, FindStep, RunningOf;
    SettlePerforms(env, depth);
    if iid in db.instances {
      var row := db.instances[iid];
      var found := FindStep(row.def, stepId);
      if found.Some? {
        var db1 := PatchVars(SetRunning(db, iid, stepId, Succeeded), iid, vars);
        AdvancePerforms(env, depth, db1, iid, row.(vars := row.vars + vars), found.value);
      }
    }
  }

  /** Every event is its body followed by at most one dispatch. */
  lemma NextPerforms(env: Env, depth: nat, db: Db, ev: Event)
    ensures Next(env, depth, db, ev) == Perform(env, depth, BodyOf(env, db, ev))
  {
    hide CompleteJob, CompleteBody, FireTimer, FireBody, CompleteUserTask, UserTaskBody, SignalWait, SignalBody, Dispatch, Startable,
         KeyTaken, FindStep, IsLatestExec;
    match ev
    case EvComplete(j, worker, vars) => CompletePerforms(env, depth, db, j, worker, vars);
    case EvFire(t, iid) => FirePerforms(env, depth, db, t, iid);
    case EvUserTask(iid, stepId, vars) => UserTaskPerforms(env, depth, db, iid, stepId, vars);
    case EvSignal(iid, stepId, vars) => SignalPerforms(env, depth, db, iid, stepId, vars);
    case _ =>
  }

  // ---- events that touch no execution ----

  predicate IsSideline(ev: Event) {
    ev.EvPoll? || ev.EvHeartbeat? || ev.EvSweep? || ev.EvRetryJob? || ev.EvCancel? || ev.EvHousekeep? || ev.EvTick?
  }

  /** Executions, tasks, join history and definitions stay, and no timer appears. */
  ghost predicate Sideline(db: Db, d: Db) {
    && d.execs == db.execs && d.tasks == db.tasks && d.passed == db.passed && db.nextId <= d.nextId
    && d.instances.Keys == db.instances.Keys && (forall i :: i in db.instances ==> d.instances[i].def == db.instances[i].def)
    && (forall t :: t in d.timers ==> t in db.timers && d.timers[t] == db.timers[t])
  }

  ghost predicate SidelineResult(db: Db, r: TxResult) {
    !r.Aborted? && !r.Endless? && (r.Commit? ==> Sideline(db, r.db))
  }

  lemma PollSideline(db: Db, worker: string, claimed: set<Id>, seconds: int)
    ensures SidelineResult(db, Poll(db, worker, claimed, seconds))
  {
  }

  lemma HeartbeatSideline(db: Db, j: Id, worker: string, seconds: int)
    ensures SidelineResult(db, Heartbeat(db, j, worker, seconds))
  {
    hide LockJob;
  }

  lemma RetrySideline(db: Db, j: Id, expiredOnly: bool)
    ensures SidelineResult(db, RetryJob(db, j, expiredOnly))
  {
    hide LockJob;
  }

  lemma CancelSideline(db: Db, iid: Id)
    ensures SidelineResult(db, Cancel(db, iid))
  {
  }

  lemma HousekeepSideline(db: Db, retention: nat)
    ensures SidelineResult(db, Commit(Housekeep(db, retention)))
  {
    hide Obsolete;
  }

  lemma SidelineEvents(env: Env, db: Db, ev: Event)
    requires IsSideline(ev)
    ensures SidelineResult(db, Next(env, 0, db, ev))
  {
    hide Poll, Heartbeat, RetryJob, Cancel, Housekeep, SidelineResult;
    match ev
    case EvPoll(worker, claimed, seconds) => PollSideline(db, worker, claimed, seconds);
    case EvHeartbeat(j, worker, seconds) => HeartbeatSideline(db, j, worker, seconds);
    case EvSweep(j) => RetrySideline(db, j, true);
    case EvRetryJob(j) => RetrySideline(db, j, false);
    case EvCancel(iid) => CancelSideline(db, iid);
    case EvHousekeep(retention) => HousekeepSideline(db, retention);
    case EvTick(elapsed) => TickSideline(db, elapsed);
  }

  lemma TickSideline(db: Db, elapsed: nat)
    ensures SidelineResult(db, Commit(db.(now := db.now + elapsed)))
  {
  }
}
