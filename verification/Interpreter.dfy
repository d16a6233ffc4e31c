/**
 The step interpreter that runs inside every engine transaction: dispatchStep, routeStep, the
 step handlers and advancePastStep (instance/lifecycle.go, instance/handlers.go).

 `mem` is the in-memory `inst` of the Go code and `db` the transaction's view of the tables;
 the handlers write some changes to only one of the two, and so do these functions.

 Dispatching recurses through the definition and the Go code has no bound on that recursion.
 `depth` counts the calls still allowed: a result other than `Diverged` is the result of the
 unbounded recursion, and does not change when more depth is allowed (Termination.DepthIrrelevant).
 */
module Interpreter {
  import opened Values
  import opened Definitions
  import opened Database
  import DecisionTables
  import Transformations

  /**
   What the engine takes from outside: the expression evaluator, the text of `now()`, the
   ISO-8601 duration parser, schema validation, and the runtime's choice of map iteration
   orders (by step execution and rule number).
   */
  datatype Env = Env(
    eval: Evaluator,
    clockText: int -> Value,
    duration: string -> Option<nat>,
    conforms: (Schema, Vars) -> bool,
    order: (Id, nat, set<string>) -> seq<string>)

  datatype Error = StepNotFound(id: string) | UnsupportedStep | NoGatewayFor(join: string) | BadDuration

  datatype Outcome = Ok(db: Db, mem: Instance) | Err(error: Error) | Diverged

  datatype Choice = Take(target: string) | NoBranch

  /** Branch expressions in document order; the first true one wins, a non-bool or error fails. */
  function Choose(eval: Evaluator, branches: seq<Branch>, vars: Vars): Choice {
    if branches == [] then NoBranch
    else match eval(branches[0].expr, vars)
      case EvalError => NoBranch
      case Val(v) =>
        if !v.Bool? then NoBranch
        else if v.b then Take(branches[0].target)
        else Choose(eval, branches[1..], vars)
  }

  /** scheduleBoundaryEvents: one row per TIMER event; a bad duration aborts the transaction. */
  function Schedule(env: Env, db: Db, iid: Id, exec: Id, events: seq<BoundaryEvent>): Option<Db>
    decreases |events|
  {
    if events == [] then Some(db)
    else if events[0].kind != "TIMER" then Schedule(env, db, iid, exec, events[1..])
    else
      var d := env.duration(events[0].duration);
      if d.None? then None
      else
        var row := Timer(iid, exec, events[0].target, db.now + d.value, events[0].interrupting, false);
        Schedule(env, InsertTimer(db, row), iid, exec, events[1..])
  }

  function Scheduled(env: Env, db: Db, iid: Id, mem: Instance, exec: Id, step: Step): Outcome {
    var s := Schedule(env, db, iid, exec, step.boundaryEvents);
    if s.None? then Err(BadDuration) else Ok(s.value, mem)
  }

  /** The iteration orders of the rules' cells. */
  function TableOrders(env: Env, exec: Id, rules: seq<DecisionTables.Rule>): nat -> seq<string> {
    (i: nat) => env.order(exec, i, if i < |rules| then rules[i].cells.Keys else {})
  }

  /** The outcome of a decision table; a code outside the nine collapses to no outputs. */
  ghost function TableOutcome(env: Env, exec: Id, now: int, step: Step, vars: Vars): DecisionTables.Outcome {
    if step.rules.None? then DecisionTables.Failed(DecisionTables.NoRuleMatched)
    else
      var rules := step.rules.value;
      var policy := PolicyOf(step.hitPolicy);
      var o := Decided(env, exec, now, rules, if policy.Some? then policy.value else DecisionTables.F, TableOrders(env, exec, rules), vars);
      if policy.None? && o.Outputs? then DecisionTables.Outputs(map[]) else o
  }

  /** The unique outcome DecisionTables.Decides allows. */
  ghost function Decided(env: Env, exec: Id, now: int, rules: seq<DecisionTables.Rule>, policy: DecisionTables.Policy,
                         orders: nat -> seq<string>, vars: Vars): DecisionTables.Outcome
  {
    if exists o :: DecisionTables.Decides(rules, policy, orders, env.eval, env.clockText(now), vars, o) then
      var o :| DecisionTables.Decides(rules, policy, orders, env.eval, env.clockText(now), vars, o);
      o
    else DecisionTables.Failed(DecisionTables.NoRuleMatched)
  }

  /** failInstance: the RUNNING executions of the step and the instance. */
  function FailStep(db: Db, iid: Id, mem: Instance, stepId: string): Outcome {
    Ok(SetStatus(SetRunning(db, iid, stepId, Faulted), iid, Failed), mem.(status := Failed))
  }

  /** The step_execution row and the current_step_ids of one dispatch. */
  function Enter(db: Db, iid: Id, mem: Instance, step: Step): Db {
    SetCurrent(InsertExec(db, iid, step, |ExecsOf(db, iid, step.id)| + 1), iid, WithStep(mem.current, step.id))
  }

  function Entered(mem: Instance, step: Step): Instance {
    mem.(current := WithStep(mem.current, step.id))
  }

  function Left(mem: Instance, step: Step): Instance {
    mem.(current := WithoutStep(mem.current, step.id))
  }

  /** dispatchStep. */
  ghost function Dispatch(env: Env, depth: nat, db: Db, iid: Id, mem: Instance, stepId: string): Outcome
    decreases depth, 1, 0
  {
    if depth == 0 then Diverged
    else
      var step := FindStep(mem.def, stepId);
      if step.None? then Err(StepNotFound(stepId))
      else Route(env, depth, Enter(db, iid, mem, step.value), iid, Entered(mem, step.value), step.value, db.nextId)
  }

  /** routeStep and the handlers; `exec` is the execution just entered. */
  ghost function Route(env: Env, depth: nat, db: Db, iid: Id, mem: Instance, step: Step, exec: Id): Outcome
    requires depth > 0 && exec in db.execs
    decreases depth, 0, |step.parallelNextSteps| + 1
  {
    match step.typ
    case ServiceTask =>
      Scheduled(env, InsertJob(db, iid, exec, if step.jobType == "" then step.id else step.jobType,
                               step.retryCount, mem.vars), iid, mem, exec, step)
    case UserTask =>
      Scheduled(env, SetStatus(InsertTask(db, iid, exec, step.id), iid, Waiting), iid, mem.(status := Waiting), exec, step)
    case Wait =>
      Scheduled(env, SetStatus(db, iid, Waiting), iid, mem.(status := Waiting), exec, step)
    case Decision =>
      (match Choose(env.eval, step.branches, mem.vars)
       case NoBranch => FailStep(db, iid, mem, step.id)
       case Take(target) =>
         Dispatch(env, depth - 1, SetRunning(db, iid, step.id, Succeeded), iid, Left(mem, step), target))
    case Transformation =>
      (match Transformations.Run(step.transformations, env.eval, env.clockText(db.now),
                                 env.order(exec, 0, step.transformations.Keys), mem.vars, map[])
       case Failed => FailStep(db, iid, mem, step.id)
       case Done(vars, delta) =>
         Dispatch(env, depth - 1, SetExec(PatchVars(db, iid, delta), exec, Succeeded), iid,
                  Left(mem.(vars := vars), step), step.nextStep))
    case DecisionTable =>
      (match TableOutcome(env, exec, db.now, step, mem.vars)
       case Failed(_) => FailStep(db, iid, mem, step.id)
       case Outputs(row) =>
         Dispatch(env, depth - 1, SetRunning(PatchVars(db, iid, row), iid, step.id, Succeeded), iid,
                  Left(mem.(vars := mem.vars + row), step), step.nextStep))
    case ParallelGateway =>
      Fork(env, depth, SetRunning(db, iid, step.id, Succeeded), iid, Left(mem, step), step.parallelNextSteps)
    case JoinGateway =>
      var gateway := GatewayFor(mem.def, step.id);
      if gateway.None? then Err(NoGatewayFor(step.id))
      else
        var arrived := |CompletedLeafs(db, iid, gateway.value.parallelNextSteps)|;
        var closed := SetExec(db, exec, Succeeded);
        if arrived < |gateway.value.parallelNextSteps| then Ok(closed, mem)
        else Dispatch(env, depth - 1, PassJoin(closed, exec), iid, Left(mem, step), step.nextStep)
    case End =>
      var out := Left(mem, step).(status := Completed);
      var done := SetStatus(SetCurrent(SetExec(db, exec, Succeeded), iid, out.current), iid, Completed);
      if mem.def.autoStartNextWorkflow && mem.def.nextWorkflowId != "" then
        Ok(InsertChain(done, iid, Chain(mem.def.nextWorkflowId, mem.vars, mem.businessKey, None)), out)
      else Ok(done, out)
    case Unsupported(_) => Err(UnsupportedStep)
  }

  /** The branch loop of a parallel gateway: all branches are dispatched, one after the other. */
  ghost function Fork(env: Env, depth: nat, db: Db, iid: Id, mem: Instance, branches: seq<string>): Outcome
    requires depth > 0
    decreases depth, 0, |branches|
  {
    if branches == [] then Ok(db, mem)
    else match Dispatch(env, depth - 1, db, iid, mem, branches[0])
      case Ok(db1, mem1) => Fork(env, depth, db1, iid, mem1, branches[1..])
      case Err(e) => Err(e)
      case Diverged => Diverged
  }

  /** recomputeInstanceStatus over the remaining current steps. */
  predicate SomeWaiting(def: Definition, ids: seq<string>) {
    exists i :: 0 <= i < |ids| && FindStep(def, ids[i]).Some? && FindStep(def, ids[i]).value.typ in {UserTask, Wait}
  }

  function Recomputed(def: Definition, ids: seq<string>): InstanceStatus {
    if SomeWaiting(def, ids) then Waiting else Active
  }

  /** The instance once the finished step is no longer current. */
  function Leaving(mem: Instance, step: Step): Instance {
    var ids := WithoutStep(mem.current, step.id);
    mem.(current := ids, status := Recomputed(mem.def, ids))
  }

  /** advancePastStep: leave the finished step and dispatch what follows it. */
  ghost function Advance(env: Env, depth: nat, db: Db, iid: Id, mem: Instance, step: Step): Outcome {
    var mem1 := Leaving(mem, step);
    var db1 := SetStatus(SetCurrent(db, iid, mem1.current), iid, mem1.status);
    if step.branches != [] then
      match Choose(env.eval, step.branches, mem.vars)
      case NoBranch => FailStep(db1, iid, mem1, step.id)
      case Take(target) => Dispatch(env, depth, db1, iid, mem1, target)
    else if step.nextStep != "" then Dispatch(env, depth, db1, iid, mem1, step.nextStep)
    else Ok(db1, mem1)
  }
}
