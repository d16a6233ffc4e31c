/**
 What each handler does once its step is entered: how its execution ends, where the instance goes
 on, and with which data.
 */
module HandlerEffects {
  import opened Values
  import opened Definitions
  import opened Database
  import opened Interpreter
  import opened Invariants
  import opened Effects
  import opened TransactionEffects
  import Plans
  import Joins
  import TableLaws
  import Transformations
  import DecisionTables

  /** The instance with `patch` merged and the step left. */
  ghost predicate LeavesWith(before: Instance, mem: Instance, step: Step, patch: Vars) {
    && mem == before.(vars := mem.vars, current := mem.current)
    && Overlaid(before.vars, patch, mem.vars)
    && (forall id :: id in mem.current <==> id in before.current && id != step.id)
  }

  ghost predicate ClosedAs(a: Db, b: Db, exec: Id, status: ExecStatus) {
    exec in a.execs && exec in b.execs && b.execs[exec] == a.execs[exec].(status := status)
  }

  /** The execution is COMPLETED, `patch` is merged, and `next` is entered. */
  ghost predicate HandsOn(env: Env, a: Db, b: Db, iid: Id, before: Instance, step: Step, exec: Id, patch: Vars, next: string) {
    ClosedAs(a, b, exec, Succeeded) && exists mem :: LeavesWith(before, mem, step, patch) && Launched(env, a, b, a.nextId, iid, mem, next)
  }

  /** The execution and the instance fail, and nothing is entered. */
  ghost predicate FailsHere(a: Db, b: Db, iid: Id, before: Instance, after: Instance, exec: Id) {
    && ClosedAs(a, b, exec, Faulted) && after == before.(status := Failed)
    && b == a.(execs := b.execs, instances := b.instances)
    && iid in a.instances && b.instances == a.instances[iid := a.instances[iid].(status := Failed)]
  }

  ghost predicate DecisionHandled(env: Env, a: Db, b: Db, iid: Id, before: Instance, after: Instance, step: Step, exec: Id) {
    if exists i :: IsFirstTrue(env.eval, step.branches, before.vars, i) then
      exists i :: IsFirstTrue(env.eval, step.branches, before.vars, i)
                  && HandsOn(env, a, b, iid, before, step, exec, map[], step.branches[i].target)
    else FailsHere(a, b, iid, before, after, exec)
  }

  /** The data is that of Transformations.Run, which has its own laws. */
  ghost predicate TransformationHandled(env: Env, a: Db, b: Db, iid: Id, before: Instance, after: Instance, step: Step, exec: Id) {
    match Transformations.Run(step.transformations, env.eval, env.clockText(a.now),
                              env.order(exec, 0, step.transformations.Keys), before.vars, map[])
    case Failed => FailsHere(a, b, iid, before, after, exec)
    case Done(_, delta) => HandsOn(env, a, b, iid, before, step, exec, delta, step.nextStep)
  }

  /** The outputs that the rules and the text of the hit policy give are merged. */
  ghost predicate TableHandled(env: Env, a: Db, b: Db, iid: Id, before: Instance, after: Instance, step: Step, exec: Id) {
    var now := env.clockText(a.now);
    || (exists row :: TableLaws.TableGives(env.eval, now, step, before.vars, row)
                      && HandsOn(env, a, b, iid, before, step, exec, row, step.nextStep))
    || (FailsHere(a, b, iid, before, after, exec)
        && (TableLaws.BooleanCells(env.eval, step, before.vars) ==> forall row :: !TableLaws.TableGives(env.eval, now, step, before.vars, row)))
  }

  /** Every branch is entered, in the order of the list. */
  ghost predicate GatewayHandled(a: Db, b: Db, iid: Id, step: Step, exec: Id) {
    ClosedAs(a, b, exec, Succeeded) && EnteredInTurn(b, a.nextId, iid, step.parallelNextSteps)
  }

  /** The join goes on exactly when the entries of its gateway are distinct and all COMPLETED. */
  ghost predicate JoinHandled(env: Env, a: Db, b: Db, iid: Id, before: Instance, after: Instance, step: Step, exec: Id) {
    var gateway := GatewayFor(before.def, step.id);
    && gateway.Some?
    && if NoDup(gateway.value.parallelNextSteps) && forall id :: id in gateway.value.parallelNextSteps ==> Joins.Done(a.execs, iid, id)
       then HandsOn(env, a, b, iid, before, step, exec, map[], step.nextStep)
       else after == before && exec in a.execs && b == a.(execs := a.execs[exec := a.execs[exec].(status := Succeeded)])
  }

  /** A state in which a handler begins. */
  ghost predicate Begins(db: Db, iid: Id, mem: Instance, step: Step, exec: Id) {
    Entering(db, iid, mem, step, exec) && Stored(db, iid, mem)
  }

  ghost predicate Handled(env: Env, a: Db, b: Db, iid: Id, before: Instance, after: Instance, step: Step, exec: Id) {
    match step.typ
    case Decision => DecisionHandled(env, a, b, iid, before, after, step, exec)
    case Transformation => TransformationHandled(env, a, b, iid, before, after, step, exec)
    case DecisionTable => TableLaws.Visits(env, exec, step) ==> TableHandled(env, a, b, iid, before, after, step, exec)
    case ParallelGateway => GatewayHandled(a, b, iid, step, exec)
    case JoinGateway => JoinHandled(env, a, b, iid, before, after, step, exec)
    case _ => true
  }

  // ---- failing ----

  lemma FailRows(db: Db, iid: Id, mem: Instance, step: Step, exec: Id)
    requires Begins(db, iid, mem, step, exec)
    ensures var o := FailStep(db, iid, mem, step.id); o.Ok? && FailsHere(db, o.db, iid, mem, o.mem, exec)
  {
    hide FindStep;
  }

  // ---- handing on ----

  /** The rows and the instance a handler hands over. */
  ghost predicate Prepared(a: Db, d: Db, iid: Id, before: Instance, mem: Instance, step: Step, exec: Id, patch: Vars) {
    && SameKeys(a, d) && d.nextId == a.nextId && Stored(d, iid, mem) && ClosedAs(a, d, exec, Succeeded) && exec < a.nextId
    && LeavesWith(before, mem, step, patch)
  }

  lemma ReadyHandsOn(env: Env, depth: nat, a: Db, d: Db, iid: Id, before: Instance, mem: Instance, step: Step, exec: Id, patch: Vars, next: string)
    requires Prepared(a, d, iid, before, mem, step, exec, patch) && Dispatch(env, depth, d, iid, mem, next).Ok?
    ensures HandsOn(env, a, Dispatch(env, depth, d, iid, mem, next).db, iid, before, step, exec, patch, next)
  {
    hide Dispatch, Launched, LeavesWith, Adds, SameKeys, Stored;
    DispatchLaunches(env, depth, a, d, iid, mem, next);
    FinishedKept(env, mem.def, iid, d, Dispatch(env, depth, d, iid, mem, next).db, exec);
  }

  lemma ClosedReady(db: Db, iid: Id, mem: Instance, step: Step, exec: Id)
    requires Begins(db, iid, mem, step, exec)
    ensures Prepared(db, SetRunning(db, iid, step.id, Succeeded), iid, mem, Left(mem, step), step, exec, map[])
    ensures Prepared(db, PassJoin(SetExec(db, exec, Succeeded), exec), iid, mem, Left(mem, step), step, exec, map[])
  {
    hide FindStep;
  }

  lemma PatchedReady(db: Db, iid: Id, mem: Instance, step: Step, exec: Id, patch: Vars)
    requires Begins(db, iid, mem, step, exec)
    ensures Prepared(db, SetRunning(PatchVars(db, iid, patch), iid, step.id, Succeeded), iid, mem, Left(mem.(vars := mem.vars + patch), step), step, exec, patch)
    ensures exec in PatchVars(db, iid, patch).execs
    ensures Prepared(db, SetExec(PatchVars(db, iid, patch), exec, Succeeded), iid, mem, Left(mem.(vars := mem.vars + patch), step), step, exec, patch)
  {
    hide FindStep;
  }

  // ---- the handlers ----

  lemma DecisionHandles(env: Env, depth: nat, a: Db, iid: Id, mem: Instance, step: Step, exec: Id)
    requires depth > 0 && exec in a.execs && Begins(a, iid, mem, step, exec) && step.typ == Decision
    ensures var o := Route(env, depth, a, iid, mem, step, exec); o.Ok? ==> DecisionHandled(env, a, o.db, iid, mem, o.mem, step, exec)
  {
    hide Begins, Choose, Dispatch, SetRunning, FailStep, HandsOn, FailsHere, IsFirstTrue, Prepared, Left;
    ChoiceMeans(env.eval, step.branches, mem.vars);
    var o := Route(env, depth, a, iid, mem, step, exec);
    FailRows(a, iid, mem, step, exec);
    if o.Ok? && Choose(env.eval, step.branches, mem.vars).Take? {
      ClosedReady(a, iid, mem, step, exec);
      var target := Choose(env.eval, step.branches, mem.vars).target;
      ReadyHandsOn(env, depth - 1, a, SetRunning(a, iid, step.id, Succeeded), iid, mem, Left(mem, step), step, exec, map[], target);
    }
  }

  lemma TransformationHandles(env: Env, depth: nat, a: Db, iid: Id, mem: Instance, step: Step, exec: Id)
    requires depth > 0 && exec in a.execs && Begins(a, iid, mem, step, exec) && step.typ == Transformation
    ensures var o := Route(env, depth, a, iid, mem, step, exec); o.Ok? ==> TransformationHandled(env, a, o.db, iid, mem, o.mem, step, exec)
  {
    hide Begins, Dispatch, SetExec, PatchVars, FailStep, HandsOn, FailsHere, Prepared, WithoutStep, Transformations.Run;
    var order := env.order(exec, 0, step.transformations.Keys);
    var r := Transformations.Run(step.transformations, env.eval, env.clockText(a.now), order, mem.vars, map[]);
    var o := Route(env, depth, a, iid, mem, step, exec);
    FailRows(a, iid, mem, step, exec);
    if o.Ok? && r.Done? {
      assert mem.vars + map[] == mem.vars;
      Transformations.StoredEqualsInMemory(step.transformations, env.eval, env.clockText(a.now), order, mem.vars, map[], mem.vars);
      PatchedReady(a, iid, mem, step, exec, r.delta);
      ReadyHandsOn(env, depth - 1, a, SetExec(PatchVars(a, iid, r.delta), exec, Succeeded), iid, mem,
                   Left(mem.(vars := r.vars), step), step, exec, r.delta, step.nextStep);
    }
  }

  lemma TableHandles(env: Env, depth: nat, a: Db, iid: Id, mem: Instance, step: Step, exec: Id)
    requires depth > 0 && exec in a.execs && Begins(a, iid, mem, step, exec) && step.typ == DecisionTable && TableLaws.Visits(env, exec, step)
    ensures var o := Route(env, depth, a, iid, mem, step, exec); o.Ok? ==> TableHandled(env, a, o.db, iid, mem, o.mem, step, exec)
  {
    hide Begins, Dispatch, SetRunning, PatchVars, FailStep, HandsOn, FailsHere, Prepared, WithoutStep, TableOutcome, TableLaws.TableGives, TableLaws.Visits,
         TableLaws.BooleanCells;
    var t := TableOutcome(env, exec, a.now, step, mem.vars);
    var o := Route(env, depth, a, iid, mem, step, exec);
    var now, boolean := env.clockText(a.now), TableLaws.BooleanCells(env.eval, step, mem.vars);
    forall row
      ensures t == DecisionTables.Outputs(row) ==> TableLaws.TableGives(env.eval, now, step, mem.vars, row)
      ensures boolean && TableLaws.TableGives(env.eval, now, step, mem.vars, row) ==> t == DecisionTables.Outputs(row)
    {
      TableLaws.TableByCode(env, exec, a.now, step, mem.vars, row);
    }
    FailRows(a, iid, mem, step, exec);
    if o.Ok? && t.Outputs? {
      PatchedReady(a, iid, mem, step, exec, t.row);
      ReadyHandsOn(env, depth - 1, a, SetRunning(PatchVars(a, iid, t.row), iid, step.id, Succeeded), iid, mem,
                   Left(mem.(vars := mem.vars + t.row), step), step, exec, t.row, step.nextStep);
    }
  }

  lemma GatewayHandles(env: Env, depth: nat, a: Db, iid: Id, mem: Instance, step: Step, exec: Id)
    requires depth > 0 && exec in a.execs && Begins(a, iid, mem, step, exec) && step.typ == ParallelGateway
    ensures var o := Route(env, depth, a, iid, mem, step, exec); o.Ok? ==> GatewayHandled(a, o.db, iid, step, exec)
  {
    var o := Route(env, depth, a, iid, mem, step, exec);
    if o.Ok? {
      hide Begins, Fork, SetRunning, Prepared, WithoutStep, EnteredInTurn, Adds, Tracks;
      ClosedReady(a, iid, mem, step, exec);
      var d, m := SetRunning(a, iid, step.id, Succeeded), Left(mem, step);
      PreparedRow(a, d, iid, mem, m, step, exec, map[]);
      GatewayTracks(a, iid, mem, step, exec);
      ForkEffects(env, depth, d, iid, m, step.parallelNextSteps, exec, m.current);
      FinishedKept(env, m.def, iid, d, o.db, exec);
    }
  }

  lemma PreparedRow(a: Db, d: Db, iid: Id, before: Instance, mem: Instance, step: Step, exec: Id, patch: Vars)
    requires Prepared(a, d, iid, before, mem, step, exec, patch)
    ensures iid in d.instances && d.nextId == a.nextId && ClosedAs(a, d, exec, Succeeded) && exec < d.nextId
  {
  }

  /** Apart from the gateway itself, memory and row list the same current steps. */
  lemma GatewayTracks(a: Db, iid: Id, mem: Instance, step: Step, exec: Id)
    requires Begins(a, iid, mem, step, exec)
    ensures var d, m := SetRunning(a, iid, step.id, Succeeded), Left(mem, step);
            && iid in d.instances && Tracks(d, exec, iid, m.current, m.current) && Tracks(d, exec, iid, d.instances[iid].current, m.current)
  {
    hide FindStep, WithoutStep;
    var d := SetRunning(a, iid, step.id, Succeeded);
    assert exec in d.execs;
    assert Anew(d, exec, iid, step.id);
    hide Anew;
  }

  lemma JoinHandles(env: Env, depth: nat, a: Db, iid: Id, mem: Instance, step: Step, exec: Id)
    requires depth > 0 && exec in a.execs && Begins(a, iid, mem, step, exec) && step.typ == JoinGateway
    ensures var o := Route(env, depth, a, iid, mem, step, exec); o.Ok? ==> JoinHandled(env, a, o.db, iid, mem, o.mem, step, exec)
  {
    hide Begins, Dispatch, SetExec, GatewayFor, CompletedLeafs, HandsOn, Prepared, Left, Joins.Done, NoDup, PassJoin;
    var o := Route(env, depth, a, iid, mem, step, exec);
    if o.Ok? {
      var entries := GatewayFor(mem.def, step.id).value.parallelNextSteps;
      Joins.JoinTest(a, iid, entries);
      ClosedRow(a, exec);
      if |CompletedLeafs(a, iid, entries)| >= |entries| {
        ClosedReady(a, iid, mem, step, exec);
        ReadyHandsOn(env, depth - 1, a, PassJoin(SetExec(a, exec, Succeeded), exec), iid, mem, Left(mem, step), step, exec, map[], step.nextStep);
      }
    }
  }

  /** What every handler does, from any state in which its step has just been entered. */
  lemma RouteHandles(env: Env, depth: nat, a: Db, iid: Id, mem: Instance, step: Step, exec: Id)
    requires depth > 0 && exec in a.execs && Begins(a, iid, mem, step, exec)
    ensures var o := Route(env, depth, a, iid, mem, step, exec); o.Ok? ==> Handled(env, a, o.db, iid, mem, o.mem, step, exec)
  {
    hide Begins, Route, DecisionHandled, TransformationHandled, TableHandled, GatewayHandled, JoinHandled, TableLaws.Visits;
    match step.typ
    case Decision => DecisionHandles(env, depth, a, iid, mem, step, exec);
    case Transformation => TransformationHandles(env, depth, a, iid, mem, step, exec);
    case DecisionTable =>
      if TableLaws.Visits(env, exec, step) {
        TableHandles(env, depth, a, iid, mem, step, exec);
      }
    case ParallelGateway => GatewayHandles(env, depth, a, iid, mem, step, exec);
    case JoinGateway => JoinHandles(env, depth, a, iid, mem, step, exec);
    case _ =>
  }
}
