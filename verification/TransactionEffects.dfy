/**
 What each transaction does for its caller, by names and values: who may report, which data the
 transaction goes on with, where it goes on, and which rows it leaves.
 */
module TransactionEffects {
  import opened Values
  import opened Definitions
  import opened Database
  import opened Interpreter
  import opened Transactions
  import opened Invariants
  import opened Evolution
  import opened Effects
  import Plans

  // ---- where a dispatch stops at once ----

  /** A parked step or an END was entered: its rows, the data and the status of the instance. */
  ghost predicate Rests(b: Db, n: Id, iid: Id, mem: Instance, step: Step)
    requires iid in b.instances && n in b.execs
  {
    match step.typ
    case ServiceTask =>
      && n + 1 in b.jobs
      && b.jobs[n + 1] == Job(iid, n, if step.jobType != "" then step.jobType else step.id, Unlocked, "", None, step.retryCount, mem.vars)
      && b.execs[n].status == Running && b.instances[iid].vars == mem.vars && b.instances[iid].status == mem.status
    case UserTask =>
      && n + 1 in b.tasks && b.tasks[n + 1] == UserTaskRow(iid, n, step.id, Open)
      && b.execs[n].status == Running && b.instances[iid].vars == mem.vars && b.instances[iid].status == Waiting
    case Wait => b.execs[n].status == Running && b.instances[iid].vars == mem.vars && b.instances[iid].status == Waiting
    case End => b.execs[n].status == Succeeded && b.instances[iid].vars == mem.vars && b.instances[iid].status == Completed
    case _ => true
  }

  /** The row of the instance holds the data and the status it has in memory. */
  ghost predicate Stored(db: Db, iid: Id, mem: Instance) {
    iid in db.instances && db.instances[iid] == mem.(current := db.instances[iid].current)
  }

  lemma ParkRests(env: Env, depth: nat, db: Db, db1: Db, iid: Id, mem: Instance, step: Step)
    requires depth > 0 && Parked(step.typ) && Stored(db, iid, mem) && EnteredRows(db, db1, iid, mem, step)
    ensures var o := Route(env, depth, db1, iid, Entered(mem, step), step, db.nextId);
            o.Ok? ==> iid in o.db.instances && db.nextId in o.db.execs && Rests(o.db, db.nextId, iid, mem, step)
  {
    hide Route, ParkRows, Schedule, Alarms, ExecsOf, WithStep;
    var mem1 := Entered(mem, step);
    RouteParks(env, depth, db1, iid, mem1, step, db.nextId);
    ParksAs(db1, iid, mem1, step, db.nextId);
    var d := ParkRows(db1, iid, mem1, step, db.nextId);
    ScheduleMeans(env, d, iid, db.nextId, step.boundaryEvents);
    if Route(env, depth, db1, iid, mem1, step, db.nextId).Ok? {
      AlarmsElse(env, d, Schedule(env, d, iid, db.nextId, step.boundaryEvents).value, iid, db.nextId, step.boundaryEvents);
    }
  }

  lemma EndRests(env: Env, depth: nat, db: Db, db1: Db, iid: Id, mem: Instance, step: Step)
    requires depth > 0 && step.typ == End && Stored(db, iid, mem) && EnteredRows(db, db1, iid, mem, step)
    ensures var o := Route(env, depth, db1, iid, Entered(mem, step), step, db.nextId);
            o.Ok? ==> iid in o.db.instances && db.nextId in o.db.execs && Rests(o.db, db.nextId, iid, mem, step)
  {
    hide Route, EndRows, ExecsOf, WithStep;
    EndIsRoute(env, depth, db1, iid, Entered(mem, step), step, db.nextId);
    EndFinishes(db1, iid, Entered(mem, step), step, db.nextId);
  }

  lemma DispatchRests(env: Env, depth: nat, db: Db, iid: Id, mem: Instance, stepId: string)
    requires Stored(db, iid, mem) && Dispatch(env, depth, db, iid, mem, stepId).Ok?
    requires FindStep(mem.def, stepId).Some? && (Parked(FindStep(mem.def, stepId).value.typ) || FindStep(mem.def, stepId).value.typ == End)
    ensures var o := Dispatch(env, depth, db, iid, mem, stepId);
            iid in o.db.instances && db.nextId in o.db.execs && Rests(o.db, db.nextId, iid, mem, FindStep(mem.def, stepId).value)
  {
    hide Route, Enter, Rests, EnteredRows, Stored;
    var step := FindStep(mem.def, stepId).value;
    hide FindStep;
    EnterRows(db, iid, mem, step);
    if Parked(step.typ) {
      ParkRests(env, depth, db, Enter(db, iid, mem, step), iid, mem, step);
    } else {
      EndRests(env, depth, db, Enter(db, iid, mem, step), iid, mem, step);
    }
  }

  // ---- going on with a step ----

  /** The value of `x` in the row, in new jobs and in new chain requests is the one in memory. */
  ghost predicate DataKept(x: string, a: Db, b: Db, iid: Id, mem: Instance) {
    && iid in b.instances && SameAt(mem.vars, b.instances[iid].vars, x)
    && (forall j :: j in b.jobs && j !in a.jobs ==> b.jobs[j].inst == iid && SameAt(mem.vars, b.jobs[j].payload, x))
    && (forall c :: c in b.chains && c !in a.chains ==>
          c == iid && b.chains[c].target == mem.def.nextWorkflowId && b.chains[c].businessKey == mem.businessKey
          && SameAt(mem.vars, b.chains[c].vars, x))
  }

  /**
   The transaction that began in `a` went on with the step `next` under the instance `mem` and
   left `b`: execution `n` is the one of that step, variables nobody writes on the way have the
   values of `mem`, the other current steps are those of `mem`, new timers are due in time.
   */
  ghost predicate Launched(env: Env, a: Db, b: Db, n: Id, iid: Id, mem: Instance, next: string) {
    && FindStep(mem.def, next).Some? && iid in b.instances && SameIdentity(mem, b.instances[iid])
    && ExecOf(b.execs, n, iid, FindStep(mem.def, next).value)
    && Rests(b, n, iid, mem, FindStep(mem.def, next).value)
    && (forall x :: Untouched(mem.def, next, x) ==> DataKept(x, a, b, iid, mem))
    && Tracks(b, n, iid, b.instances[iid].current, mem.current)
    && (forall t :: t in b.timers && t !in a.timers ==> Ticket(env, mem.def, iid, b.now, b.execs, b.timers[t]))
  }

  /** The first stage of the transaction added no job, no timer and no chain request. */
  ghost predicate SameKeys(a: Db, db: Db) {
    a.jobs.Keys == db.jobs.Keys && a.timers.Keys == db.timers.Keys && a.chains.Keys == db.chains.Keys && a.now == db.now
  }

  lemma CarriesKept(x: string, a: Db, db: Db, iid: Id, mem: Instance, d: Db, m: Instance)
    requires SameKeys(a, db) && Stored(db, iid, mem) && Carries(x, iid, db, mem, d, m)
    ensures DataKept(x, a, d, iid, mem)
  {
  }

  lemma AddsTickets(env: Env, def: Definition, iid: Id, a: Db, db: Db, d: Db)
    requires SameKeys(a, db) && Adds(env, def, iid, db, d)
    ensures forall t :: t in d.timers && t !in a.timers ==> Ticket(env, def, iid, d.now, d.execs, d.timers[t])
    ensures iid in db.instances ==> iid in d.instances && SameIdentity(db.instances[iid], d.instances[iid])
  {
    hide Ticket;
  }

  lemma TracksSelf(db: Db, n: Id, iid: Id, ids: seq<string>)
    ensures Tracks(db, n, iid, ids, ids)
  {
  }

  lemma DispatchLaunches(env: Env, depth: nat, a: Db, db: Db, iid: Id, mem: Instance, next: string)
    requires SameKeys(a, db) && Stored(db, iid, mem) && Dispatch(env, depth, db, iid, mem, next).Ok?
    ensures Launched(env, a, Dispatch(env, depth, db, iid, mem, next).db, db.nextId, iid, mem, next)
    ensures Adds(env, mem.def, iid, db, Dispatch(env, depth, db, iid, mem, next).db)
  {
    hide Dispatch, FindStep, Adds, Tracks, Rests, Ticket, Untouched, DataKept, Carries, SameKeys;
    var o := Dispatch(env, depth, db, iid, mem, next);
    TracksSelf(db, db.nextId, iid, mem.current);
    DispatchEffects(env, depth, db, iid, mem, next, db.nextId, mem.current);
    AddsTickets(env, mem.def, iid, a, db, o.db);
    forall x | Untouched(mem.def, next, x) ensures DataKept(x, a, o.db, iid, mem) {
      DispatchCarries(env, x, depth, db, iid, mem, next);
      CarriesKept(x, a, db, iid, mem, o.db, o.mem);
    }
    var step := FindStep(mem.def, next).value;
    if Parked(step.typ) || step.typ == End {
      DispatchRests(env, depth, db, iid, mem, next);
    } else {
      ElsewhereRests(o.db, db.nextId, iid, mem, step);
    }
  }

  lemma ElsewhereRests(b: Db, n: Id, iid: Id, mem: Instance, step: Step)
    requires iid in b.instances && n in b.execs && !Parked(step.typ) && step.typ != End
    ensures Rests(b, n, iid, mem, step)
  {
  }

  /** A step where a dispatch stops leaves all data exactly as it is in memory. */
  lemma LaunchedExactly(env: Env, a: Db, b: Db, n: Id, iid: Id, mem: Instance, next: string)
    requires Launched(env, a, b, n, iid, mem, next)
    requires Parked(FindStep(mem.def, next).value.typ) || FindStep(mem.def, next).value.typ == End
    ensures b.instances[iid].vars == mem.vars
    ensures forall j :: j in b.jobs && j !in a.jobs ==> b.jobs[j].payload == mem.vars
    ensures forall c :: c in b.chains && c !in a.chains ==> b.chains[c].vars == mem.vars
  {
    hide FindStep, Tracks, Rests, Ticket, Untouched;
    forall x ensures DataKept(x, a, b, iid, mem) {
      RestingUntouched(mem.def, next, x);
    }
    forall x ensures SameAt(mem.vars, b.instances[iid].vars, x) {
      assert DataKept(x, a, b, iid, mem);
    }
    SameEverywhere(mem.vars, b.instances[iid].vars);
    forall j | j in b.jobs && j !in a.jobs ensures b.jobs[j].payload == mem.vars {
      forall x ensures SameAt(mem.vars, b.jobs[j].payload, x) {
        assert DataKept(x, a, b, iid, mem);
      }
      SameEverywhere(mem.vars, b.jobs[j].payload);
    }
    forall c | c in b.chains && c !in a.chains ensures b.chains[c].vars == mem.vars {
      forall x ensures SameAt(mem.vars, b.chains[c].vars, x) {
        assert DataKept(x, a, b, iid, mem);
      }
      SameEverywhere(mem.vars, b.chains[c].vars);
    }
  }

  lemma SameEverywhere(a: Vars, b: Vars)
    requires forall x :: SameAt(a, b, x)
    ensures a == b
  {
    assert forall x :: x in a ==> SameAt(a, b, x);
    assert forall x :: x in b ==> SameAt(a, b, x);
  }

  // ---- past a finished step ----

  /** Branch `i` is the first one whose expression is true; those before it are false. */
  ghost predicate IsFirstTrue(eval: Evaluator, branches: seq<Branch>, vars: Vars, i: int) {
    && 0 <= i < |branches| && eval(branches[i].expr, vars) == Val(Values.Bool(true))
    && forall k :: 0 <= k < i ==> eval(branches[k].expr, vars) == Val(Values.Bool(false))
  }

  lemma {:induction false} NoneTrue(eval: Evaluator, branches: seq<Branch>, vars: Vars, i: int)
    requires Choose(eval, branches, vars).NoBranch?
    ensures !IsFirstTrue(eval, branches, vars, i)
  {
    if IsFirstTrue(eval, branches, vars, i) && i > 0 {
      assert eval(branches[0].expr, vars) == Val(Values.Bool(false));
      assert forall k :: 0 <= k < i - 1 ==> branches[1..][k] == branches[k + 1];
      NoneTrue(eval, branches[1..], vars, i - 1);
    }
  }

  /** The branch chosen is the first true one, and there is none when none is chosen. */
  lemma ChoiceMeans(eval: Evaluator, branches: seq<Branch>, vars: Vars)
    ensures match Choose(eval, branches, vars)
            case Take(target) => exists i :: IsFirstTrue(eval, branches, vars, i) && branches[i].target == target
            case NoBranch => forall i :: !IsFirstTrue(eval, branches, vars, i)
  {
    if Choose(eval, branches, vars).Take? {
      var i := Plans.ChosenBranch(eval, branches, vars);
      assert IsFirstTrue(eval, branches, vars, i);
    } else {
      forall i ensures !IsFirstTrue(eval, branches, vars, i) {
        NoneTrue(eval, branches, vars, i);
      }
    }
  }

  ghost predicate WaitsAt(def: Definition, id: string) {
    FindStep(def, id).Some? && (FindStep(def, id).value.typ == UserTask || FindStep(def, id).value.typ == Wait)
  }

  /** The instance once `step` is finished: data overlaid, the step left, the status recomputed. */
  ghost predicate Resumes(row: Instance, mem: Instance, step: Step, patch: Vars) {
    && mem == row.(vars := mem.vars, current := mem.current, status := mem.status)
    && Overlaid(row.vars, patch, mem.vars)
    && (forall id :: id in mem.current <==> id in row.current && id != step.id)
    && mem.status == (if exists id :: id in mem.current && WaitsAt(row.def, id) then Waiting else Active)
  }

  /** From `a` to `b` the transaction went past `step` with the instance `mem`. */
  ghost predicate GoesOn(env: Env, a: Db, b: Db, iid: Id, mem: Instance, step: Step) {
    if step.branches != [] then
      if exists i :: IsFirstTrue(env.eval, step.branches, mem.vars, i) then
        exists i :: IsFirstTrue(env.eval, step.branches, mem.vars, i) && Launched(env, a, b, a.nextId, iid, mem, step.branches[i].target)
      else b.nextId == a.nextId && iid in b.instances && b.instances[iid] == mem.(status := Failed)
    else if step.nextStep != "" then Launched(env, a, b, a.nextId, iid, mem, step.nextStep)
    else b.nextId == a.nextId && iid in b.instances && b.instances[iid] == mem
  }

  ghost predicate WentOn(env: Env, a: Db, b: Db, iid: Id, row: Instance, step: Step, patch: Vars) {
    exists mem :: Resumes(row, mem, step, patch) && GoesOn(env, a, b, iid, mem, step)
  }

  lemma LeavingResumes(row: Instance, mem: Instance, step: Step, patch: Vars)
    requires mem == row.(vars := mem.vars) && Overlaid(row.vars, patch, mem.vars)
    ensures Resumes(row, Leaving(mem, step), step, patch)
  {
    hide FindStep;
    var ids := WithoutStep(mem.current, step.id);
    if SomeWaiting(mem.def, ids) {
      var i :| 0 <= i < |ids| && FindStep(mem.def, ids[i]).Some? && FindStep(mem.def, ids[i]).value.typ in {UserTask, Wait};
      assert ids[i] in ids && WaitsAt(row.def, ids[i]);
    }
  }

  /** The row once the step is left. */
  lemma DepartedStored(db: Db, iid: Id, mem: Instance, step: Step)
    requires iid in db.instances && db.instances[iid] == mem
    ensures var d := Plans.Departed(db, iid, mem, step);
            && d == db.(instances := d.instances) && iid in d.instances && d.instances[iid] == Leaving(mem, step)
            && OneRow(db.instances, d.instances, iid)
  {
    hide Recomputed, WithoutStep;
  }

  lemma FailedStored(db: Db, iid: Id, mem: Instance, stepId: string)
    requires iid in db.instances && db.instances[iid] == mem
    ensures var o := FailStep(db, iid, mem, stepId);
            o.Ok? && o.db.nextId == db.nextId && iid in o.db.instances && o.db.instances[iid] == mem.(status := Failed)
  {
    hide SetRunning;
    ClosingStays(db, iid, stepId, Faulted);
  }

  /** advancePastStep, for a row that holds what is in memory. */
  lemma AdvanceGoesOn(env: Env, depth: nat, a: Db, db: Db, iid: Id, mem: Instance, step: Step)
    requires SameKeys(a, db) && a.nextId == db.nextId && iid in db.instances && db.instances[iid] == mem
    requires Advance(env, depth, db, iid, mem, step).Ok?
    ensures GoesOn(env, a, Advance(env, depth, db, iid, mem, step).db, iid, Leaving(mem, step), step)
    ensures Adds(env, mem.def, iid, db, Advance(env, depth, db, iid, mem, step).db)
  {
    hide Launched, Choose, Dispatch, SetStatus, SetCurrent, FailStep, IsFirstTrue, Adds, Leaving;
    var mem1, db1 := Leaving(mem, step), Plans.Departed(db, iid, mem, step);
    var o := Advance(env, depth, db, iid, mem, step);
    DepartedStored(db, iid, mem, step);
    LeavingSame(mem, step);
    assert SameKeys(a, db1) && Stored(db1, iid, mem1);
    DepartedAdds(env, mem.def, db, iid, mem, step);
    if step.branches != [] {
      ChoiceMeans(env.eval, step.branches, mem.vars);
      var c := Choose(env.eval, step.branches, mem.vars);
      if c.Take? {
        DispatchLaunches(env, depth, a, db1, iid, mem1, c.target);
        AddsTransitive(env, mem.def, iid, db, db1, o.db);
      } else {
        FailedStored(db1, iid, mem1, step.id);
        FailAdds(env, mem.def, db1, iid, mem1, step.id);
        AddsTransitive(env, mem.def, iid, db, db1, o.db);
      }
    } else if step.nextStep != "" {
      DispatchLaunches(env, depth, a, db1, iid, mem1, step.nextStep);
      AddsTransitive(env, mem.def, iid, db, db1, o.db);
    }
  }

  lemma LeavingSame(mem: Instance, step: Step)
    ensures var m := Leaving(mem, step); m.def == mem.def && m.vars == mem.vars
  {
  }

  lemma DepartedAdds(env: Env, def: Definition, db: Db, iid: Id, mem: Instance, step: Step)
    ensures Adds(env, def, iid, db, Plans.Departed(db, iid, mem, step))
  {
    hide Adds, SetStatus, SetCurrent, Leaving;
    var mem1 := Leaving(mem, step);
    RowOpsStay(db, iid, Active, mem1.current, map[]);
    RowOpsStay(SetCurrent(db, iid, mem1.current), iid, mem1.status, [], map[]);
    QuietAdds(env, def, iid, db, Plans.Departed(db, iid, mem, step));
  }

  // ---- a worker's report ----

  /**
   Who may report on a job: its instance is in flight, its execution RUNNING, and the job either
   UNLOCKED or LOCKED by this worker under a lease that has not ended.
   */
  ghost predicate MayReport(db: Db, j: Id, worker: string) {
    && j in db.jobs
    && var job := db.jobs[j];
       && job.inst in db.instances && (db.instances[job.inst].status == Active || db.instances[job.inst].status == Waiting)
       && job.exec in db.execs && db.execs[job.exec].status == Running
       && (job.status == Unlocked
           || (job.status == Locked && job.worker == worker && job.expires.Some? && db.now < job.expires.value))
  }

  lemma MayReportMeans(db: Db, j: Id, worker: string)
    ensures Accepts(db, j, worker) <==> MayReport(db, j, worker)
  {
  }

  /** The output breaks the schema: the attempt is cancelled, the execution and the instance fail. */
  ghost predicate Rejected(a: Db, b: Db, e: Id, iid: Id) {
    && b == a.(jobs := b.jobs, execs := b.execs, instances := b.instances)
    && b.jobs.Keys == a.jobs.Keys
    && (forall k :: k in a.jobs ==>
          b.jobs[k] == if a.jobs[k].exec == e && Live(a.jobs[k].status) then a.jobs[k].(status := JobCancelled) else a.jobs[k])
    && e in a.execs && b.execs == a.execs[e := a.execs[e].(status := Faulted)]
    && iid in a.instances && b.instances == a.instances[iid := a.instances[iid].(status := Failed)]
  }

  ghost predicate BreaksSchema(env: Env, step: Step, output: Vars) {
    step.typ == ServiceTask && step.outputsSchema.Some? && !env.conforms(step.outputsSchema.value, output)
  }

  /** What a committed report leaves. */
  ghost predicate Reported(env: Env, a: Db, b: Db, j: Id, worker: string, output: Vars) {
    if !MayReport(a, j, worker) then b == a
    else
      var e, iid := a.jobs[j].exec, a.jobs[j].inst;
      var row, found := a.instances[iid], FindStep(a.instances[iid].def, a.execs[e].stepId);
      && found.Some?
      && if BreaksSchema(env, found.value, output) then Rejected(a, b, e, iid)
         else
           && j in b.jobs && b.jobs[j] == a.jobs[j].(status := JobCompleted, worker := worker)
           && e in b.execs && b.execs[e] == a.execs[e].(status := Succeeded)
           && if found.value.nextStep == "" && found.value.branches == [] then
                && b.nextId == a.nextId && iid in b.instances && Overlaid(row.vars, output, b.instances[iid].vars)
                && b.instances[iid] == row.(vars := b.instances[iid].vars)
              else WentOn(env, a, b, iid, row, found.value, output)
  }

  lemma RejectedRows(db: Db, e: Id, iid: Id)
    requires e in db.execs && iid in db.instances && e in CancelJobs(db, e).execs
    ensures Rejected(db, SetStatus(SetExec(CancelJobs(db, e), e, Faulted), iid, Failed), e, iid)
  {
  }

  /** The attempt closed and the output stored. */
  ghost predicate ClosedWith(a: Db, b: Db, j: Id, worker: string, output: Vars)
    requires j in a.jobs && a.jobs[j].exec in a.execs && a.jobs[j].inst in a.instances
  {
    var e, iid := a.jobs[j].exec, a.jobs[j].inst;
    && b == a.(jobs := b.jobs, execs := b.execs, instances := b.instances, merged := b.merged)
    && b.jobs == a.jobs[j := a.jobs[j].(status := JobCompleted, worker := worker)]
    && b.execs == a.execs[e := a.execs[e].(status := Succeeded)]
    && iid in b.instances && b.instances[iid] == a.instances[iid].(vars := b.instances[iid].vars)
    && Overlaid(a.instances[iid].vars, output, b.instances[iid].vars)
  }

  lemma MergedRows(db: Db, j: Id, worker: string, output: Vars)
    requires LockJob(db, j).Some?
    ensures ClosedWith(db, Merged(Closed(db, j, worker), db.jobs[j].inst, db.jobs[j].exec, output), j, worker, output)
  {
  }

  /** Rows with ids that were handed out before `db` are as in `db`. */
  lemma AddsKeep(env: Env, def: Definition, iid: Id, db: Db, d: Db, j: Id, e: Id)
    requires Adds(env, def, iid, db, d) && j < db.nextId && e < db.nextId
    ensures j in db.jobs ==> j in d.jobs && d.jobs[j] == db.jobs[j]
    ensures e in db.execs && db.execs[e].status != Running ==> e in d.execs && d.execs[e] == db.execs[e]
  {
    hide TimersAdded, OneRow;
  }

  lemma CompleteReports(env: Env, depth: nat, a: Db, j: Id, worker: string, output: Vars, b: Db)
    requires CompleteJob(env, depth, a, j, worker, output) == Commit(b) && Below(a.jobs, a.nextId) && Below(a.execs, a.nextId)
    ensures Reported(env, a, b, j, worker, output)
  {
    hide FindStep, Advance, SetStatus, SetExec, CancelJobs, Closed, Merged, MayReport, Accepts, WentOn, Rejected, ClosedWith, Overlaid;
    MayReportMeans(a, j, worker);
    if Accepts(a, j, worker) {
      var e, iid := a.jobs[j].exec, a.jobs[j].inst;
      var step := FindStep(a.instances[iid].def, a.execs[e].stepId).value;
      if BreaksSchema(env, step, output) {
        CancelKeepsExecs(a, e);
        RejectedRows(a, e, iid);
      } else {
        MergedRows(a, j, worker, output);
        var db1 := Merged(Closed(a, j, worker), iid, e, output);
        CompleteWentOn(env, depth, a, db1, j, worker, output, step, b);
      }
    }
  }

  lemma CompleteWentOn(env: Env, depth: nat, a: Db, db: Db, j: Id, worker: string, output: Vars, step: Step, b: Db)
    requires Below(a.jobs, a.nextId) && Below(a.execs, a.nextId)
    requires j in a.jobs && a.jobs[j].exec in a.execs && a.jobs[j].inst in a.instances && ClosedWith(a, db, j, worker, output)
    requires var iid := a.jobs[j].inst;
             if step.nextStep == "" && step.branches == [] then b == db
             else Finish(Advance(env, depth, db, iid, db.instances[iid], step)) == Commit(b)
    ensures var e, iid := a.jobs[j].exec, a.jobs[j].inst;
            && j in b.jobs && b.jobs[j] == a.jobs[j].(status := JobCompleted, worker := worker)
            && e in b.execs && b.execs[e] == a.execs[e].(status := Succeeded)
            && if step.nextStep == "" && step.branches == [] then
                 && b.nextId == a.nextId && iid in b.instances && Overlaid(a.instances[iid].vars, output, b.instances[iid].vars)
                 && b.instances[iid] == a.instances[iid].(vars := b.instances[iid].vars)
               else WentOn(env, a, b, iid, a.instances[iid], step, output)
  {
    hide Advance, GoesOn, Resumes, Leaving, Adds;
    var e, iid := a.jobs[j].exec, a.jobs[j].inst;
    var mem := db.instances[iid];
    if !(step.nextStep == "" && step.branches == []) {
      assert SameKeys(a, db);
      AdvanceGoesOn(env, depth, a, db, iid, mem, step);
      AddsKeep(env, mem.def, iid, db, b, j, e);
      LeavingResumes(a.instances[iid], mem, step, output);
    }
  }

  // ---- user tasks and signals ----

  predicate Going(db: Db, iid: Id) {
    iid in db.instances && (db.instances[iid].status == Active || db.instances[iid].status == Waiting)
  }

  ghost predicate StepIs(db: Db, iid: Id, stepId: string, typ: StepType)
    requires iid in db.instances
  {
    FindStep(db.instances[iid].def, stepId).Some? && FindStep(db.instances[iid].def, stepId).value.typ == typ
  }

  ghost predicate OpenTask(db: Db, iid: Id, stepId: string, t: Id) {
    t in db.tasks && db.tasks[t].inst == iid && db.tasks[t].stepId == stepId && db.tasks[t].status == Open
  }

  ghost predicate RunningExec(db: Db, iid: Id, stepId: string, e: Id) {
    e in db.execs && db.execs[e].inst == iid && db.execs[e].stepId == stepId && db.execs[e].status == Running
  }

  ghost predicate MayFinishTask(db: Db, iid: Id, stepId: string) {
    Going(db, iid) && StepIs(db, iid, stepId, UserTask) && exists t :: OpenTask(db, iid, stepId, t)
  }

  ghost predicate MaySignal(db: Db, iid: Id, stepId: string) {
    Going(db, iid) && StepIs(db, iid, stepId, Wait) && stepId in db.instances[iid].current && exists e :: RunningExec(db, iid, stepId, e)
  }

  /** The RUNNING executions of the step are closed, and the transaction went on past it. */
  ghost predicate StepFinished(env: Env, a: Db, b: Db, iid: Id, stepId: string, vars: Vars) {
    && iid in a.instances && FindStep(a.instances[iid].def, stepId).Some?
    && (forall e :: RunningExec(a, iid, stepId, e) ==> e in b.execs && b.execs[e] == a.execs[e].(status := Succeeded))
    && WentOn(env, a, b, iid, a.instances[iid], FindStep(a.instances[iid].def, stepId).value, vars)
  }

  /** Exactly the open tasks of the step are completed. */
  ghost predicate TasksFinished(a: Db, b: Db, iid: Id, stepId: string) {
    forall t :: t in a.tasks ==>
      t in b.tasks && b.tasks[t] == if OpenTask(a, iid, stepId, t) then a.tasks[t].(status := TaskCompleted) else a.tasks[t]
  }

  lemma FinishRows(db: Db, iid: Id, stepId: string, vars: Vars)
    requires iid in db.instances
    ensures var d := PatchVars(SetRunning(db, iid, stepId, Succeeded), iid, vars);
            && d == db.(execs := d.execs, instances := d.instances) && iid in d.instances
            && d.instances[iid] == db.instances[iid].(vars := db.instances[iid].vars + vars)
            && d.execs.Keys == db.execs.Keys
            && (forall e :: RunningExec(db, iid, stepId, e) ==> d.execs[e] == db.execs[e].(status := Succeeded))
  {
  }

  lemma TaskRows(db: Db, iid: Id, stepId: string)
    ensures var d := CompleteTasks(db, iid, stepId); d == db.(tasks := d.tasks) && TasksFinished(db, d, iid, stepId)
  {
  }

  lemma PlusOverlays(a: Vars, patch: Vars)
    ensures Overlaid(a, patch, a + patch)
  {
  }

  lemma FinishedKept(env: Env, def: Definition, iid: Id, db: Db, d: Db, e: Id)
    requires Adds(env, def, iid, db, d) && e in db.execs && e < db.nextId && db.execs[e].status != Running
    ensures e in d.execs && d.execs[e] == db.execs[e]
  {
    hide TimersAdded, OneRow;
  }

  lemma TasksKept(env: Env, def: Definition, iid: Id, db: Db, d: Db)
    requires Adds(env, def, iid, db, d)
    ensures forall t :: t in db.tasks && t < db.nextId ==> t in d.tasks && d.tasks[t] == db.tasks[t]
  {
    hide TimersAdded, OneRow;
  }

  /** From the rows at which the step is finished to the end of the transaction. */
  lemma AdvanceFinishes(env: Env, depth: nat, a: Db, mid: Db, iid: Id, stepId: string, vars: Vars, b: Db)
    requires iid in a.instances && Below(a.execs, a.nextId) && mid == a.(tasks := mid.tasks) && FindStep(a.instances[iid].def, stepId).Some?
    requires var step := FindStep(a.instances[iid].def, stepId).value;
             var db := PatchVars(SetRunning(mid, iid, stepId, Succeeded), iid, vars);
             Advance(env, depth, db, iid, a.instances[iid].(vars := a.instances[iid].vars + vars), step).Ok?
             && b == Advance(env, depth, db, iid, a.instances[iid].(vars := a.instances[iid].vars + vars), step).db
    ensures StepFinished(env, a, b, iid, stepId, vars)
    ensures forall t :: t in mid.tasks && t < mid.nextId ==> t in b.tasks && b.tasks[t] == mid.tasks[t]
  {
    hide FindStep, Advance, PatchVars, SetRunning, GoesOn, Resumes, Leaving, Adds, Overlaid;
    var row, step := a.instances[iid], FindStep(a.instances[iid].def, stepId).value;
    var db, mem := PatchVars(SetRunning(mid, iid, stepId, Succeeded), iid, vars), row.(vars := row.vars + vars);
    FinishRows(mid, iid, stepId, vars);
    AdvanceGoesOn(env, depth, a, db, iid, mem, step);
    PlusOverlays(row.vars, vars);
    LeavingResumes(row, mem, step, vars);
    TasksKept(env, mem.def, iid, db, b);
    forall e | RunningExec(a, iid, stepId, e) ensures e in b.execs && b.execs[e] == a.execs[e].(status := Succeeded) {
      assert RunningExec(mid, iid, stepId, e);
      FinishedKept(env, mem.def, iid, db, b, e);
    }
  }

  lemma UserTaskFinishes(env: Env, depth: nat, a: Db, iid: Id, stepId: string, vars: Vars, b: Db)
    requires CompleteUserTask(env, depth, a, iid, stepId, vars) == Commit(b) && Below(a.execs, a.nextId) && Below(a.tasks, a.nextId)
    ensures StepFinished(env, a, b, iid, stepId, vars) && TasksFinished(a, b, iid, stepId)
  {
    hide FindStep, Advance, PatchVars, SetRunning, CompleteTasks, OpenTasks, StepFinished;
    TaskRows(a, iid, stepId);
    AdvanceFinishes(env, depth, a, CompleteTasks(a, iid, stepId), iid, stepId, vars, b);
  }

  lemma UserTaskRefused(env: Env, depth: nat, a: Db, iid: Id, stepId: string, vars: Vars)
    ensures CompleteUserTask(env, depth, a, iid, stepId, vars).Rollback? <==> !MayFinishTask(a, iid, stepId)
  {
    hide FindStep, Advance;
    assert forall t :: t in OpenTasks(a, iid, stepId) <==> OpenTask(a, iid, stepId, t);
  }

  lemma SignalFinishes(env: Env, depth: nat, a: Db, iid: Id, stepId: string, vars: Vars, b: Db)
    requires SignalWait(env, depth, a, iid, stepId, vars) == Commit(b) && Below(a.execs, a.nextId) && Below(a.tasks, a.nextId)
    ensures StepFinished(env, a, b, iid, stepId, vars)
    ensures forall t :: t in a.tasks ==> t in b.tasks && b.tasks[t] == a.tasks[t]
  {
    hide FindStep, Advance, PatchVars, SetRunning, RunningOf, StepFinished;
    AdvanceFinishes(env, depth, a, a, iid, stepId, vars, b);
  }

  lemma SignalRefused(env: Env, depth: nat, a: Db, iid: Id, stepId: string, vars: Vars)
    ensures SignalWait(env, depth, a, iid, stepId, vars).Rollback? <==> !MaySignal(a, iid, stepId)
  {
    hide FindStep, Advance;
    assert forall e :: e in RunningOf(a, iid, stepId) <==> RunningExec(a, iid, stepId, e);
  }

  // ---- starting ----

  /** Another instance of the definition is in flight under this key. */
  ghost predicate KeyInUse(db: Db, iid: Id, defId: string, key: string) {
    exists i :: i in db.instances && i != iid && Going(db, i) && db.instances[i].businessKey == Some(key) && db.instances[i].def.id == defId
  }

  /** There is a first step, the input conforms, and a key that is given and not empty is free. */
  ghost predicate MayStart(env: Env, db: Db, def: Definition, vars: Vars, key: Option<string>) {
    && def.steps != [] && (def.inputSchema.Some? ==> env.conforms(def.inputSchema.value, vars))
    && (key.Some? && key.value != "" ==> !KeyInUse(db, db.nextId, def.id, key.value))
  }

  lemma MayStartMeans(env: Env, db: Db, def: Definition, vars: Vars, key: Option<string>)
    ensures MayStart(env, db, def, vars, key) <==> Startable(env, def, vars) && !KeyTaken(db, db.nextId, def, NormalKey(key))
  {
  }

  /** A new instance under the next id, with the caller's data, went on with its first step. */
  ghost predicate Started(env: Env, a: Db, b: Db, def: Definition, vars: Vars, key: Option<string>, origin: Option<Id>) {
    && def.steps != []
    && Launched(env, a, b, a.nextId + 1, a.nextId,
                Instance(def, Active, [def.steps[0].id], vars, if key == Some("") then None else key, origin), def.steps[0].id)
  }

  lemma StartInLaunches(env: Env, depth: nat, a: Db, def: Definition, vars: Vars, key: Option<string>, origin: Option<Id>)
    requires def.steps != [] && StartIn(env, depth, a, NewInstance(def, vars, key, origin)).Ok?
    ensures Started(env, a, StartIn(env, depth, a, NewInstance(def, vars, key, origin)).db, def, vars, key, origin)
  {
    hide Dispatch, Launched;
    var row := NewInstance(def, vars, key, origin);
    DispatchLaunches(env, depth, a, Inserted(a, row), a.nextId, row, def.steps[0].id);
  }

  lemma StartLaunches(env: Env, depth: nat, a: Db, def: Definition, vars: Vars, key: Option<string>)
    ensures var r := Start(env, depth, a, def, vars, key);
            (r.Rollback? <==> !MayStart(env, a, def, vars, key)) && (r.Commit? ==> Started(env, a, r.db, def, vars, key, None))
  {
    hide StartIn, Started, MayStart, Startable, KeyTaken;
    MayStartMeans(env, a, def, vars, key);
    if Startable(env, def, vars) && !KeyTaken(a, a.nextId, def, NormalKey(key)) {
      StartableSteps(env, def, vars);
      if StartIn(env, depth, a, NewInstance(def, vars, key, None)).Ok? {
        StartInLaunches(env, depth, a, def, vars, key, None);
      }
    }
  }

  /** Acknowledging an older request changes nothing else. */
  lemma AcknowledgedLaunch(env: Env, a: Db, d: Db, n: Id, iid: Id, mem: Instance, next: string, source: Id)
    requires Launched(env, a, d, n, iid, mem, next) && source in a.chains
    ensures Launched(env, a, Acknowledged(d, source, iid), n, iid, mem, next)
  {
    hide FindStep, Ticket, Untouched;
    var b := Acknowledged(d, source, iid);
    AckTracks(d, b, n, iid, d.instances[iid].current, mem.current);
    hide Tracks;
    forall x | Untouched(mem.def, next, x) ensures DataKept(x, a, b, iid, mem) {
      assert DataKept(x, a, d, iid, mem);
    }
  }

  lemma AckTracks(d: Db, b: Db, n: Id, iid: Id, ids: seq<string>, ids0: seq<string>)
    requires Tracks(d, n, iid, ids, ids0) && b.execs == d.execs && b.nextId == d.nextId
    ensures Tracks(b, n, iid, ids, ids0)
  {
  }

  /** A pending request whose target this is and may start. */
  ghost predicate MayDeliver(env: Env, db: Db, source: Id, def: Definition)
    requires source in db.chains
  {
    def.id == db.chains[source].target && MayStart(env, db, def, db.chains[source].vars, db.chains[source].businessKey)
  }

  predicate Pending(db: Db, source: Id) {
    source in db.chains && db.chains[source].child == None
  }

  lemma ChainLaunches(env: Env, depth: nat, a: Db, source: Id, def: Definition)
    ensures var r := DeliverChain(env, depth, a, source, def);
            if !Pending(a, source) then r == Commit(a)
            else
              && (r.Rollback? <==> !MayDeliver(env, a, source, def))
              && (r.Commit? ==> Started(env, a, r.db, def, a.chains[source].vars, a.chains[source].businessKey, Some(source)))
  {
    hide StartIn, MayStart, Startable, KeyTaken, Launched, Acknowledged;
    if Pending(a, source) {
      var q := a.chains[source];
      MayStartMeans(env, a, def, q.vars, q.businessKey);
      if def.id == q.target && Startable(env, def, q.vars) && !KeyTaken(a, a.nextId, def, NormalKey(q.businessKey)) {
        StartableSteps(env, def, q.vars);
        var o := StartIn(env, depth, a, NewInstance(def, q.vars, q.businessKey, Some(source)));
        if o.Ok? {
          StartInLaunches(env, depth, a, def, q.vars, q.businessKey, Some(source));
          AcknowledgedLaunch(env, a, o.db, a.nextId + 1, a.nextId,
                             Instance(def, Active, [def.steps[0].id], q.vars, if q.businessKey == Some("") then None else q.businessKey, Some(source)),
                             def.steps[0].id, source);
        }
      }
    }
  }

  /** The request names the instance that was started for it. */
  lemma StartedIsChild(env: Env, a: Db, b: Db, def: Definition, vars: Vars, key: Option<string>, source: Id)
    requires Inv(b) && Started(env, a, b, def, vars, key, Some(source))
    ensures source in b.chains && b.chains[source].child == Some(a.nextId)
  {
    hide Core, Budget, Rests, Tracks, Untouched, Ticket, FindStep;
    assert b.instances[a.nextId].origin == Some(source);
  }

  // ---- retrying a failed step ----

  /** The newest execution of the step failed. */
  ghost predicate NewestFailed(db: Db, iid: Id, stepId: string) {
    exists e :: e in db.execs && db.execs[e].inst == iid && db.execs[e].stepId == stepId && db.execs[e].status == Faulted
                && forall x :: x in db.execs && db.execs[x].inst == iid && db.execs[x].stepId == stepId ==> db.execs[x].attempt <= db.execs[e].attempt
  }

  ghost predicate MayRetry(db: Db, iid: Id, stepId: string) {
    && iid in db.instances && db.instances[iid].status == Failed && FindStep(db.instances[iid].def, stepId).Some?
    && NewestFailed(db, iid, stepId)
    && (db.instances[iid].businessKey.Some? ==> !KeyInUse(db, iid, db.instances[iid].def.id, db.instances[iid].businessKey.value))
  }

  /** The instance is ACTIVE again, with the patch, and the step was entered once more. */
  ghost predicate Retried(env: Env, a: Db, b: Db, iid: Id, stepId: string, patch: Vars) {
    iid in a.instances &&
    exists mem: Instance :: mem == a.instances[iid].(status := Active, vars := mem.vars) && Overlaid(a.instances[iid].vars, patch, mem.vars)
                  && Launched(env, a, b, a.nextId, iid, mem, stepId)
  }

  lemma LatestMeans(db: Db, iid: Id, stepId: string)
    ensures (exists e :: IsLatestExec(db, iid, stepId, e) && db.execs[e].status == Faulted) <==> NewestFailed(db, iid, stepId)
  {
    if NewestFailed(db, iid, stepId) {
      var e :| e in db.execs && db.execs[e].inst == iid && db.execs[e].stepId == stepId && db.execs[e].status == Faulted
               && forall x :: x in db.execs && db.execs[x].inst == iid && db.execs[x].stepId == stepId ==> db.execs[x].attempt <= db.execs[e].attempt;
      assert IsLatestExec(db, iid, stepId, e);
    }
  }

  lemma RetryRows(db: Db, iid: Id, patch: Vars)
    requires iid in db.instances
    ensures var d := PatchVars(SetStatus(db, iid, Active), iid, patch);
            && d == db.(instances := d.instances) && iid in d.instances
            && d.instances[iid] == db.instances[iid].(status := Active, vars := db.instances[iid].vars + patch)
  {
  }

  lemma RetryLaunches(env: Env, depth: nat, a: Db, iid: Id, stepId: string, patch: Vars)
    ensures var r := RetryStep(env, depth, a, iid, stepId, patch);
            (r.Rollback? <==> !MayRetry(a, iid, stepId)) && (r.Commit? ==> Retried(env, a, r.db, iid, stepId, patch))
  {
    hide Dispatch, FindStep, PatchVars, SetStatus, IsLatestExec, NewestFailed, Launched, Overlaid;
    LatestMeans(a, iid, stepId);
    var r := RetryStep(env, depth, a, iid, stepId, patch);
    if r.Commit? {
      var row := a.instances[iid];
      var mem := row.(status := Active, vars := row.vars + patch);
      RetryRows(a, iid, patch);
      PlusOverlays(row.vars, patch);
      DispatchLaunches(env, depth, a, PatchVars(SetStatus(a, iid, Active), iid, patch), iid, mem, stepId);
    }
  }

  // ---- timers ----

  /** The timer is there for this instance, was not consumed, and its time has come. */
  predicate Due(db: Db, t: Id, iid: Id) {
    iid in db.instances && t in db.timers && db.timers[t].inst == iid && !db.timers[t].fired && db.timers[t].fireAt <= db.now
  }

  /** An interrupting timer cancels the live jobs and open tasks of its execution, any other none. */
  ghost predicate Struck(a: Db, b: Db, p: Id, interrupting: bool) {
    && b.jobs.Keys >= a.jobs.Keys && b.tasks.Keys >= a.tasks.Keys
    && (forall j :: j in a.jobs ==>
          b.jobs[j] == if interrupting && a.jobs[j].exec == p && Live(a.jobs[j].status) then a.jobs[j].(status := JobCancelled) else a.jobs[j])
    && (forall u :: u in a.tasks ==>
          b.tasks[u] == if interrupting && a.tasks[u].exec == p && a.tasks[u].status == Open then a.tasks[u].(status := TaskCancelled) else a.tasks[u])
    && (interrupting ==> p in a.execs && p in b.execs && b.execs[p] == a.execs[p].(status := Faulted))
  }

  /** The instance goes on with the timer's target; an interrupted step is no longer current. */
  ghost predicate Diverted(env: Env, a: Db, b: Db, iid: Id, stepId: string, timer: Timer) {
    iid in a.instances &&
    exists mem: Instance :: mem == a.instances[iid].(current := mem.current)
                  && (forall id :: id in mem.current <==> id in a.instances[iid].current && !(timer.interrupting && id == stepId))
                  && Launched(env, a, b, a.nextId, iid, mem, timer.target)
  }

  ghost predicate Fired(env: Env, a: Db, b: Db, t: Id, iid: Id) {
    if !Due(a, t, iid) then b == a
    else
      var timer := a.timers[t];
      && timer.exec in a.execs && t in b.timers && b.timers[t] == timer.(fired := true)
      && if Going(a, iid) && a.execs[timer.exec].status == Running then
           Struck(a, b, timer.exec, timer.interrupting) && Diverted(env, a, b, iid, a.execs[timer.exec].stepId, timer)
         else b == a.(timers := a.timers[t := timer.(fired := true)])
  }

  lemma StruckRows(db: Db, p: Id)
    requires p in db.execs
    ensures var d := Interrupted(db, p);
            d == db.(jobs := d.jobs, tasks := d.tasks, execs := d.execs) && Struck(db, d, p, true)
            && d.jobs.Keys == db.jobs.Keys && d.tasks.Keys == db.tasks.Keys && d.execs.Keys == db.execs.Keys
  {
  }

  lemma StruckKept(env: Env, def: Definition, iid: Id, a: Db, db: Db, d: Db, p: Id, interrupting: bool, t: Id)
    requires Adds(env, def, iid, db, d) && Struck(a, db, p, interrupting) && db.nextId == a.nextId
    requires Below(a.jobs, a.nextId) && Below(a.tasks, a.nextId) && Below(a.execs, a.nextId)
    ensures Struck(a, d, p, interrupting)
    ensures t in db.timers && t < db.nextId ==> t in d.timers && d.timers[t] == db.timers[t]
  {
    hide Ticket, OneRow;
  }

  /** The rows a due timer leaves before its target is dispatched. */
  function FiredRows(a: Db, t: Id): Db
    requires t in a.timers && a.timers[t].exec in a.execs
  {
    var db1 := a.(timers := a.timers[t := a.timers[t].(fired := true)]);
    if a.timers[t].interrupting then Interrupted(db1, a.timers[t].exec) else db1
  }

  lemma FiredRowsStruck(a: Db, t: Id)
    requires t in a.timers && a.timers[t].exec in a.execs
    ensures var d := FiredRows(a, t);
            && Struck(a, d, a.timers[t].exec, a.timers[t].interrupting) && SameKeys(a, d) && d.nextId == a.nextId && d.instances == a.instances
            && d.timers == a.timers[t := a.timers[t].(fired := true)]
  {
    hide Interrupted, Struck;
    var p, db1 := a.timers[t].exec, a.(timers := a.timers[t := a.timers[t].(fired := true)]);
    if a.timers[t].interrupting {
      StruckRows(db1, p);
    } else {
      NotStruck(db1, p);
    }
    SameStruck(a, db1, FiredRows(a, t), p, a.timers[t].interrupting);
  }

  lemma FireStrikes(env: Env, depth: nat, a: Db, t: Id, iid: Id, b: Db)
    requires FireTimer(env, depth, a, t, iid) == Commit(b)
    requires Below(a.jobs, a.nextId) && Below(a.tasks, a.nextId) && Below(a.execs, a.nextId) && Below(a.timers, a.nextId)
    ensures Fired(env, a, b, t, iid)
  {
    hide Dispatch, Interrupted, WithoutStep, Launched, Struck, Adds, Below, SameKeys;
    if Due(a, t, iid) && Going(a, iid) && a.execs[a.timers[t].exec].status == Running {
      var timer, row := a.timers[t], a.instances[iid];
      var mem := if timer.interrupting then row.(current := WithoutStep(row.current, a.execs[timer.exec].stepId)) else row;
      var db := FiredRows(a, t);
      FiredRowsStruck(a, t);
      assert Dispatch(env, depth, db, iid, mem, timer.target).Ok? && b == Dispatch(env, depth, db, iid, mem, timer.target).db;
      hide FireTimer, FiredRows;
      DispatchLaunches(env, depth, a, db, iid, mem, timer.target);
      StruckKept(env, mem.def, iid, a, db, b, timer.exec, timer.interrupting, t);
      assert t < a.nextId by { BelowHas(a.timers, a.nextId, t); }
    }
  }

  lemma BelowHas<V>(rows: map<Id, V>, n: Id, k: Id)
    requires Below(rows, n) && k in rows
    ensures k < n
  {
  }

  lemma NotStruck(db: Db, p: Id)
    ensures Struck(db, db, p, false)
  {
  }

  lemma SameStruck(a: Db, db1: Db, db: Db, p: Id, interrupting: bool)
    requires Struck(db1, db, p, interrupting) && db1 == a.(timers := db1.timers)
    ensures Struck(a, db, p, interrupting)
  {
  }

  // ---- leases ----

  /** A lease may be asked for 5 to 3600 seconds; 0 stands for 30. */
  predicate LeaseAllowed(seconds: int) {
    seconds == 0 || 5 <= seconds <= 3600
  }

  function LeaseMillis(seconds: int): int {
    if seconds == 0 then 30 * 1000 else seconds * 1000
  }

  ghost predicate Claimed(a: Db, b: Db, worker: string, claimed: set<Id>, seconds: int) {
    && b == a.(jobs := b.jobs) && b.jobs.Keys == a.jobs.Keys
    && forall j :: j in a.jobs ==>
         b.jobs[j] == if j in claimed && a.jobs[j].status == Unlocked
                      then a.jobs[j].(status := Locked, worker := worker, expires := Some(a.now + LeaseMillis(seconds)))
                      else a.jobs[j]
  }

  /** A poll locks exactly the claimed jobs that are UNLOCKED, for the time asked for. */
  lemma PollLeases(db: Db, worker: string, claimed: set<Id>, seconds: int)
    ensures var r := Poll(db, worker, claimed, seconds);
            && (r.Commit? <==> LeaseAllowed(seconds)) && (!r.Commit? ==> r.Rollback?)
            && (r.Commit? ==> Claimed(db, r.db, worker, claimed, seconds))
  {
  }

  /** A named worker holds the job of a running execution under a lease that has not ended. */
  ghost predicate MayExtend(db: Db, j: Id, worker: string, seconds: int) {
    worker != "" && LeaseAllowed(seconds) && MayReport(db, j, worker) && db.jobs[j].status == Locked
  }

  /** The stored expiry: the later of the old one and the time asked for, from now. */
  ghost predicate Extended(a: Db, b: Db, j: Id, seconds: int, expiry: int)
    requires j in a.jobs && a.jobs[j].expires.Some?
  {
    && expiry == (if a.jobs[j].expires.value < a.now + LeaseMillis(seconds) then a.now + LeaseMillis(seconds) else a.jobs[j].expires.value)
    && b == a.(jobs := a.jobs[j := a.jobs[j].(expires := Some(expiry))])
  }

  lemma HeartbeatExtends(db: Db, j: Id, worker: string, seconds: int)
    ensures var r := Heartbeat(db, j, worker, seconds);
            if MayExtend(db, j, worker, seconds)
            then r.Commit? && j in r.db.jobs && r.db.jobs[j].expires.Some? && Extended(db, r.db, j, seconds, r.db.jobs[j].expires.value)
            else r.Rollback?
  {
  }

  // ---- replacing an attempt ----

  /** A LOCKED attempt of a running execution; the sweeper takes only lapsed ones. */
  ghost predicate MayReplace(db: Db, j: Id, expiredOnly: bool) {
    && j in db.jobs && db.jobs[j].status == Locked
    && Going(db, db.jobs[j].inst) && db.jobs[j].exec in db.execs && db.execs[db.jobs[j].exec].status == Running
    && (expiredOnly ==> db.jobs[j].expires.None? || db.jobs[j].expires.value <= db.now)
  }

  /** The attempt is cancelled and the same work, retries included, enqueued once more. */
  ghost predicate Replaced(a: Db, b: Db, j: Id)
    requires j in a.jobs
  {
    && b == a.(jobs := b.jobs, latest := b.latest, enqueued := a.enqueued + multiset{a.nextId}, nextId := a.nextId + 1)
    && b.jobs == a.jobs[j := a.jobs[j].(status := JobCancelled)][a.nextId := a.jobs[j].(status := Unlocked, worker := "", expires := None)]
  }

  lemma RetryReplaces(db: Db, j: Id, expiredOnly: bool)
    ensures var r := RetryJob(db, j, expiredOnly);
            && (r.Commit? && r.db != db ==> MayReplace(db, j, expiredOnly))
            && (MayReplace(db, j, expiredOnly) ==> r.Commit? && Replaced(db, r.db, j))
  {
  }

  /** Cancelling ends an instance in flight and changes nothing else. */
  lemma CancelCancels(db: Db, iid: Id)
    ensures Cancel(db, iid) ==
            if Going(db, iid) then Commit(db.(instances := db.instances[iid := db.instances[iid].(status := Cancelled)])) else Rollback
  {
  }

  /** A sweep of the timer table removes the rows that can no longer matter, and no other. */
  lemma HousekeepRemoves(db: Db, retention: nat, t: Id)
    requires t in db.timers
    ensures var d, row := Housekeep(db, retention), db.timers[t];
            && d == db.(timers := d.timers) && (t in d.timers ==> d.timers[t] == row)
            && (t !in d.timers <==>
                  if row.fired then row.fireAt + retention < db.now else row.exec in db.execs && db.execs[row.exec].status != Running)
  {
  }
}
