/** The step interpreter keeps `Core` and only grows the tables, for every definition. */
module Preservation {
  import opened Values
  import opened Definitions
  import opened Database
  import opened Interpreter
  import opened Invariants
  import Transformations

  // ---- single row operations ----

  lemma TypedKept(a: Instances, b: Instances, iid: Id, execs: Execs)
    requires OneRow(a, b, iid) && Typed(a, execs)
    ensures Typed(b, execs)
  {
    forall e | e in execs ensures StepOf(b, execs[e]) == StepOf(a, execs[e]) {
      assert execs[e].inst in a;
    }
  }

  lemma KeysKept(a: Instances, iid: Id, row: Instance)
    requires KeysDistinct(a) && iid in a && SameIdentity(a[iid], row) && !KeyHeld(a, iid, row.def, row.businessKey)
    ensures KeysDistinct(a[iid := row]) && !KeyHeld(a[iid := row], iid, row.def, row.businessKey)
  {
    var b := a[iid := row];
    forall i | i in b && InFlight(b[i].status) ensures !KeyHeld(b, i, b[i].def, b[i].businessKey) {
    }
  }

  lemma SameJobs(n: Id, jobs: Jobs, instances: Instances, execs: Execs)
    ensures NewJobs(n, jobs, jobs, instances, execs)
  {
  }

  /** Rewriting the row of `iid` without changing its identity. */
  lemma RowChange(db: Db, iid: Id, row: Instance)
    requires Core(db) && iid in db.instances && SameIdentity(db.instances[iid], row)
    requires CurrentOk(row.def, row.current)
    requires row.status == Completed && ChainsOn(row.def) ==> iid in db.chains
    requires !KeyHeld(db.instances, iid, row.def, row.businessKey)
    ensures var db1 := PutInstance(db, iid, row);
            Core(db1) && Grows(db, db1, iid) && !KeyHeld(db1.instances, iid, row.def, row.businessKey)
  {
    hide Typed, Attempts, JobRefs, TaskRefs, TimerRefs, MergedOnce, KeysDistinct, CurrentOk, KeyHeld, NewJobs;
    var db1 := PutInstance(db, iid, row);
    assert OneRow(db.instances, db1.instances, iid);
    TypedKept(db.instances, db1.instances, iid, db.execs);
    KeysKept(db.instances, iid, row);
    SameJobs(db.nextId, db.jobs, db1.instances, db.execs);
  }

  lemma TaskInserted(db: Db, iid: Id, exec: Id, stepId: string)
    requires Core(db) && exec in db.execs && db.execs[exec].inst == iid
    ensures Core(InsertTask(db, iid, exec, stepId)) && Grows(db, InsertTask(db, iid, exec, stepId), iid)
  {
    hide Typed, Attempts, JobRefs, ExecRefs, TimerRefs, ChainRefs, MergedOnce, KeysDistinct, Currents, Requested, NewJobs;
    SameJobs(db.nextId, db.jobs, db.instances, db.execs);
  }

  lemma TimerInserted(db: Db, iid: Id, row: Timer)
    requires Core(db) && row.exec in db.execs && db.execs[row.exec].inst == iid && row.inst == iid
    ensures Core(InsertTimer(db, row)) && Grows(db, InsertTimer(db, row), iid)
  {
    hide Typed, Attempts, JobRefs, ExecRefs, TaskRefs, ChainRefs, MergedOnce, KeysDistinct, Currents, Requested, NewJobs;
    SameJobs(db.nextId, db.jobs, db.instances, db.execs);
  }

  lemma ChainInserted(db: Db, iid: Id, row: Chain)
    requires Core(db) && iid in db.instances && row.child == None
    ensures Core(InsertChain(db, iid, row)) && Grows(db, InsertChain(db, iid, row), iid)
  {
    hide Typed, Attempts, JobRefs, ExecRefs, TaskRefs, TimerRefs, MergedOnce, KeysDistinct, Currents, NewJobs, Below, OneRow, NewExecs, NewTimers;
    SameJobs(db.nextId, db.jobs, db.instances, db.execs);
    GrowsReflexive(db, iid);
  }

  lemma {:induction false} TimersInserted(env: Env, db: Db, iid: Id, exec: Id, events: seq<BoundaryEvent>)
    requires Core(db) && exec in db.execs && db.execs[exec].inst == iid
    ensures var s := Schedule(env, db, iid, exec, events);
            s.Some? ==> Core(s.value) && Grows(db, s.value, iid) && s.value.instances == db.instances
    decreases |events|
  {
    hide Refs, Grows, Core;
    if events == [] {
      GrowsReflexive(db, iid);
    } else if events[0].kind != "TIMER" {
      TimersInserted(env, db, iid, exec, events[1..]);
    } else {
      var d := env.duration(events[0].duration);
      if d.Some? {
        var row := Timer(iid, exec, events[0].target, db.now + d.value, events[0].interrupting, false);
        TimerInserted(db, iid, row);
        var db1 := InsertTimer(db, row);
        TimersInserted(env, db1, iid, exec, events[1..]);
        var s := Schedule(env, db1, iid, exec, events[1..]);
        if s.Some? {
          CoreRefs(db1);
          GrowsTransitive(db, db1, s.value, iid);
        }
      }
    }
  }

  lemma CoreRefs(db: Db)
    requires Core(db)
    ensures Refs(db)
  {
  }

  /** Core(mid) is all that transitivity needs. */
  lemma GrowsVia(a: Db, mid: Db, c: Db, iid: Id)
    requires Core(mid) && Grows(a, mid, iid) && Grows(mid, c, iid)
    ensures Grows(a, c, iid)
  {
    hide Refs, Grows;
    GrowsTransitive(a, mid, c, iid);
  }

  // ---- entering a step ----

  /** The tables after dispatchStep has inserted the execution, with that execution's status. */
  function Placed(db: Db, iid: Id, mem: Instance, step: Step, status: ExecStatus): Db
    requires iid in db.instances
  {
    SetExec(Enter(db, iid, mem, step), db.nextId, status)
  }

  lemma TypedExtended(instances: Instances, execs: Execs, e: Id, row: Exec)
    requires Typed(instances, execs) && StepOf(instances, row).Some? && row.typ == StepOf(instances, row).value.typ
    requires row.status == Running ==> Parked(row.typ)
    ensures Typed(instances, execs[e := row])
  {
  }

  lemma AttemptsExtended(execs: Execs, jobs: Jobs, latest: map<Id, Id>, e: Id, row: Exec)
    requires Attempts(execs, jobs, latest) && e !in execs && (row.typ == ServiceTask ==> row.status != Running)
    ensures Attempts(execs[e := row], jobs, latest)
  {
  }

  /** The same for a RUNNING service task, together with its first attempt. */
  lemma AttemptsWithJob(execs: Execs, jobs: Jobs, latest: map<Id, Id>, e: Id, row: Exec, j: Id, job: Job)
    requires Attempts(execs, jobs, latest) && e !in execs && row.typ == ServiceTask
    requires j !in jobs && job.exec == e && job.status == Unlocked
    ensures Attempts(execs[e := row], jobs[j := job], latest[e := j])
  {
  }

  lemma ReferencesExtended(execs: Execs, jobs: Jobs, tasks: map<Id, UserTaskRow>, timers: map<Id, Timer>, merged: multiset<Id>, e: Id, row: Exec)
    requires e !in execs && JobRefs(execs, jobs) && TaskRefs(execs, tasks) && TimerRefs(execs, timers) && MergedOnce(execs, merged)
    ensures JobRefs(execs[e := row], jobs) && TaskRefs(execs[e := row], tasks)
    ensures TimerRefs(execs[e := row], timers) && MergedOnce(execs[e := row], merged)
  {
  }

  lemma NewestIsFree(db: Db)
    requires Core(db)
    ensures db.nextId !in db.execs && db.nextId !in db.jobs && db.nextId + 1 !in db.jobs
  {
    hide Typed, Attempts, JobRefs, ExecRefs, TaskRefs, TimerRefs, MergedOnce, KeysDistinct, Currents;
  }

  lemma StepOfPlaced(instances: Instances, iid: Id, mem: Instance, step: Step, row: Exec)
    requires iid in instances && instances[iid].def == mem.def && FindStep(mem.def, step.id) == Some(step)
    requires row.inst == iid && row.stepId == step.id
    ensures StepOf(instances, row) == Some(step)
  {
  }

  /** The execution row alone: everything but Attempts, which a RUNNING task without a job would break. */
  lemma ExecPlaced(db: Db, iid: Id, step: Step, row: Exec)
    requires Core(db) && iid in db.instances && FindStep(db.instances[iid].def, step.id) == Some(step)
    requires row.inst == iid && row.stepId == step.id && row.typ == step.typ && (row.status == Running ==> Parked(step.typ))
    ensures var db1 := db.(execs := db.execs[db.nextId := row], nextId := db.nextId + 1);
            && Refs(db1) && Typed(db1.instances, db1.execs) && MergedOnce(db1.execs, db1.merged) && Grows(db, db1, iid)
  {
    hide Typed, Attempts, JobRefs, TaskRefs, TimerRefs, MergedOnce, KeysDistinct, Currents, NewJobs, StepOf;
    NewestIsFree(db);
    StepOfPlaced(db.instances, iid, db.instances[iid], step, row);
    TypedExtended(db.instances, db.execs, db.nextId, row);
    ReferencesExtended(db.execs, db.jobs, db.tasks, db.timers, db.merged, db.nextId, row);
    SameJobs(db.nextId, db.jobs, db.instances, db.execs[db.nextId := row]);
  }

  /** Entering a step, seen as: insert the execution row, then rewrite the instance row. */
  lemma EnterAsRows(db: Db, iid: Id, mem: Instance, step: Step, status: ExecStatus)
    requires Ready(db, iid, mem)
    ensures var row := Exec(iid, step.id, step.typ, |ExecsOf(db, iid, step.id)| + 1, status);
            var mid := db.(execs := db.execs[db.nextId := row], nextId := db.nextId + 1);
            Placed(db, iid, mem, step, status) == PutInstance(mid, iid, db.instances[iid].(current := WithStep(mem.current, step.id)))
    ensures status == Running ==> Placed(db, iid, mem, step, status) == Enter(db, iid, mem, step)
  {
    hide KeyHeld, CurrentOk;
    var row := Exec(iid, step.id, step.typ, |ExecsOf(db, iid, step.id)| + 1, status);
    var entered := Enter(db, iid, mem, step);
    assert entered.execs[db.nextId := row] == db.execs[db.nextId := row];
  }

  lemma EnteredCurrent(db: Db, iid: Id, mem: Instance, step: Step)
    requires Ready(db, iid, mem) && FindStep(mem.def, step.id) == Some(step)
    ensures CurrentOk(mem.def, WithStep(mem.current, step.id))
  {
    hide KeyHeld;
  }

  lemma PlacedCore(db: Db, iid: Id, mem: Instance, step: Step, status: ExecStatus)
    requires Core(db) && Ready(db, iid, mem) && FindStep(mem.def, step.id) == Some(step)
    requires status == Running ==> step.typ in {UserTask, Wait}
    ensures var db1 := Placed(db, iid, mem, step, status);
            Core(db1) && Ready(db1, iid, Entered(mem, step)) && Grows(db, db1, iid)
  {
    hide Refs, Typed, Attempts, MergedOnce, KeysDistinct, Currents, Requested, Grows, CurrentOk, KeyHeld, Placed, Enter;
    var row := Exec(iid, step.id, step.typ, |ExecsOf(db, iid, step.id)| + 1, status);
    var mid := db.(execs := db.execs[db.nextId := row], nextId := db.nextId + 1);
    NewestIsFree(db);
    ExecPlaced(db, iid, step, row);
    AttemptsExtended(db.execs, db.jobs, db.latest, db.nextId, row);
    EnteredCurrent(db, iid, mem, step);
    CoreCurrent(db, iid);
    EnterAsRows(db, iid, mem, step, status);
    RowChange(mid, iid, db.instances[iid].(current := WithStep(mem.current, step.id)));
    GrowsVia(db, mid, Placed(db, iid, mem, step, status), iid);
  }

  lemma EnqueuedOnce(jobs: Jobs, j: Id, job: Job)
    requires j !in jobs
    ensures multiset(jobs.Keys) + multiset{j} == multiset(jobs[j := job].Keys)
  {
    assert jobs[j := job].Keys == jobs.Keys + {j};
  }

  lemma FirstAttempt(n: Id, jobs: Jobs, instances: Instances, execs: Execs, e: Id, j: Id, job: Job)
    requires n <= e && n <= j && j !in jobs && job.exec == e && job.status == Unlocked && e in execs
    requires StepOf(instances, execs[e]).Some? && job.retries == StepOf(instances, execs[e]).value.retryCount
    requires forall k :: k in jobs ==> jobs[k].exec < n
    ensures NewJobs(n, jobs, jobs[j := job], instances, execs)
  {
  }

  lemma JobsPointBelow(db: Db)
    requires Core(db)
    ensures forall k :: k in db.jobs ==> db.jobs[k].exec < db.nextId
  {
    hide Typed, Attempts, ExecRefs, TaskRefs, TimerRefs, MergedOnce, KeysDistinct, Currents;
  }

  /** A service task: the execution and its first attempt are inserted together. */
  lemma TaskPlaced(db: Db, iid: Id, step: Step, row: Exec, job: Job)
    requires Core(db) && iid in db.instances && FindStep(db.instances[iid].def, step.id) == Some(step)
    requires step.typ == ServiceTask && row.inst == iid && row.stepId == step.id && row.typ == step.typ && row.status == Running
    requires job.inst == iid && job.exec == db.nextId && job.status == Unlocked && job.retries == step.retryCount
    ensures var e, j := db.nextId, db.nextId + 1;
            var db1 := db.(execs := db.execs[e := row], jobs := db.jobs[j := job], latest := db.latest[e := j],
                           enqueued := db.enqueued + multiset{j}, nextId := j + 1);
            Core(db1) && Grows(db, db1, iid)
  {
    hide Typed, Attempts, ExecRefs, TaskRefs, TimerRefs, ChainRefs, MergedOnce, KeysDistinct, Currents, Requested, NewJobs, StepOf;
    var e, j := db.nextId, db.nextId + 1;
    NewestIsFree(db);
    ExecPlaced(db, iid, step, row);
    var execs := db.execs[e := row];
    AttemptsWithJob(db.execs, db.jobs, db.latest, e, row, j, job);
    EnqueuedOnce(db.jobs, j, job);
    JobsPointBelow(db);
    StepOfPlaced(db.instances, iid, db.instances[iid], step, row);
    FirstAttempt(db.nextId, db.jobs, db.instances, execs, e, j, job);
    LatestBelow(db);
  }

  lemma LatestBelow(db: Db)
    requires Core(db)
    ensures db.nextId !in db.latest
  {
    hide Typed, JobRefs, ExecRefs, TaskRefs, TimerRefs, MergedOnce, KeysDistinct, Currents;
  }

  lemma PlacedWithJob(db: Db, iid: Id, mem: Instance, step: Step, jobType: string)
    requires Core(db) && Ready(db, iid, mem) && FindStep(mem.def, step.id) == Some(step) && step.typ == ServiceTask
    ensures var db1 := InsertJob(Enter(db, iid, mem, step), iid, db.nextId, jobType, step.retryCount, mem.vars);
            Core(db1) && Ready(db1, iid, Entered(mem, step)) && Grows(db, db1, iid)
  {
    hide Refs, Typed, Attempts, MergedOnce, KeysDistinct, Currents, Requested, Grows, CurrentOk, KeyHeld, Core, Enter;
    var e, j := db.nextId, db.nextId + 1;
    var row := Exec(iid, step.id, step.typ, |ExecsOf(db, iid, step.id)| + 1, Running);
    var job := Job(iid, e, jobType, Unlocked, "", None, step.retryCount, mem.vars);
    var mid := db.(execs := db.execs[e := row], jobs := db.jobs[j := job], latest := db.latest[e := j],
                   enqueued := db.enqueued + multiset{j}, nextId := j + 1);
    TaskPlaced(db, iid, step, row, job);
    EnteredCurrent(db, iid, mem, step);
    CoreCurrent(db, iid);
    EnterAsRows(db, iid, mem, step, Running);
    var inst := db.instances[iid].(current := WithStep(mem.current, step.id));
    RowChange(mid, iid, inst);
    var db1 := InsertJob(Enter(db, iid, mem, step), iid, db.nextId, jobType, step.retryCount, mem.vars);
    assert db1 == PutInstance(mid, iid, inst);
    GrowsVia(db, mid, db1, iid);
  }

  lemma OnlyOwnRunning(db: Db, iid: Id, step: Step)
    requires Core(db) && iid in db.instances && FindStep(db.instances[iid].def, step.id) == Some(step) && !Parked(step.typ)
    ensures forall e :: e in db.execs && db.execs[e].inst == iid && db.execs[e].stepId == step.id ==> db.execs[e].status != Running
    ensures db.nextId !in db.execs
  {
    hide Attempts, JobRefs, TaskRefs, TimerRefs, MergedOnce, KeysDistinct, Currents;
    forall e | e in db.execs && db.execs[e].inst == iid && db.execs[e].stepId == step.id
      ensures db.execs[e].status != Running
    {
      assert StepOf(db.instances, db.execs[e]) == Some(step);
    }
  }

  /** Closing an immediate step by (instance, step) closes exactly the execution just entered. */
  lemma ClosesOwn(db: Db, iid: Id, mem: Instance, step: Step, status: ExecStatus)
    requires Core(db) && Ready(db, iid, mem) && FindStep(mem.def, step.id) == Some(step) && !Parked(step.typ)
    ensures SetRunning(Enter(db, iid, mem, step), iid, step.id, status) == Placed(db, iid, mem, step, status)
  {
    hide Core, CurrentOk, KeyHeld;
    OnlyOwnRunning(db, iid, step);
    var db1 := Enter(db, iid, mem, step);
    assert RunningOf(db1, iid, step.id) == {db.nextId};
    assert SetRunning(db1, iid, step.id, status).execs == SetExec(db1, db.nextId, status).execs;
  }

  // ---- the handlers ----

  lemma WithoutOk(def: Definition, ids: seq<string>, id: string)
    requires CurrentOk(def, ids)
    ensures CurrentOk(def, WithoutStep(ids, id))
  {
  }

  lemma ReadyCurrent(db: Db, iid: Id, mem: Instance, ids: seq<string>)
    requires Ready(db, iid, mem) && CurrentOk(mem.def, ids)
    ensures Ready(db, iid, mem.(current := ids))
  {
  }

  /** A change of status and variables that is made to the row and to the in-memory copy alike. */
  lemma BothChanged(db: Db, iid: Id, mem: Instance, status: InstanceStatus, vars: Vars)
    requires Core(db) && Ready(db, iid, mem)
    requires status == Completed && ChainsOn(mem.def) ==> iid in db.chains
    ensures var db1 := PutInstance(db, iid, db.instances[iid].(status := status, vars := vars));
            Core(db1) && Ready(db1, iid, mem.(status := status, vars := vars)) && Grows(db, db1, iid)
  {
    hide Core, Grows, CurrentOk, KeyHeld;
    CoreCurrent(db, iid);
    RowChange(db, iid, db.instances[iid].(status := status, vars := vars));
  }

  lemma CoreCurrent(db: Db, iid: Id)
    requires Core(db) && iid in db.instances
    ensures CurrentOk(db.instances[iid].def, db.instances[iid].current)
    ensures db.instances[iid].status == Completed && ChainsOn(db.instances[iid].def) ==> iid in db.chains
  {
    hide Refs, Typed, Attempts, MergedOnce, KeysDistinct, CurrentOk;
  }

  lemma ScheduledGood(env: Env, db: Db, iid: Id, mem: Instance, exec: Id, step: Step)
    requires Core(db) && Ready(db, iid, mem) && exec in db.execs && db.execs[exec].inst == iid
    ensures Good(db, iid, Scheduled(env, db, iid, mem, exec, step))
  {
    hide Core, Grows, CurrentOk, KeyHeld;
    TimersInserted(env, db, iid, exec, step.boundaryEvents);
  }

  lemma ServiceTaskGood(env: Env, depth: nat, db: Db, iid: Id, mem: Instance, step: Step)
    requires depth > 0 && Core(db) && Ready(db, iid, mem) && FindStep(mem.def, step.id) == Some(step)
    requires step.typ == ServiceTask
    ensures Good(db, iid, Route(env, depth, Enter(db, iid, mem, step), iid, Entered(mem, step), step, db.nextId))
  {
    hide Core, Grows, Good, Scheduled, CurrentOk, KeyHeld;
    var jobType := if step.jobType == "" then step.id else step.jobType;
    PlacedWithJob(db, iid, mem, step, jobType);
    var mid := InsertJob(Enter(db, iid, mem, step), iid, db.nextId, jobType, step.retryCount, mem.vars);
    ScheduledGood(env, mid, iid, Entered(mem, step), db.nextId, step);
    GoodAfter(db, mid, iid, Scheduled(env, mid, iid, Entered(mem, step), db.nextId, step));
  }

  /** Waiting at a step that has been entered. */
  lemma WaitingGood(env: Env, db: Db, mid: Db, iid: Id, mem: Instance, exec: Id, step: Step)
    requires Core(mid) && Ready(mid, iid, mem) && exec in mid.execs && mid.execs[exec].inst == iid && Grows(db, mid, iid)
    ensures Good(db, iid, Scheduled(env, SetStatus(mid, iid, Waiting), iid, mem.(status := Waiting), exec, step))
  {
    hide Core, Grows, CurrentOk, KeyHeld, Good, Scheduled;
    BothChanged(mid, iid, mem, Waiting, mem.vars);
    var waiting := SetStatus(mid, iid, Waiting);
    GrowsVia(db, mid, waiting, iid);
    ScheduledGood(env, waiting, iid, mem.(status := Waiting), exec, step);
    GoodAfter(db, waiting, iid, Scheduled(env, waiting, iid, mem.(status := Waiting), exec, step));
  }

  lemma ParkedGood(env: Env, depth: nat, db: Db, iid: Id, mem: Instance, step: Step)
    requires depth > 0 && Core(db) && Ready(db, iid, mem) && FindStep(mem.def, step.id) == Some(step)
    requires step.typ in {UserTask, Wait}
    ensures Good(db, iid, Route(env, depth, Enter(db, iid, mem, step), iid, Entered(mem, step), step, db.nextId))
  {
    hide Core, Grows, CurrentOk, KeyHeld, Good, Scheduled, FindStep, SetStatus;
    var exec, mem1 := db.nextId, Entered(mem, step);
    var placed := Enter(db, iid, mem, step);
    EnterAsRows(db, iid, mem, step, Running);
    PlacedCore(db, iid, mem, step, Running);
    hide Enter, Placed;
    if step.typ == UserTask {
      var mid := InsertTask(placed, iid, exec, step.id);
      TaskInserted(placed, iid, exec, step.id);
      GrowsVia(db, placed, mid, iid);
      WaitingGood(env, db, mid, iid, mem1, exec, step);
    } else {
      WaitingGood(env, db, placed, iid, mem1, exec, step);
    }
  }

  lemma FailStepGood(db: Db, iid: Id, mem: Instance, step: Step)
    requires Core(db) && Ready(db, iid, mem) && FindStep(mem.def, step.id) == Some(step) && !Parked(step.typ)
    ensures Good(db, iid, FailStep(Enter(db, iid, mem, step), iid, Entered(mem, step), step.id))
  {
    hide Core, Grows, CurrentOk, KeyHeld, Enter, Placed, SetRunning;
    ClosesOwn(db, iid, mem, step, Faulted);
    PlacedCore(db, iid, mem, step, Faulted);
    var mid, mem1 := Placed(db, iid, mem, step, Faulted), Entered(mem, step);
    BothChanged(mid, iid, mem1, Failed, mem1.vars);
    GrowsVia(db, mid, SetStatus(mid, iid, Failed), iid);
  }

  /** An immediate step that succeeded: its execution is closed, its outputs are merged. */
  function Passed(db: Db, iid: Id, mem: Instance, step: Step, delta: Vars): Db
    requires iid in db.instances
  {
    PatchVars(Placed(db, iid, mem, step, Succeeded), iid, delta)
  }

  function PassedMem(mem: Instance, step: Step, delta: Vars): Instance {
    Left(Entered(mem, step).(vars := mem.vars + delta), step)
  }

  lemma PassedCore(db: Db, iid: Id, mem: Instance, step: Step, delta: Vars)
    requires Core(db) && Ready(db, iid, mem) && FindStep(mem.def, step.id) == Some(step)
    ensures var db1 := Passed(db, iid, mem, step, delta);
            Core(db1) && Ready(db1, iid, PassedMem(mem, step, delta)) && Grows(db, db1, iid)
  {
    hide Core, Grows, CurrentOk, KeyHeld, Placed;
    var mid, mem1 := Placed(db, iid, mem, step, Succeeded), Entered(mem, step);
    PlacedCore(db, iid, mem, step, Succeeded);
    CoreCurrent(mid, iid);
    BothChanged(mid, iid, mem1, mem1.status, mem1.vars + delta);
    var db1 := Passed(db, iid, mem, step, delta);
    assert db1 == PutInstance(mid, iid, mid.instances[iid].(status := mem1.status, vars := mem1.vars + delta));
    GrowsVia(db, mid, db1, iid);
    WithoutOk(mem1.def, mem1.current, step.id);
    ReadyCurrent(db1, iid, mem1.(vars := mem1.vars + delta), WithoutStep(mem1.current, step.id));
  }

  function Request(mem: Instance): Chain {
    Chain(mem.def.nextWorkflowId, mem.vars, mem.businessKey, None)
  }

  /** The end handler, with the chain request inserted before the instance row is rewritten. */
  lemma EndAsRows(env: Env, depth: nat, db: Db, iid: Id, mem: Instance, step: Step)
    requires depth > 0 && Ready(db, iid, mem) && step.typ == End
    ensures var mem1 := Entered(mem, step);
            var placed := Placed(db, iid, mem, step, Succeeded);
            var mid := if ChainsOn(mem.def) then InsertChain(placed, iid, Request(mem)) else placed;
            var out := Left(mem1, step).(status := Completed);
            && iid in mid.instances
            && Route(env, depth, Enter(db, iid, mem, step), iid, mem1, step, db.nextId)
               == Ok(PutInstance(mid, iid, mid.instances[iid].(current := out.current, status := Completed)), out)
  {
    hide CurrentOk, KeyHeld, WithStep, WithoutStep, ExecsOf, Enter, Placed;
    var mem1, placed := Entered(mem, step), Placed(db, iid, mem, step, Succeeded);
    var out := Left(mem1, step).(status := Completed);
    PlacedIsClosed(db, iid, mem, step);
    EndCommutes(placed, iid, Request(mem), out.current);
  }

  lemma PlacedIsClosed(db: Db, iid: Id, mem: Instance, step: Step)
    requires Ready(db, iid, mem)
    ensures db.nextId in Enter(db, iid, mem, step).execs
    ensures SetExec(Enter(db, iid, mem, step), db.nextId, Succeeded) == Placed(db, iid, mem, step, Succeeded)
    ensures iid in Placed(db, iid, mem, step, Succeeded).instances
  {
    hide CurrentOk, KeyHeld, WithStep, ExecsOf;
  }

  /** The order of the chain request and of the instance's last update does not matter. */
  lemma EndCommutes(db: Db, iid: Id, row: Chain, ids: seq<string>)
    requires iid in db.instances
    ensures var done := SetStatus(SetCurrent(db, iid, ids), iid, Completed);
            && done == PutInstance(db, iid, db.instances[iid].(current := ids, status := Completed))
            && InsertChain(done, iid, row) == PutInstance(InsertChain(db, iid, row), iid, db.instances[iid].(current := ids, status := Completed))
            && InsertChain(db, iid, row).instances == db.instances
  {
  }

  lemma EndGood(env: Env, depth: nat, db: Db, iid: Id, mem: Instance, step: Step)
    requires depth > 0 && Core(db) && Ready(db, iid, mem) && FindStep(mem.def, step.id) == Some(step) && step.typ == End
    ensures Good(db, iid, Route(env, depth, Enter(db, iid, mem, step), iid, Entered(mem, step), step, db.nextId))
  {
    hide Core, Grows, CurrentOk, KeyHeld, Route, Placed;
    var mem1 := Entered(mem, step);
    var placed := Placed(db, iid, mem, step, Succeeded);
    PlacedCore(db, iid, mem, step, Succeeded);
    EndAsRows(env, depth, db, iid, mem, step);
    var mid := if ChainsOn(mem.def) then InsertChain(placed, iid, Request(mem)) else placed;
    if ChainsOn(mem.def) {
      ChainInserted(placed, iid, Request(mem));
    } else {
      GrowsReflexive(placed, iid);
    }
    GrowsVia(db, placed, mid, iid);
    WithoutOk(mem1.def, mem1.current, step.id);
    var out := Left(mem1, step).(status := Completed);
    var row := mid.instances[iid].(current := out.current, status := Completed);
    RowChange(mid, iid, row);
    GrowsVia(db, mid, PutInstance(mid, iid, row), iid);
  }

  lemma JoinWaitsGood(db: Db, iid: Id, mem: Instance, step: Step)
    requires Core(db) && Ready(db, iid, mem) && FindStep(mem.def, step.id) == Some(step)
    ensures Good(db, iid, Ok(Placed(db, iid, mem, step, Succeeded), Entered(mem, step)))
  {
    PlacedCore(db, iid, mem, step, Succeeded);
  }

  // ---- the interpreter ----

  lemma {:induction false} DispatchGood(env: Env, depth: nat, db: Db, iid: Id, mem: Instance, stepId: string)
    requires Core(db) && Ready(db, iid, mem)
    ensures Good(db, iid, Dispatch(env, depth, db, iid, mem, stepId))
    decreases depth, 1, 0
  {
    if depth > 0 && FindStep(mem.def, stepId).Some? {
      var step := FindStep(mem.def, stepId).value;
      match step.typ
      case ServiceTask => ServiceTaskGood(env, depth, db, iid, mem, step);
      case UserTask => ParkedGood(env, depth, db, iid, mem, step);
      case Wait => ParkedGood(env, depth, db, iid, mem, step);
      case Decision => DecisionGood(env, depth, db, iid, mem, step);
      case Transformation => TransformationGood(env, depth, db, iid, mem, step);
      case DecisionTable => DecisionTableGood(env, depth, db, iid, mem, step);
      case ParallelGateway => ParallelGood(env, depth, db, iid, mem, step);
      case JoinGateway => JoinGood(env, depth, db, iid, mem, step);
      case End => EndGood(env, depth, db, iid, mem, step);
      case Unsupported(_) =>
    }
  }

  /** The continuation of an immediate step that passed. */
  lemma {:induction false} ContinueGood(env: Env, depth: nat, db: Db, iid: Id, mem: Instance, step: Step, delta: Vars, next: string)
    requires depth > 0 && iid in db.instances
    requires Core(db) && Ready(db, iid, mem) && FindStep(mem.def, step.id) == Some(step)
    ensures Good(db, iid, Dispatch(env, depth - 1, Passed(db, iid, mem, step, delta), iid, PassedMem(mem, step, delta), next))
    decreases depth, 0, 1
  {
    hide *;
    PassedCore(db, iid, mem, step, delta);
    var db1, mem1 := Passed(db, iid, mem, step, delta), PassedMem(mem, step, delta);
    DispatchGood(env, depth - 1, db1, iid, mem1, next);
    GoodAfter(db, db1, iid, Dispatch(env, depth - 1, db1, iid, mem1, next));
  }

  lemma PatchNothing(db: Db, iid: Id)
    requires iid in db.instances
    ensures PatchVars(db, iid, map[]) == db
  {
    assert db.instances[iid].vars + map[] == db.instances[iid].vars;
    assert db.instances[iid := db.instances[iid]] == db.instances;
  }

  lemma PassedNothing(db: Db, iid: Id, mem: Instance, step: Step)
    requires iid in db.instances
    ensures Passed(db, iid, mem, step, map[]) == Placed(db, iid, mem, step, Succeeded)
    ensures PassedMem(mem, step, map[]) == Left(Entered(mem, step), step)
  {
    hide WithStep, WithoutStep, ExecsOf;
    var mid := Placed(db, iid, mem, step, Succeeded);
    assert iid in mid.instances;
    PatchNothing(mid, iid);
    hide Placed;
    assert mem.vars + map[] == mem.vars;
  }

  lemma DecisionGood(env: Env, depth: nat, db: Db, iid: Id, mem: Instance, step: Step)
    requires depth > 0 && Core(db) && Ready(db, iid, mem) && FindStep(mem.def, step.id) == Some(step) && step.typ == Decision
    ensures Good(db, iid, Route(env, depth, Enter(db, iid, mem, step), iid, Entered(mem, step), step, db.nextId))
    decreases depth, 0, 2
  {
    hide Core, Grows, CurrentOk, KeyHeld, Good, Placed, Passed, SetRunning;
    match Choose(env.eval, step.branches, mem.vars)
    case NoBranch => FailStepGood(db, iid, mem, step);
    case Take(target) =>
      ClosesOwn(db, iid, mem, step, Succeeded);
      PassedNothing(db, iid, mem, step);
      ContinueGood(env, depth, db, iid, mem, step, map[], target);
  }

  lemma PatchCommutes(db: Db, iid: Id, exec: Id, delta: Vars)
    requires exec in db.execs
    ensures SetExec(PatchVars(db, iid, delta), exec, Succeeded) == PatchVars(SetExec(db, exec, Succeeded), iid, delta)
  {
  }

  ghost function Transformed(env: Env, db: Db, mem: Instance, step: Step): Transformations.Outcome {
    Transformations.Run(step.transformations, env.eval, env.clockText(db.now),
                        env.order(db.nextId, 0, step.transformations.Keys), mem.vars, map[])
  }

  lemma TransformedVars(env: Env, db: Db, mem: Instance, step: Step)
    ensures var r := Transformed(env, db, mem, step); r.Done? ==> mem.vars + r.delta == r.vars
  {
    Transformations.StoredEqualsInMemory(step.transformations, env.eval, env.clockText(db.now),
      env.order(db.nextId, 0, step.transformations.Keys), mem.vars, map[], mem.vars);
  }

  /** What a transformation step does once its entries have been evaluated. */
  lemma TransformationRoute(env: Env, depth: nat, db: Db, iid: Id, mem: Instance, step: Step)
    requires depth > 0 && iid in db.instances && step.typ == Transformation
    ensures var r := Transformed(env, db, mem, step);
            Route(env, depth, Enter(db, iid, mem, step), iid, Entered(mem, step), step, db.nextId)
            == if r.Failed? then FailStep(Enter(db, iid, mem, step), iid, Entered(mem, step), step.id)
               else Dispatch(env, depth - 1, Passed(db, iid, mem, step, r.delta), iid, PassedMem(mem, step, r.delta), step.nextStep)
  {
    hide Dispatch, Transformations.Run;
    TransformedVars(env, db, mem, step);
    var r := Transformed(env, db, mem, step);
    if r.Done? {
      PatchCommutes(Enter(db, iid, mem, step), iid, db.nextId, r.delta);
    }
  }

  lemma TransformationGood(env: Env, depth: nat, db: Db, iid: Id, mem: Instance, step: Step)
    requires depth > 0 && Core(db) && Ready(db, iid, mem) && FindStep(mem.def, step.id) == Some(step) && step.typ == Transformation
    ensures Good(db, iid, Route(env, depth, Enter(db, iid, mem, step), iid, Entered(mem, step), step, db.nextId))
    decreases depth, 0, 2
  {
    hide Core, Grows, CurrentOk, KeyHeld, Good, Route, Enter, Passed, Transformed;
    TransformationRoute(env, depth, db, iid, mem, step);
    match Transformed(env, db, mem, step)
    case Failed => FailStepGood(db, iid, mem, step);
    case Done(vars, delta) => ContinueGood(env, depth, db, iid, mem, step, delta, step.nextStep);
  }

  lemma DecisionTableGood(env: Env, depth: nat, db: Db, iid: Id, mem: Instance, step: Step)
    requires depth > 0 && Core(db) && Ready(db, iid, mem) && FindStep(mem.def, step.id) == Some(step) && step.typ == DecisionTable
    ensures Good(db, iid, Route(env, depth, Enter(db, iid, mem, step), iid, Entered(mem, step), step, db.nextId))
    decreases depth, 0, 2
  {
    hide Core, Grows, CurrentOk, KeyHeld, Good, Placed, TableOutcome;
    match TableOutcome(env, db.nextId, db.now, step, mem.vars)
    case Failed(_) => FailStepGood(db, iid, mem, step);
    case Outputs(row) =>
      ClosesOwn(db, iid, mem, step, Succeeded);
      assert SetRunning(PatchVars(Enter(db, iid, mem, step), iid, row), iid, step.id, Succeeded) ==
             PatchVars(SetRunning(Enter(db, iid, mem, step), iid, step.id, Succeeded), iid, row);
      ContinueGood(env, depth, db, iid, mem, step, row, step.nextStep);
  }

  lemma ParallelGood(env: Env, depth: nat, db: Db, iid: Id, mem: Instance, step: Step)
    requires depth > 0 && Core(db) && Ready(db, iid, mem) && FindStep(mem.def, step.id) == Some(step) && step.typ == ParallelGateway
    ensures Good(db, iid, Route(env, depth, Enter(db, iid, mem, step), iid, Entered(mem, step), step, db.nextId))
    decreases depth, 0, |step.parallelNextSteps| + 2
  {
    hide Core, Grows, CurrentOk, KeyHeld, Good, Placed, Passed, SetRunning;
    ClosesOwn(db, iid, mem, step, Succeeded);
    PassedNothing(db, iid, mem, step);
    PassedCore(db, iid, mem, step, map[]);
    var db1, mem1 := Passed(db, iid, mem, step, map[]), PassedMem(mem, step, map[]);
    ForkGood(env, depth, db1, iid, mem1, step.parallelNextSteps);
    GoodAfter(db, db1, iid, Fork(env, depth, db1, iid, mem1, step.parallelNextSteps));
  }

  /** History is not part of what the interpreter keeps. */
  lemma PassJoinCore(db: Db, mid: Db, iid: Id, mem: Instance, exec: Id)
    requires Core(mid) && Ready(mid, iid, mem) && Grows(db, mid, iid)
    ensures Core(PassJoin(mid, exec)) && Ready(PassJoin(mid, exec), iid, mem) && Grows(db, PassJoin(mid, exec), iid)
  {
    hide Typed, Attempts, MergedOnce, Currents, Requested, KeysDistinct, OneRow, NewExecs, NewJobs, NewTimers, NewChains, CurrentOk, KeyHeld;
  }

  lemma JoinGood(env: Env, depth: nat, db: Db, iid: Id, mem: Instance, step: Step)
    requires depth > 0 && Core(db) && Ready(db, iid, mem) && FindStep(mem.def, step.id) == Some(step) && step.typ == JoinGateway
    ensures Good(db, iid, Route(env, depth, Enter(db, iid, mem, step), iid, Entered(mem, step), step, db.nextId))
    decreases depth, 0, 2
  {
    hide Core, Grows, CurrentOk, KeyHeld, Passed, Enter, CompletedLeafs;
    JoinWaitsGood(db, iid, mem, step);
    PassedNothing(db, iid, mem, step);
    PassedCore(db, iid, mem, step, map[]);
    var db1, mem1 := Passed(db, iid, mem, step, map[]), PassedMem(mem, step, map[]);
    PassJoinCore(db, db1, iid, mem1, db.nextId);
    var db2 := PassJoin(db1, db.nextId);
    DispatchGood(env, depth - 1, db2, iid, mem1, step.nextStep);
    GoodAfter(db, db2, iid, Dispatch(env, depth - 1, db2, iid, mem1, step.nextStep));
  }

  lemma {:induction false} ForkGood(env: Env, depth: nat, db: Db, iid: Id, mem: Instance, branches: seq<string>)
    requires depth > 0 && Core(db) && Ready(db, iid, mem)
    ensures Good(db, iid, Fork(env, depth, db, iid, mem, branches))
    decreases depth, 0, |branches|
  {
    hide Core, Grows, Ready;
    if branches == [] {
      GrowsReflexive(db, iid);
    } else {
      DispatchGood(env, depth - 1, db, iid, mem, branches[0]);
      match Dispatch(env, depth - 1, db, iid, mem, branches[0])
      case Ok(db1, mem1) =>
        ForkGood(env, depth, db1, iid, mem1, branches[1..]);
        GoodAfter(db, db1, iid, Fork(env, depth, db1, iid, mem1, branches[1..]));
      case Err(_) =>
      case Diverged =>
    }
  }
}
