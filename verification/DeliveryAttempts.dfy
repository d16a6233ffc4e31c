/**
 What one engine transaction may do to delivery attempts it is not about: it never unlocks a
 job, never hands it to another worker, never shortens its lease, and replaces a leased job
 only when the lease has lapsed, its own worker reports a failure or an operator asks for it.
 */
module DeliveryAttempts {
  import opened Values
  import opened Definitions
  import opened Database
  import opened Interpreter
  import opened Transactions
  import opened Invariants
  import opened Evolution
  import opened Plans
  import Transformations

  // ---- one dispatch only adds jobs ----

  ghost predicate JobsGrow(db: Db, db1: Db) {
    && db.nextId <= db1.nextId && Sub(db.jobs, db1.jobs) && Sub(db.latest, db1.latest)
    && Below(db1.jobs, db1.nextId) && Below(db1.latest, db1.nextId)
  }

  ghost predicate JobsUntouched(db: Db, db1: Db) {
    db1.jobs == db.jobs && db1.latest == db.latest && db.nextId <= db1.nextId
  }

  ghost predicate JobsFresh(db: Db) {
    Below(db.jobs, db.nextId) && Below(db.latest, db.nextId)
  }

  lemma UntouchedRows(db: Db, iid: Id)
    ensures forall st :: var d := SetStatus(db, iid, st); JobsUntouched(db, d)
    ensures forall v :: var d := PatchVars(db, iid, v); JobsUntouched(db, d)
    ensures forall ids :: var d := SetCurrent(db, iid, ids); JobsUntouched(db, d)
  {
  }

  lemma {:induction false} ScheduleJobs(env: Env, db: Db, iid: Id, exec: Id, events: seq<BoundaryEvent>)
    ensures var s := Schedule(env, db, iid, exec, events); s.Some? ==> JobsUntouched(db, s.value)
    decreases |events|
  {
    if events != [] {
      if events[0].kind != "TIMER" {
        ScheduleJobs(env, db, iid, exec, events[1..]);
      } else {
        var d := env.duration(events[0].duration);
        if d.Some? {
          var row := Timer(iid, exec, events[0].target, db.now + d.value, events[0].interrupting, false);
          ScheduleJobs(env, InsertTimer(db, row), iid, exec, events[1..]);
        }
      }
    }
  }

  ghost predicate PlanGrows(db: Db, plan: Plan) {
    match plan
    case Stop(o) => o.Ok? ==> JobsGrow(db, o.db)
    case Go(db2, _, _) => JobsGrow(db, db2)
    case Split(db2, _, _) => JobsGrow(db, db2)
  }

  lemma UntouchedGrows(db: Db, db1: Db)
    requires JobsFresh(db) && JobsUntouched(db, db1)
    ensures JobsGrow(db, db1)
  {
  }

  lemma UntouchedThrough(a: Db, b: Db, c: Db)
    requires JobsUntouched(a, b) && JobsUntouched(b, c)
    ensures JobsUntouched(a, c)
  {
  }

  lemma FailUntouched(db: Db, iid: Id, mem: Instance, stepId: string)
    ensures var o := FailStep(db, iid, mem, stepId); o.Ok? && JobsUntouched(db, o.db)
  {
  }

  lemma PassUntouched(db: Db, iid: Id, patch: Vars, stepId: string, exec: Id)
    requires exec in db.execs
    ensures JobsUntouched(db, SetRunning(db, iid, stepId, Succeeded)) && JobsUntouched(db, PassJoin(SetExec(db, exec, Succeeded), exec))
    ensures JobsUntouched(db, SetExec(PatchVars(db, iid, patch), exec, Succeeded))
    ensures JobsUntouched(db, SetRunning(PatchVars(db, iid, patch), iid, stepId, Succeeded))
  {
    hide PatchVars;
    UntouchedRows(db, iid);
    assert JobsUntouched(db, PatchVars(db, iid, patch));
  }

  lemma InsertJobGrows(db: Db, iid: Id, exec: Id, jobType: string, retries: int, payload: Vars)
    requires JobsFresh(db) && exec !in db.latest && exec < db.nextId
    ensures JobsGrow(db, InsertJob(db, iid, exec, jobType, retries, payload))
  {
  }

  lemma GrowThrough(a: Db, b: Db, c: Db)
    requires JobsGrow(a, b) && (JobsGrow(b, c) || JobsUntouched(b, c))
    ensures JobsGrow(a, c)
  {
  }

  lemma ScheduledGrows(env: Env, db: Db, db1: Db, iid: Id, mem: Instance, exec: Id, step: Step)
    requires JobsGrow(db, db1)
    ensures var o := Scheduled(env, db1, iid, mem, exec, step); o.Ok? ==> JobsGrow(db, o.db)
  {
    hide JobsGrow, Schedule;
    ScheduleJobs(env, db1, iid, exec, step.boundaryEvents);
    var s := Schedule(env, db1, iid, exec, step.boundaryEvents);
    if s.Some? {
      GrowThrough(db, db1, s.value);
    }
  }

  lemma ParkGrows(env: Env, db: Db, iid: Id, mem: Instance, step: Step, exec: Id)
    requires exec in db.execs && JobsFresh(db) && exec !in db.latest && exec < db.nextId && Parked(step.typ)
    ensures var o := Route(env, 1, db, iid, mem, step, exec); o.Ok? ==> JobsGrow(db, o.db)
  {
    hide Scheduled, SetStatus, Fork, Dispatch, JobsGrow, InsertJob, JobsUntouched;
    var jobType := if step.jobType == "" then step.id else step.jobType;
    var task := InsertTask(db, iid, exec, step.id);
    assert JobsUntouched(db, task) by { TaskUntouched(db, iid, exec, step.id); }
    UntouchedRows(db, iid);
    UntouchedRows(task, iid);
    match step.typ
    case ServiceTask =>
      InsertJobGrows(db, iid, exec, jobType, step.retryCount, mem.vars);
      ScheduledGrows(env, db, InsertJob(db, iid, exec, jobType, step.retryCount, mem.vars), iid, mem, exec, step);
    case UserTask =>
      assert JobsUntouched(task, SetStatus(task, iid, Waiting));
      UntouchedThrough(db, task, SetStatus(task, iid, Waiting));
      UntouchedGrows(db, SetStatus(task, iid, Waiting));
      ScheduledGrows(env, db, SetStatus(task, iid, Waiting), iid, mem.(status := Waiting), exec, step);
    case Wait =>
      assert JobsUntouched(db, SetStatus(db, iid, Waiting));
      UntouchedGrows(db, SetStatus(db, iid, Waiting));
      ScheduledGrows(env, db, SetStatus(db, iid, Waiting), iid, mem.(status := Waiting), exec, step);
  }

  lemma TaskUntouched(db: Db, iid: Id, exec: Id, stepId: string)
    ensures JobsUntouched(db, InsertTask(db, iid, exec, stepId))
  {
  }

  lemma EndUntouched(env: Env, db: Db, iid: Id, mem: Instance, step: Step, exec: Id)
    requires exec in db.execs && (step.typ == End || step.typ == JoinGateway || step.typ.Unsupported?)
    requires step.typ == JoinGateway ==>
               var gw := GatewayFor(mem.def, step.id);
               gw.Some? ==> |CompletedLeafs(db, iid, gw.value.parallelNextSteps)| < |gw.value.parallelNextSteps|
    ensures var o := Route(env, 1, db, iid, mem, step, exec); o.Ok? ==> JobsUntouched(db, o.db)
  {
    hide SetStatus, SetCurrent, WithoutStep, CompletedLeafs, GatewayFor, Dispatch;
    var ids := Left(mem, step).current;
    var closed := SetExec(db, exec, Succeeded);
    UntouchedRows(closed, iid);
    UntouchedRows(SetCurrent(closed, iid, ids), iid);
    assert JobsUntouched(closed, SetCurrent(closed, iid, ids));
    assert JobsUntouched(SetCurrent(closed, iid, ids), SetStatus(SetCurrent(closed, iid, ids), iid, Completed));
  }

  lemma PlanJobs(env: Env, db: Db, iid: Id, mem: Instance, step: Step, exec: Id)
    requires exec in db.execs && JobsFresh(db) && exec !in db.latest && exec < db.nextId
    ensures PlanGrows(db, PlanOf(env, db, iid, mem, step, exec))
  {
    hide TableOutcome, Transformations.Run, CompletedLeafs, Dispatch, Fork, Scheduled, FindStep, GatewayFor, Choose,
         Left, FailStep, SetRunning, SetExec, PatchVars, Route, SetStatus, InsertJob, InsertTask, JobsGrow, JobsUntouched, PassJoin, JobsFresh;
    FailUntouched(db, iid, mem, step.id);
    UntouchedGrows(db, FailStep(db, iid, mem, step.id).db);
    PassUntouched(db, iid, map[], step.id, exec);
    UntouchedGrows(db, SetRunning(db, iid, step.id, Succeeded));
    UntouchedGrows(db, PassJoin(SetExec(db, exec, Succeeded), exec));
    match step.typ
    case Transformation =>
      var r := Transformations.Run(step.transformations, env.eval, env.clockText(db.now),
                                   env.order(exec, 0, step.transformations.Keys), mem.vars, map[]);
      var patch := if r.Done? then r.delta else map[];
      PassUntouched(db, iid, patch, step.id, exec);
      PatchKeepsExecs(db, iid, patch);
      UntouchedGrows(db, SetExec(PatchVars(db, iid, patch), exec, Succeeded));
    case DecisionTable =>
      var o := TableOutcome(env, exec, db.now, step, mem.vars);
      var patch := if o.Outputs? then o.row else map[];
      PassUntouched(db, iid, patch, step.id, exec);
      UntouchedGrows(db, SetRunning(PatchVars(db, iid, patch), iid, step.id, Succeeded));
    case Decision =>
    case ParallelGateway =>
    case JoinGateway =>
      var gw := GatewayFor(mem.def, step.id);
      if gw.None? || |CompletedLeafs(db, iid, gw.value.parallelNextSteps)| < |gw.value.parallelNextSteps| {
        EndUntouched(env, db, iid, mem, step, exec);
        StopGrows(db, Route(env, 1, db, iid, mem, step, exec));
      }
    case End =>
      EndUntouched(env, db, iid, mem, step, exec);
      StopGrows(db, Route(env, 1, db, iid, mem, step, exec));
    case Unsupported(_) =>
      EndUntouched(env, db, iid, mem, step, exec);
      StopGrows(db, Route(env, 1, db, iid, mem, step, exec));
    case _ => ParkGrows(env, db, iid, mem, step, exec);
  }

  lemma StopGrows(db: Db, o: Outcome)
    requires JobsFresh(db) && (o.Ok? ==> JobsUntouched(db, o.db))
    ensures o.Ok? ==> JobsGrow(db, o.db)
  {
  }

  lemma EnterGrows(db: Db, iid: Id, mem: Instance, step: Step)
    requires JobsFresh(db)
    ensures var db1 := Enter(db, iid, mem, step);
            JobsGrow(db, db1) && JobsFresh(db1) && db.nextId !in db1.latest && db.nextId < db1.nextId && db.nextId in db1.execs
  {
  }

  lemma GrowFresh(db: Db, db1: Db)
    requires JobsGrow(db, db1)
    ensures JobsFresh(db1)
  {
  }

  lemma {:induction false} DispatchJobs(env: Env, n: nat, db: Db, iid: Id, mem: Instance, stepId: string)
    requires JobsFresh(db)
    ensures var o := Dispatch(env, n, db, iid, mem, stepId); o.Ok? ==> JobsGrow(db, o.db)
    decreases n, 1
  {
    hide Route, PlanOf, Enter, Fork, JobsGrow, JobsFresh;
    if n > 0 && FindStep(mem.def, stepId).Some? {
      var step := FindStep(mem.def, stepId).value;
      EnterGrows(db, iid, mem, step);
      var db1, mem1 := Enter(db, iid, mem, step), Entered(mem, step);
      RouteFollowsPlan(env, n, db1, iid, mem1, step, db.nextId);
      PlanJobs(env, db1, iid, mem1, step, db.nextId);
      match PlanOf(env, db1, iid, mem1, step, db.nextId)
      case Stop(o) =>
        if o.Ok? {
          GrowThrough(db, db1, o.db);
        }
      case Go(db2, mem2, next) =>
        GrowThrough(db, db1, db2);
        GrowFresh(db, db2);
        DispatchJobs(env, n - 1, db2, iid, mem2, next);
        var o := Dispatch(env, n - 1, db2, iid, mem2, next);
        if o.Ok? {
          GrowThrough(db, db2, o.db);
        }
      case Split(db2, mem2, branches) =>
        GrowThrough(db, db1, db2);
        GrowFresh(db, db2);
        ForkJobs(env, n, db2, iid, mem2, branches);
        var o := Fork(env, n, db2, iid, mem2, branches);
        if o.Ok? {
          GrowThrough(db, db2, o.db);
        }
    }
  }

  lemma {:induction false} ForkJobs(env: Env, n: nat, db: Db, iid: Id, mem: Instance, branches: seq<string>)
    requires n > 0 && JobsFresh(db)
    ensures var o := Fork(env, n, db, iid, mem, branches); o.Ok? ==> JobsGrow(db, o.db)
    decreases n, 0, |branches|
  {
    hide Dispatch;
    if branches != [] {
      DispatchJobs(env, n - 1, db, iid, mem, branches[0]);
      var o := Dispatch(env, n - 1, db, iid, mem, branches[0]);
      if o.Ok? {
        ForkJobs(env, n, o.db, iid, o.mem, branches[1..]);
      }
    }
  }

  // ---- one transaction ----

  /** A lease changes hands only from UNLOCKED, and is never shortened; retired stays retired. */
  predicate LeaseRow(a: Job, b: Job) {
    && b.exec == a.exec
    && (b == a || !Live(b.status) || a.status == Unlocked
        || (a.status == Locked && b == a.(expires := b.expires) && (a.expires.Some? ==> b.expires.Some? && a.expires.value <= b.expires.value)))
    && (!Live(a.status) ==> b == a)
  }

  ghost predicate LeaseRows(a: Jobs, b: Jobs) {
    forall j :: j in a ==> j in b && LeaseRow(a[j], b[j])
  }

  ghost predicate StageJobs(db: Db, db1: Db) {
    LeaseRows(db.jobs, db1.jobs) && db1.jobs.Keys == db.jobs.Keys && db1.latest == db.latest && db.nextId <= db1.nextId
  }

  /** The events that may hand the execution of job `j` to a new attempt. */
  predicate MayReplace(db: Db, ev: Event, j: Id) {
    || (ev.EvFail? && ev.job == j)
    || (ev.EvRetryJob? && ev.job == j)
    || (ev.EvSweep? && ev.job == j && j in db.jobs && db.jobs[j].status == Locked && !LeaseValid(db, db.jobs[j]))
  }

  ghost predicate LatestKept(db: Db, ev: Event, latest: map<Id, Id>) {
    forall e :: e in db.latest && !MayReplace(db, ev, db.latest[e]) ==> e in latest && latest[e] == db.latest[e]
  }

  ghost predicate LeaseBody(db: Db, ev: Event, body: Body) {
    match body
    case Settle(r) => r.Commit? ==> LeaseRows(db.jobs, r.db.jobs) && LatestKept(db, ev, r.db.latest)
    case Launch(db1, _, _, _, _) => StageJobs(db, db1)
  }

  lemma LeaseRowsReflexive(a: Jobs)
    ensures LeaseRows(a, a)
  {
  }

  lemma StageSides(db0: Db, db: Db, db1: Db)
    requires StageJobs(db0, db) && JobsUntouched(db, db1)
    ensures StageJobs(db0, db1)
  {
  }

  lemma StageSettles(db: Db, db1: Db, ev: Event)
    requires StageJobs(db, db1)
    ensures LeaseRows(db.jobs, db1.jobs) && LatestKept(db, ev, db1.latest)
  {
  }

  lemma AdvanceLeases(env: Env, db0: Db, db: Db, iid: Id, mem: Instance, step: Step, ev: Event)
    requires StageJobs(db0, db)
    ensures LeaseBody(db0, ev, AdvanceBody(env, db, iid, mem, step))
  {
    hide StageJobs, LeaseRows, LatestKept, SetStatus, SetCurrent, FailStep, WithoutStep, Recomputed, Choose, JobsUntouched;
    var mem1, db1 := Leaving(mem, step), Departed(db, iid, mem, step);
    UntouchedRows(db, iid);
    UntouchedRows(SetCurrent(db, iid, mem1.current), iid);
    assert JobsUntouched(db, SetCurrent(db, iid, mem1.current));
    assert JobsUntouched(SetCurrent(db, iid, mem1.current), db1);
    UntouchedThrough(db, SetCurrent(db, iid, mem1.current), db1);
    StageSides(db0, db, db1);
    StageSettles(db0, db1, ev);
    FailUntouched(db1, iid, mem1, step.id);
    StageSides(db0, db1, FailStep(db1, iid, mem1, step.id).db);
    StageSettles(db0, FailStep(db1, iid, mem1, step.id).db, ev);
  }

  lemma CallbackLeases(db: Db, j: Id, worker: string, output: Vars)
    requires Accepts(db, j, worker)
    ensures j in db.jobs && db.jobs[j].exec in db.execs
    ensures var e, iid := db.jobs[j].exec, db.jobs[j].inst;
            && StageJobs(db, Closed(db, j, worker)) && StageJobs(db, Merged(Closed(db, j, worker), iid, e, output))
            && StageJobs(db, SetStatus(SetExec(CancelJobs(db, e), e, Faulted), iid, Failed))
            && StageJobs(db, SetStatus(SetExec(SetJob(db, j, db.jobs[j].(status := JobFailed, worker := worker)), e, Faulted), iid, Failed))
  {
    AcceptedLive(db, j, worker);
    assert db.jobs[j].exec in db.execs;
    hide Accepts, StageJobs;
    var e, iid := db.jobs[j].exec, db.jobs[j].inst;
    RetiredStage(db, j, JobCompleted, worker, Succeeded);
    RetiredStage(db, j, JobFailed, worker, Faulted);
    CancelledStage(db, e);
    hide SetStatus, PatchVars, JobsUntouched, SetExec;
    var closed := Closed(db, j, worker);
    var cancelled := SetExec(CancelJobs(db, e), e, Faulted);
    var failed := SetExec(SetJob(db, j, db.jobs[j].(status := JobFailed, worker := worker)), e, Faulted);
    UntouchedRows(closed, iid);
    UntouchedRows(cancelled, iid);
    UntouchedRows(failed, iid);
    StageSides(db, closed, PatchVars(closed, iid, output));
    MergedIsPatched(closed, iid, e, output);
    StageSides(db, PatchVars(closed, iid, output), Merged(closed, iid, e, output));
    StageSides(db, cancelled, SetStatus(cancelled, iid, Failed));
    StageSides(db, failed, SetStatus(failed, iid, Failed));
  }

  lemma MergedIsPatched(db: Db, iid: Id, e: Id, output: Vars)
    ensures JobsUntouched(PatchVars(db, iid, output), Merged(db, iid, e, output))
  {
  }

  lemma RetiredStage(db: Db, j: Id, status: JobStatus, worker: string, closed: ExecStatus)
    requires j in db.jobs && Live(db.jobs[j].status) && !Live(status) && db.jobs[j].exec in db.execs
    ensures StageJobs(db, SetExec(SetJob(db, j, db.jobs[j].(status := status, worker := worker)), db.jobs[j].exec, closed))
  {
    hide LeaseRows;
    RetireRow(db.jobs, j, status, worker);
  }

  lemma CancelledStage(db: Db, e: Id)
    requires e in db.execs
    ensures e in CancelJobs(db, e).execs && StageJobs(db, SetExec(CancelJobs(db, e), e, Faulted))
  {
    CancelRows(db, e);
    hide LeaseRows, CancelJobs;
  }

  lemma RetireRow(jobs: Jobs, j: Id, status: JobStatus, worker: string)
    requires j in jobs && Live(jobs[j].status) && !Live(status)
    ensures LeaseRows(jobs, jobs[j := jobs[j].(status := status, worker := worker)])
  {
  }

  lemma CancelRows(db: Db, e: Id)
    ensures var d := CancelJobs(db, e);
            LeaseRows(db.jobs, d.jobs) && d.jobs.Keys == db.jobs.Keys && d == db.(jobs := d.jobs)
  {
  }

  lemma StageCommits(db: Db, db1: Db, ev: Event)
    requires StageJobs(db, db1)
    ensures LeaseBody(db, ev, Settle(Commit(db1)))
  {
    StageSettles(db, db1, ev);
  }

  lemma RefusedLeases(db: Db, ev: Event)
    ensures LeaseBody(db, ev, Settle(Rollback)) && LeaseBody(db, ev, Settle(Commit(db)))
  {
    UntouchedStage(db);
    StageCommits(db, db, ev);
  }

  lemma CompleteLeases(env: Env, db: Db, j: Id, worker: string, output: Vars, ev: Event)
    ensures LeaseBody(db, ev, CompleteBody(env, db, j, worker, output))
  {
    hide LeaseBody, StageJobs, FindStep, AdvanceBody, Accepts, SetStatus, Merged, CancelJobs, Closed, SetExec;
    RefusedLeases(db, ev);
    if LockJob(db, j).Some? && Accepts(db, j, worker) {
      CallbackLeases(db, j, worker, output);
      var e, iid := db.jobs[j].exec, db.jobs[j].inst;
      CancelKeepsExecs(db, e);
      MergedHasRow(db, j, worker, output);
      var db1 := Merged(Closed(db, j, worker), iid, e, output);
      StageCommits(db, db1, ev);
      StageCommits(db, SetStatus(SetExec(CancelJobs(db, e), e, Faulted), iid, Failed), ev);
      var found := FindStep(db.instances[iid].def, db.execs[e].stepId);
      if found.Some? {
        AdvanceLeases(env, db, db1, iid, db1.instances[iid], found.value, ev);
      }
    }
  }

  lemma UntouchedStage(db: Db)
    ensures StageJobs(db, db)
  {
  }

  lemma FireLeases(db: Db, t: Id, iid: Id)
    ensures LeaseBody(db, EvFire(t, iid), FireBody(db, t, iid))
  {
    hide WithoutStep, StageJobs, LeaseRows, LatestKept, Interrupted;
    UntouchedStage(db);
    StageSettles(db, db, EvFire(t, iid));
    if t in db.timers {
      var db1 := db.(timers := db.timers[t := db.timers[t].(fired := true)]);
      assert JobsUntouched(db, db1);
      StageSides(db, db, db1);
      StageSettles(db, db1, EvFire(t, iid));
      if db.timers[t].exec in db.execs {
        InterruptedJobs(db1, db.timers[t].exec);
        StageRows(db, db1, Interrupted(db1, db.timers[t].exec));
      }
    }
  }

  lemma StageRows(db: Db, db1: Db, db2: Db)
    requires db1.jobs == db.jobs && db1.latest == db.latest && db1.nextId == db.nextId && StageJobs(db1, db2)
    ensures StageJobs(db, db2)
  {
  }

  lemma InterruptedJobs(db: Db, exec: Id)
    requires exec in db.execs
    ensures StageJobs(db, Interrupted(db, exec))
  {
  }

  lemma ResumeLeases(env: Env, db: Db, iid: Id, stepId: string, vars: Vars, ev: Event)
    ensures LeaseBody(db, ev, UserTaskBody(env, db, iid, stepId, vars))
    ensures LeaseBody(db, ev, SignalBody(env, db, iid, stepId, vars))
  {
    hide StageJobs, LeaseRows, LatestKept, FindStep, AdvanceBody, OpenTasks, RunningOf, SetRunning, PatchVars, CompleteTasks;
    if iid in db.instances && FindStep(db.instances[iid].def, stepId).Some? {
      var row, step := db.instances[iid], FindStep(db.instances[iid].def, stepId).value;
      ResumedUntouched(db, iid, stepId, vars);
      AdvanceLeases(env, db, PatchVars(SetRunning(CompleteTasks(db, iid, stepId), iid, stepId, Succeeded), iid, vars), iid,
                    row.(vars := row.vars + vars), step, ev);
      AdvanceLeases(env, db, PatchVars(SetRunning(db, iid, stepId, Succeeded), iid, vars), iid, row.(vars := row.vars + vars), step, ev);
    }
  }

  lemma ResumedUntouched(db: Db, iid: Id, stepId: string, vars: Vars)
    ensures StageJobs(db, PatchVars(SetRunning(CompleteTasks(db, iid, stepId), iid, stepId, Succeeded), iid, vars))
    ensures StageJobs(db, PatchVars(SetRunning(db, iid, stepId, Succeeded), iid, vars))
  {
    hide PatchVars, LeaseRow;
    UntouchedRows(SetRunning(CompleteTasks(db, iid, stepId), iid, stepId, Succeeded), iid);
    UntouchedRows(SetRunning(db, iid, stepId, Succeeded), iid);
    var a, b := SetRunning(CompleteTasks(db, iid, stepId), iid, stepId, Succeeded), SetRunning(db, iid, stepId, Succeeded);
    assert JobsUntouched(a, PatchVars(a, iid, vars)) && JobsUntouched(b, PatchVars(b, iid, vars));
    UntouchedStage(db);
    StageSides(db, db, a);
    StageSides(db, a, PatchVars(a, iid, vars));
    StageSides(db, db, b);
    StageSides(db, b, PatchVars(b, iid, vars));
  }

  lemma RetryStepLeases(db: Db, iid: Id, stepId: string, patch: Vars, ev: Event)
    ensures LeaseBody(db, ev, RetryStepBody(db, iid, stepId, patch))
  {
    hide FindStep, IsLatestExec, KeyTaken;
  }

  lemma RowsReplaced(jobs: Jobs, j: Id, retired: Job, n: Id, job: Job)
    requires j in jobs && Live(jobs[j].status) && retired.exec == jobs[j].exec && !Live(retired.status) && n !in jobs
    ensures LeaseRows(jobs, jobs[j := retired][n := job])
  {
  }

  lemma NewestJob(db: Db, j: Id)
    requires Inv(db) && j in db.jobs && Live(db.jobs[j].status)
    ensures db.jobs[j].exec in db.latest && db.latest[db.jobs[j].exec] == j && db.nextId !in db.jobs
  {
    hide Typed, Budget, Chained, MergedOnce, Currents, Requested, KeysDistinct, JobRefs, TaskRefs, TimerRefs, ChainRefs, ExecRefs;
  }

  lemma ReplacementLeases(db: Db, j: Id, retired: Job, retries: int, ev: Event)
    requires Inv(db) && j in db.jobs && Live(db.jobs[j].status) && MayReplace(db, ev, j)
    requires retired.exec == db.jobs[j].exec && !Live(retired.status)
    ensures var d := Replacement(SetJob(db, j, retired), db.jobs[j], retries);
            LeaseRows(db.jobs, d.jobs) && LatestKept(db, ev, d.latest)
  {
    hide Inv, LeaseRows;
    NewestJob(db, j);
    var job := db.jobs[j];
    RowsReplaced(db.jobs, j, retired, db.nextId, Job(job.inst, job.exec, job.jobType, Unlocked, "", None, retries, job.payload));
  }

  lemma FailLeases(db: Db, j: Id, worker: string, retryable: bool)
    requires Inv(db)
    ensures LeaseBody(db, EvFail(j, worker, retryable), Settle(FailJob(db, j, worker, retryable)))
  {
    hide Inv, LeaseRows, LatestKept, StageJobs, Accepts, SetStatus, SetExec, Replacement;
    var ev := EvFail(j, worker, retryable);
    UntouchedStage(db);
    StageSettles(db, db, ev);
    if LockJob(db, j).Some? && Accepts(db, j, worker) {
      AcceptedLive(db, j, worker);
      CallbackLeases(db, j, worker, map[]);
      var job := db.jobs[j];
      var retired := job.(status := JobFailed, worker := worker);
      ReplacementLeases(db, j, retired, job.retries - 1, ev);
      FailedExec(db, j, retired);
      StageSettles(db, SetStatus(SetExec(SetJob(db, j, retired), job.exec, Faulted), job.inst, Failed), ev);
    }
  }

  lemma FailedExec(db: Db, j: Id, retired: Job)
    requires j in db.jobs && db.jobs[j].exec in db.execs
    ensures db.jobs[j].exec in SetJob(db, j, retired).execs
  {
  }

  lemma AcceptedLive(db: Db, j: Id, worker: string)
    requires Accepts(db, j, worker)
    ensures j in db.jobs && Live(db.jobs[j].status)
  {
  }

  lemma RetryLeases(db: Db, j: Id, expiredOnly: bool)
    requires Inv(db)
    ensures LeaseBody(db, if expiredOnly then EvSweep(j) else EvRetryJob(j), Settle(RetryJob(db, j, expiredOnly)))
  {
    hide Inv, LeaseRows, LatestKept, StageJobs, Replacement;
    var ev := if expiredOnly then EvSweep(j) else EvRetryJob(j);
    UntouchedStage(db);
    StageSettles(db, db, ev);
    var s := LockJob(db, j);
    if s.Some? && s.value.jobStatus == Locked && (expiredOnly ==> !s.value.leaseValid) {
      ReplacementLeases(db, j, db.jobs[j].(status := JobCancelled), db.jobs[j].retries, ev);
    }
  }

  lemma PollLeases(db: Db, worker: string, claimed: set<Id>, seconds: int, ev: Event)
    ensures LeaseBody(db, ev, Settle(Poll(db, worker, claimed, seconds)))
  {
  }

  lemma HeartbeatLeases(db: Db, j: Id, worker: string, seconds: int, ev: Event)
    ensures LeaseBody(db, ev, Settle(Heartbeat(db, j, worker, seconds)))
  {
  }

  lemma OtherLeases(env: Env, db: Db, ev: Event)
    requires ev.EvStart? || ev.EvChain? || ev.EvCancel? || ev.EvHousekeep? || ev.EvTick?
    ensures LeaseBody(db, ev, BodyOf(env, db, ev))
  {
    hide LeaseRow, KeyTaken, Startable;
    LeaseRowsReflexive(db.jobs);
  }

  lemma LegacyLeases(db: Db, j: Id, worker: string, ev: Event)
    ensures LeaseBody(db, ev, Settle(CompleteLegacy(db, j, worker)))
  {
    hide LeaseBody, Closed, Accepts, StageJobs;
    RefusedLeases(db, ev);
    if LockJob(db, j).Some? && Accepts(db, j, worker) {
      CallbackLeases(db, j, worker, map[]);
      StageCommits(db, Closed(db, j, worker), ev);
    }
  }

  lemma BodyLeases(env: Env, db: Db, ev: Event)
    requires Inv(db)
    ensures LeaseBody(db, ev, BodyOf(env, db, ev))
  {
    hide Inv, CompleteBody, FireBody, UserTaskBody, SignalBody, RetryStepBody, FailJob, RetryJob, Poll, Heartbeat, CompleteLegacy, LeaseBody;
    match ev
    case EvComplete(j, worker, vars) => CompleteLeases(env, db, j, worker, vars, ev);
    case EvFire(t, iid) => FireLeases(db, t, iid);
    case EvUserTask(iid, stepId, vars) => ResumeLeases(env, db, iid, stepId, vars, ev);
    case EvSignal(iid, stepId, vars) => ResumeLeases(env, db, iid, stepId, vars, ev);
    case EvRetryStep(iid, stepId, vars) => RetryStepLeases(db, iid, stepId, vars, ev);
    case EvFail(j, worker, retryable) => FailLeases(db, j, worker, retryable);
    case EvSweep(j) => RetryLeases(db, j, true);
    case EvRetryJob(j) => RetryLeases(db, j, false);
    case EvPoll(worker, claimed, seconds) => PollLeases(db, worker, claimed, seconds, ev);
    case EvHeartbeat(j, worker, seconds) => HeartbeatLeases(db, j, worker, seconds, ev);
    case EvCompleteLegacy(j, worker) => LegacyLeases(db, j, worker, ev);
    case _ => OtherLeases(env, db, ev);
  }

  lemma RowsGrown(a: Jobs, b: Jobs, c: Jobs)
    requires LeaseRows(a, b) && Sub(b, c)
    ensures LeaseRows(a, c)
  {
  }

  lemma FreshStage(db: Db, db1: Db)
    requires Inv(db) && StageJobs(db, db1)
    ensures JobsFresh(db1)
  {
    hide Typed, Budget, Chained, MergedOnce, Currents, Requested, KeysDistinct, JobRefs, TaskRefs, TimerRefs, ChainRefs, ExecRefs, LeaseRow;
  }

  /** Every event of the engine respects the leases it is not about. */
  lemma NextLeases(env: Env, depth: nat, db: Db, ev: Event)
    requires Inv(db)
    ensures var r := Next(env, depth, db, ev); r.Commit? ==> LeaseRows(db.jobs, r.db.jobs) && LatestKept(db, ev, r.db.latest)
  {
    hide Inv, Next, BodyOf, Dispatch, LeaseRows, Acknowledged, StageJobs, LatestKept, JobsFresh, Sub, Below;
    NextPerforms(env, depth, db, ev);
    BodyLeases(env, db, ev);
    match BodyOf(env, db, ev)
    case Settle(_) =>
    case Launch(db1, iid, mem, stepId, ack) =>
      FreshStage(db, db1);
      StageSettles(db, db1, ev);
      DispatchJobs(env, depth, db1, iid, mem, stepId);
      var o := Dispatch(env, depth, db1, iid, mem, stepId);
      if o.Ok? {
        RowsGrown(db.jobs, db1.jobs, o.db.jobs);
        LatestGrown(db, ev, db1.latest, o.db.latest);
        AcknowledgedJobs(o.db, if ack.Some? then ack.value else 0, iid);
      }
  }

  lemma LatestGrown(db: Db, ev: Event, a: map<Id, Id>, b: map<Id, Id>)
    requires LatestKept(db, ev, a) && Sub(a, b)
    ensures LatestKept(db, ev, b)
  {
  }

  lemma AcknowledgedJobs(db: Db, source: Id, child: Id)
    ensures Acknowledged(db, source, child).jobs == db.jobs && Acknowledged(db, source, child).latest == db.latest
  {
  }
}
