/** Every transaction of the engine keeps the invariant and undoes nothing. */
module EventProofs {
  import opened Values
  import opened Definitions
  import opened Database
  import opened Interpreter
  import opened Transactions
  import opened Invariants
  import opened Preservation
  import opened Evolution

  // ---- closing executions and retiring attempts ----

  /** Some RUNNING executions are closed, nothing else about them changes. */
  ghost predicate ClosedExecs(a: Execs, b: Execs) {
    a.Keys == b.Keys && forall e :: e in a ==> b[e] == a[e].(status := b[e].status) && (b[e] != a[e] ==> a[e].status == Running)
  }

  /** Attempts change owner or lease, or are retired; those of still RUNNING executions stay live. */
  ghost predicate RetiredJobs(a: Jobs, b: Jobs, execs: Execs) {
    && a.Keys == b.Keys
    && (forall j :: j in a ==>
          && b[j].inst == a[j].inst && b[j].exec == a[j].exec && b[j].retries == a[j].retries && b[j].payload == a[j].payload
          && (Live(b[j].status) ==> Live(a[j].status))
          && (!Live(a[j].status) ==> b[j] == a[j])
          && (Live(a[j].status) && !Live(b[j].status) ==> b[j].exec in execs && execs[b[j].exec].status != Running))
  }

  ghost predicate NoNewFailures(a: Jobs, b: Jobs) {
    forall j :: j in a && j in b && b[j].status == JobFailed ==> a[j].status == JobFailed
  }

  lemma TypedClosed(instances: Instances, a: Execs, b: Execs)
    requires Typed(instances, a) && ClosedExecs(a, b)
    ensures Typed(instances, b)
  {
    forall e | e in b ensures StepOf(instances, b[e]) == StepOf(instances, a[e]) && (b[e].status == Running ==> Parked(b[e].typ)) {
    }
  }

  lemma AttemptsShrunk(a: Execs, b: Execs, jobs: Jobs, jobs': Jobs, latest: map<Id, Id>)
    requires Attempts(a, jobs, latest) && ClosedExecs(a, b) && RetiredJobs(jobs, jobs', b)
    ensures Attempts(b, jobs', latest)
  {
  }

  lemma RefsShrunk(a: Execs, b: Execs, jobs: Jobs, jobs': Jobs, tasks: map<Id, UserTaskRow>, timers: map<Id, Timer>)
    requires JobRefs(a, jobs) && TaskRefs(a, tasks) && TimerRefs(a, timers) && ClosedExecs(a, b) && RetiredJobs(jobs, jobs', b)
    ensures JobRefs(b, jobs') && TaskRefs(b, tasks) && TimerRefs(b, timers)
  {
  }

  lemma MergedClosed(a: Execs, b: Execs, merged: multiset<Id>)
    requires MergedOnce(a, merged) && ClosedExecs(a, b)
    ensures MergedOnce(b, merged)
  {
  }

  lemma CoreShrunk(db: Db, execs: Execs, jobs: Jobs)
    requires Core(db) && ClosedExecs(db.execs, execs) && RetiredJobs(db.jobs, jobs, execs)
    ensures Core(db.(execs := execs, jobs := jobs))
  {
    hide Typed, Attempts, MergedOnce, KeysDistinct, Currents, Requested, JobRefs, TaskRefs, TimerRefs;
    TypedClosed(db.instances, db.execs, execs);
    AttemptsShrunk(db.execs, execs, db.jobs, jobs, db.latest);
    RefsShrunk(db.execs, execs, db.jobs, jobs, db.tasks, db.timers);
    MergedClosed(db.execs, execs, db.merged);
  }

  lemma FailedSame(jobs: Jobs, jobs': Jobs, execs: Execs, e: Id)
    requires RetiredJobs(jobs, jobs', execs) && NoNewFailures(jobs, jobs')
    ensures FailedOf(jobs', e) == FailedOf(jobs, e)
  {
  }

  lemma BudgetShrunkAt(instances: Instances, a: Exec, b: Exec, jobs: Jobs, jobs': Jobs, execs: Execs, newest: Id, e: Id)
    requires RetiredJobs(jobs, jobs', execs) && NoNewFailures(jobs, jobs') && b == a.(status := b.status)
    requires BudgetFor(jobs, newest, e, BudgetOf(instances, a))
    ensures BudgetFor(jobs', newest, e, BudgetOf(instances, b))
  {
    hide FailedOf, FindStep;
    FailedSame(jobs, jobs', execs, e);
    assert StepOf(instances, b) == StepOf(instances, a);
  }

  lemma BudgetShrunk(instances: Instances, a: Execs, b: Execs, jobs: Jobs, jobs': Jobs, latest: map<Id, Id>)
    requires Budget(instances, a, jobs, latest) && ClosedExecs(a, b) && RetiredJobs(jobs, jobs', b) && NoNewFailures(jobs, jobs')
    ensures Budget(instances, b, jobs', latest)
  {
    hide BudgetFor, BudgetOf, RetiredJobs, NoNewFailures;
    forall e | e in latest
      ensures e in b && BudgetFor(jobs', latest[e], e, BudgetOf(instances, b[e]))
    {
      BudgetShrunkAt(instances, a[e], b[e], jobs, jobs', b, latest[e], e);
    }
  }

  // ---- one instance moves ----

  /** `db'` differs from `db` by work on instance `iid` only, and undoes nothing. */
  ghost predicate Moves(db: Db, db': Db, iid: Id) {
    && Core(db')
    && Evolves(db, db')
    && OneRow(db.instances, db'.instances, iid)
    && NewChains(db.chains, db'.chains, iid)
    && (Budget(db.instances, db.execs, db.jobs, db.latest) ==> Budget(db'.instances, db'.execs, db'.jobs, db'.latest))
  }

  lemma MovesTransitive(a: Db, b: Db, c: Db, iid: Id)
    requires Moves(a, b, iid) && Moves(b, c, iid)
    ensures Moves(a, c, iid)
  {
    hide Core, Budget, Evolves;
    EvolvesTransitive(a, b, c);
  }

  lemma MovesReflexive(db: Db, iid: Id)
    requires Core(db)
    ensures Moves(db, db, iid)
  {
    hide Core, Budget;
  }

  /** Rewriting the instance row. */
  lemma RowMoves(db: Db, iid: Id, row: Instance)
    requires Core(db) && iid in db.instances && SameIdentity(db.instances[iid], row) && CurrentOk(row.def, row.current)
    requires !Settled(db.instances[iid].status) && row.status != Completed
    requires !KeyHeld(db.instances, iid, row.def, row.businessKey)
    ensures Moves(db, PutInstance(db, iid, row), iid)
    ensures !KeyHeld(PutInstance(db, iid, row).instances, iid, row.def, row.businessKey)
  {
    hide Core, KeyHeld, CurrentOk, BudgetFor;
    RowChange(db, iid, row);
    var db1 := PutInstance(db, iid, row);
    hide *;
    EvolvesReflexive(db);
    GrowthEvolves(db, db, db1, iid);
    GrowthParts(db, db1, iid);
    if Budget(db.instances, db.execs, db.jobs, db.latest) {
      BudgetGrows(db, db1, iid);
    }
    MovesIntro(db, db1, iid);
  }

  lemma GrowthParts(db: Db, db': Db, iid: Id)
    requires Grows(db, db', iid)
    ensures OneRow(db.instances, db'.instances, iid) && NewChains(db.chains, db'.chains, iid)
  {
  }

  lemma MovesIntro(db: Db, db': Db, iid: Id)
    requires Core(db') && Evolves(db, db') && OneRow(db.instances, db'.instances, iid) && NewChains(db.chains, db'.chains, iid)
    requires Budget(db.instances, db.execs, db.jobs, db.latest) ==> Budget(db'.instances, db'.execs, db'.jobs, db'.latest)
    ensures Moves(db, db', iid)
  {
  }

  lemma ShrinkMoves(db: Db, execs: Execs, jobs: Jobs, iid: Id)
    requires Core(db) && ClosedExecs(db.execs, execs) && RetiredJobs(db.jobs, jobs, execs)
    requires JobsEvolve(db.now, db.jobs, db.now, jobs) && NoNewFailures(db.jobs, jobs)
    ensures Moves(db, db.(execs := execs, jobs := jobs), iid)
  {
    hide Core, Budget, RetiredJobs, JobsEvolve;
    CoreShrunk(db, execs, jobs);
    if Budget(db.instances, db.execs, db.jobs, db.latest) {
      BudgetShrunk(db.instances, db.execs, execs, db.jobs, jobs, db.latest);
    }
  }

  /** Changes to tables that no other table refers to. */
  lemma SideMoves(db: Db, tasks: map<Id, UserTaskRow>, timers: map<Id, Timer>, iid: Id)
    requires Core(db) && Below(tasks, db.nextId) && TaskRefs(db.execs, tasks)
    requires Below(timers, db.nextId) && TimerRefs(db.execs, timers)
    ensures Moves(db, db.(tasks := tasks, timers := timers), iid)
  {
    hide Typed, Attempts, MergedOnce, KeysDistinct, Currents, Requested, JobRefs, TaskRefs, TimerRefs, ExecRefs, Budget;
  }

  /** The continuation of a transaction by a dispatch. */
  lemma DispatchMoves(env: Env, depth: nat, db0: Db, db: Db, iid: Id, mem: Instance, stepId: string)
    requires Moves(db0, db, iid) && Ready(db, iid, mem) && (iid in db0.instances ==> !Settled(db0.instances[iid].status))
    ensures var o := Dispatch(env, depth, db, iid, mem, stepId);
            o.Ok? ==> Moves(db0, o.db, iid)
  {
    hide Core, Budget, Evolves, Ready, Grows, Dispatch;
    DispatchGood(env, depth, db, iid, mem, stepId);
    var o := Dispatch(env, depth, db, iid, mem, stepId);
    if o.Ok? {
      GrowthEvolves(db0, db, o.db, iid);
      GrowthParts(db, o.db, iid);
      if Budget(db.instances, db.execs, db.jobs, db.latest) {
        BudgetGrows(db, o.db, iid);
      }
    }
  }

  // ---- advancePastStep ----

  lemma ClosesRunning(db: Db, iid: Id, stepId: string, status: ExecStatus)
    requires Core(db) && status != Running
    ensures Moves(db, SetRunning(db, iid, stepId, status), iid)
    ensures SetRunning(db, iid, stepId, status).instances == db.instances
  {
    hide Core, Budget, Evolves, Moves;
    var db1 := SetRunning(db, iid, stepId, status);
    ShrinkMoves(db, db1.execs, db.jobs, iid);
  }

  lemma ReadyAfter(db: Db, iid: Id, row: Instance)
    requires iid in db.instances && CurrentOk(row.def, row.current) && !KeyHeld(db.instances[iid := row], iid, row.def, row.businessKey)
    ensures Ready(PutInstance(db, iid, row), iid, row)
  {
  }

  /** failInstance after a step that is not the one just entered. */
  lemma FailMoves(db: Db, iid: Id, mem: Instance, stepId: string)
    requires Core(db) && Ready(db, iid, mem) && !Settled(db.instances[iid].status)
    ensures var o := FailStep(db, iid, mem, stepId); o.Ok? && Moves(db, o.db, iid)
  {
    hide Core, Budget, Evolves, Moves, KeyHeld, CurrentOk, SetRunning;
    ClosesRunning(db, iid, stepId, Faulted);
    var mid := SetRunning(db, iid, stepId, Faulted);
    MovesCore(db, mid, iid);
    CoreCurrent(mid, iid);
    RowMoves(mid, iid, mid.instances[iid].(status := Failed));
    MovesTransitive(db, mid, SetStatus(mid, iid, Failed), iid);
  }

  lemma MovesCore(db: Db, db': Db, iid: Id)
    requires Moves(db, db', iid)
    ensures Core(db')
  {
  }

  /** The first half of advancePastStep: the step leaves the current steps. */
  lemma LeavingMoves(db: Db, iid: Id, mem: Instance, step: Step)
    requires Core(db) && Ready(db, iid, mem) && !Settled(mem.status)
    ensures var mem1 := Leaving(mem, step);
            var db1 := SetStatus(SetCurrent(db, iid, mem1.current), iid, mem1.status);
            && Core(db1) && Moves(db, db1, iid) && Ready(db1, iid, mem1) && InFlight(mem1.status)
  {
    hide Core, Moves, KeyHeld, CurrentOk, WithoutStep, Recomputed;
    var mem1 := Leaving(mem, step);
    WithoutOk(mem.def, mem.current, step.id);
    RecomputedOpen(mem.def, mem1.current);
    RowMoves(db, iid, mem1);
    ReadyAfter(db, iid, mem1);
    MovesCore(db, PutInstance(db, iid, mem1), iid);
    assert PutInstance(db, iid, mem1) == SetStatus(SetCurrent(db, iid, mem1.current), iid, mem1.status);
  }

  lemma FailAfter(db0: Db, db: Db, iid: Id, mem: Instance, stepId: string)
    requires Moves(db0, db, iid) && Ready(db, iid, mem) && InFlight(mem.status)
    ensures var o := FailStep(db, iid, mem, stepId); o.Ok? && Moves(db0, o.db, iid)
  {
    hide Core, Moves, KeyHeld, CurrentOk, SetRunning;
    MovesCore(db0, db, iid);
    FailMoves(db, iid, mem, stepId);
    MovesTransitive(db0, db, FailStep(db, iid, mem, stepId).db, iid);
  }

  lemma AdvanceMoves(env: Env, depth: nat, db: Db, iid: Id, mem: Instance, step: Step)
    requires Core(db) && Ready(db, iid, mem) && !Settled(mem.status)
    ensures var o := Advance(env, depth, db, iid, mem, step); o.Ok? ==> Moves(db, o.db, iid)
  {
    hide Core, Moves, KeyHeld, CurrentOk, Dispatch, Choose, WithoutStep, Recomputed, SetStatus, SetCurrent, FailStep;
    LeavingMoves(db, iid, mem, step);
    var mem1 := Leaving(mem, step);
    var db1 := SetStatus(SetCurrent(db, iid, mem1.current), iid, mem1.status);
    if step.branches != [] {
      match Choose(env.eval, step.branches, mem.vars)
      case NoBranch => FailAfter(db, db1, iid, mem1, step.id);
      case Take(target) => DispatchMoves(env, depth, db, db1, iid, mem1, target);
    } else if step.nextStep != "" {
      DispatchMoves(env, depth, db, db1, iid, mem1, step.nextStep);
    }
  }

  lemma RecomputedOpen(def: Definition, ids: seq<string>)
    ensures InFlight(Recomputed(def, ids))
  {
  }

  // ---- every event keeps the invariant ----

  /** What an event may leave behind. */
  ghost predicate Kept(db: Db, r: TxResult) {
    r.Commit? ==> Inv(r.db) && Evolves(db, r.db)
  }

  lemma ChainedKept(a: Instances, b: Instances, iid: Id, chains: map<Id, Chain>, chains': map<Id, Chain>)
    requires Chained(a, chains) && OneRow(a, b, iid) && NewChains(chains, chains', iid)
    ensures Chained(b, chains')
  {
    forall i | i in b && b[i].origin.Some?
      ensures b[i].origin.value in chains' && chains'[b[i].origin.value].child == Some(i)
    {
      assert a[i].origin == b[i].origin;
    }
  }

  lemma MovesKept(db: Db, db': Db, iid: Id)
    requires Inv(db) && Moves(db, db', iid)
    ensures Inv(db') && Evolves(db, db')
  {
    hide Core, Budget, Evolves, Chained;
    ChainedKept(db.instances, db'.instances, iid, db.chains, db'.chains);
  }

  lemma FinishKept(db: Db, iid: Id, o: Outcome)
    requires Inv(db) && (o.Ok? ==> Moves(db, o.db, iid))
    ensures Kept(db, Finish(o))
  {
    hide Inv, Moves, Evolves;
    if o.Ok? {
      MovesKept(db, o.db, iid);
    }
  }

  lemma SameKept(db: Db)
    requires Inv(db)
    ensures Kept(db, Commit(db))
  {
    hide Inv;
    EvolvesReflexive(db);
  }

  lemma InvCore(db: Db)
    requires Inv(db)
    ensures Core(db)
  {
  }

  /** An in-flight instance holds its business key. */
  lemma InFlightReady(db: Db, iid: Id)
    requires Core(db) && iid in db.instances && InFlight(db.instances[iid].status)
    ensures Ready(db, iid, db.instances[iid])
  {
    hide Refs, Typed, Attempts, MergedOnce, Requested, CurrentOk, KeyHeld;
  }

  // ---- polling, leases, failures ----

  lemma ClaimedJobs(now: int, a: Jobs, b: Jobs, claimed: set<Id>, worker: string, until: int, execs: Execs)
    requires until > now && a.Keys == b.Keys
    requires forall j :: j in a ==> b[j] == if j in claimed && a[j].status == Unlocked
                                            then a[j].(status := Locked, worker := worker, expires := Some(until)) else a[j]
    ensures RetiredJobs(a, b, execs) && JobsEvolve(now, a, now, b) && NoNewFailures(a, b)
  {
  }

  lemma PollKept(db: Db, worker: string, claimed: set<Id>, seconds: int)
    requires Inv(db)
    ensures Kept(db, Poll(db, worker, claimed, seconds))
  {
    hide Core, Inv, Moves, Evolves, RetiredJobs, JobsEvolve;
    var r := Poll(db, worker, claimed, seconds);
    if r.Commit? {
      InvCore(db);
      ClaimedJobs(db.now, db.jobs, r.db.jobs, claimed, worker, LeaseEnd(db, LeaseSeconds(seconds).value), db.execs);
      assert r.db == db.(execs := db.execs, jobs := r.db.jobs);
      ShrinkMoves(db, db.execs, r.db.jobs, 0);
      MovesKept(db, r.db, 0);
    }
  }

  /** A lease that is still valid is extended. */
  lemma RenewedRows(now: int, jobs: Jobs, j: Id, until: int, execs: Execs)
    requires j in jobs && jobs[j].status == Locked && jobs[j].expires.Some? && jobs[j].expires.value > now && jobs[j].expires.value <= until
    ensures var b := jobs[j := jobs[j].(expires := Some(until))];
            ClosedExecs(execs, execs) && RetiredJobs(jobs, b, execs) && JobsEvolve(now, jobs, now, b) && NoNewFailures(jobs, b)
  {
  }

  lemma HeartbeatKept(db: Db, j: Id, worker: string, seconds: int)
    requires Inv(db)
    ensures Kept(db, Heartbeat(db, j, worker, seconds))
  {
    hide Core, Inv, Moves, Evolves, ClosedExecs, RetiredJobs, JobsEvolve, NoNewFailures;
    var r := Heartbeat(db, j, worker, seconds);
    if r.Commit? {
      InvCore(db);
      assert r.db == db.(execs := db.execs, jobs := r.db.jobs);
      RenewedRows(db.now, db.jobs, j, r.db.jobs[j].expires.value, db.execs);
      assert r.db.jobs == db.jobs[j := db.jobs[j].(expires := Some(r.db.jobs[j].expires.value))];
      ShrinkMoves(db, db.execs, r.db.jobs, 0);
      MovesKept(db, r.db, 0);
    }
  }

  /** Retiring a live attempt and inserting its replacement. */
  lemma AttemptsReplaced(execs: Execs, jobs: Jobs, latest: map<Id, Id>, j: Id, retired: Job, n: Id, job: Job)
    requires Attempts(execs, jobs, latest) && j in jobs && Live(jobs[j].status)
    requires retired.exec == jobs[j].exec && !Live(retired.status)
    requires n !in jobs && job.exec == jobs[j].exec && job.status == Unlocked
    ensures Attempts(execs, jobs[j := retired][n := job], latest[job.exec := n])
  {
  }

  lemma CoreReplaced(db: Db, j: Id, status: JobStatus, worker: string, retries: int)
    requires Core(db) && j in db.jobs && Live(db.jobs[j].status) && !Live(status)
    ensures Core(Replacement(SetJob(db, j, db.jobs[j].(status := status, worker := worker)), db.jobs[j], retries))
  {
    hide Typed, Attempts, MergedOnce, KeysDistinct, Currents, Requested, TaskRefs, TimerRefs, ExecRefs;
    var row := db.jobs[j];
    var retired := row.(status := status, worker := worker);
    var job := Job(row.inst, row.exec, row.jobType, Unlocked, "", None, retries, row.payload);
    NewestIsFree(db);
    AttemptsReplaced(db.execs, db.jobs, db.latest, j, retired, db.nextId, job);
    assert db.jobs[j := retired].Keys == db.jobs.Keys;
    EnqueuedOnce(db.jobs[j := retired], db.nextId, job);
  }

  lemma JobsReplacedEvolve(now: int, jobs: Jobs, j: Id, retired: Job, n: Id, job: Job)
    requires j in jobs && Live(jobs[j].status) && !Live(retired.status) && n !in jobs
    requires retired.inst == jobs[j].inst && retired.exec == jobs[j].exec && retired.retries == jobs[j].retries && retired.payload == jobs[j].payload
    ensures JobsEvolve(now, jobs, now, jobs[j := retired][n := job])
  {
  }

  /** The replacement of a cancelled attempt spends nothing; that of a failed one spends one retry. */
  lemma BudgetReplaced(instances: Instances, execs: Execs, jobs: Jobs, latest: map<Id, Id>, j: Id, retired: Job, n: Id, job: Job)
    requires Attempts(execs, jobs, latest) && Budget(instances, execs, jobs, latest)
    requires j in jobs && Live(jobs[j].status) && !Live(retired.status) && retired.exec == jobs[j].exec
    requires n !in jobs && job.exec == jobs[j].exec && job.status == Unlocked
    requires retired.status == JobFailed ==> jobs[j].retries > 0 && job.retries == jobs[j].retries - 1
    requires retired.status != JobFailed ==> job.retries == jobs[j].retries
    ensures Budget(instances, execs, jobs[j := retired][n := job], latest[job.exec := n])
  {
    hide BudgetFor, BudgetOf, FailedOf;
    var jobs1, latest1 := jobs[j := retired][n := job], latest[job.exec := n];
    forall e | e in latest1 ensures e in execs && BudgetFor(jobs1, latest1[e], e, BudgetOf(instances, execs[e])) {
      if e == job.exec {
        assert latest[e] == j;
        ReplacedOwn(jobs, j, retired, n, job, BudgetOf(instances, execs[e]));
      } else {
        assert latest[e] != j;
        ReplacedOther(jobs, j, retired, n, job, latest[e], e, BudgetOf(instances, execs[e]));
      }
    }
  }

  /** The execution whose attempt is replaced. */
  lemma ReplacedOwn(jobs: Jobs, j: Id, retired: Job, n: Id, job: Job, budget: int)
    requires j in jobs && Live(jobs[j].status) && !Live(retired.status) && retired.exec == jobs[j].exec
    requires n !in jobs && job.exec == jobs[j].exec && job.status == Unlocked
    requires retired.status == JobFailed ==> jobs[j].retries > 0 && job.retries == jobs[j].retries - 1
    requires retired.status != JobFailed ==> job.retries == jobs[j].retries
    requires BudgetFor(jobs, j, job.exec, budget)
    ensures BudgetFor(jobs[j := retired][n := job], n, job.exec, budget)
  {
    FailedReplaced(jobs, j, retired, n, job);
    hide FailedOf;
  }

  lemma ReplacedOther(jobs: Jobs, j: Id, retired: Job, n: Id, job: Job, newest: Id, e: Id, budget: int)
    requires j in jobs && retired.exec == jobs[j].exec == job.exec && n !in jobs && e != job.exec && newest != j
    requires BudgetFor(jobs, newest, e, budget)
    ensures BudgetFor(jobs[j := retired][n := job], newest, e, budget)
  {
    assert FailedOf(jobs[j := retired][n := job], e) == FailedOf(jobs, e);
  }

  lemma FailedReplaced(jobs: Jobs, j: Id, retired: Job, n: Id, job: Job)
    requires j in jobs && Live(jobs[j].status) && retired.exec == jobs[j].exec == job.exec && n !in jobs && job.status == Unlocked
    ensures retired.status == JobFailed ==> |FailedOf(jobs[j := retired][n := job], job.exec)| == |FailedOf(jobs, job.exec)| + 1
    ensures retired.status != JobFailed ==> FailedOf(jobs[j := retired][n := job], job.exec) == FailedOf(jobs, job.exec)
  {
    var e := job.exec;
    var mid := jobs[j := retired];
    assert FailedOf(mid[n := job], e) == FailedOf(mid, e);
    FailedRetired(jobs, j, retired);
  }

  lemma FailedRetired(jobs: Jobs, j: Id, retired: Job)
    requires j in jobs && Live(jobs[j].status) && retired.exec == jobs[j].exec
    ensures retired.status == JobFailed ==> |FailedOf(jobs[j := retired], retired.exec)| == |FailedOf(jobs, retired.exec)| + 1
    ensures retired.status != JobFailed ==> FailedOf(jobs[j := retired], retired.exec) == FailedOf(jobs, retired.exec)
  {
    var a, b := FailedOf(jobs, retired.exec), FailedOf(jobs[j := retired], retired.exec);
    if retired.status == JobFailed {
      assert j !in a;
      assert b == a + {j};
    } else {
      assert b == a;
    }
  }

  lemma ReplacedKept(db: Db, j: Id, status: JobStatus, worker: string, retries: int)
    requires Inv(db) && j in db.jobs && Live(db.jobs[j].status) && !Live(status)
    requires status == JobFailed ==> db.jobs[j].retries > 0 && retries == db.jobs[j].retries - 1
    requires status != JobFailed ==> retries == db.jobs[j].retries
    ensures Kept(db, Commit(Replacement(SetJob(db, j, db.jobs[j].(status := status, worker := worker)), db.jobs[j], retries)))
  {
    hide Refs, Typed, Attempts, MergedOnce, KeysDistinct, Currents, Requested, Budget, Chained, JobsEvolve;
    var row := db.jobs[j];
    var retired := row.(status := status, worker := worker);
    var job := Job(row.inst, row.exec, row.jobType, Unlocked, "", None, retries, row.payload);
    NewestIsFree(db);
    CoreReplaced(db, j, status, worker, retries);
    BudgetReplaced(db.instances, db.execs, db.jobs, db.latest, j, retired, db.nextId, job);
    JobsReplacedEvolve(db.now, db.jobs, j, retired, db.nextId, job);
  }

  lemma RetryJobKept(db: Db, j: Id, expiredOnly: bool)
    requires Inv(db)
    ensures Kept(db, RetryJob(db, j, expiredOnly))
  {
    hide Inv, Kept, Replacement;
    SameKept(db);
    RollbackKept(db);
    var r := RetryJob(db, j, expiredOnly);
    if r.Commit? && r.db != db {
      var row := db.jobs[j];
      assert row.(status := JobCancelled) == row.(status := JobCancelled, worker := row.worker);
      ReplacedKept(db, j, JobCancelled, row.worker, row.retries);
    }
  }

  lemma RollbackKept(db: Db)
    ensures Kept(db, Rollback) && Kept(db, Endless) && forall e :: Kept(db, Aborted(e))
  {
  }

  lemma ExecClosed(execs: Execs, e: Id, status: ExecStatus)
    requires e in execs && execs[e].status == Running && status != Running
    ensures ClosedExecs(execs, execs[e := execs[e].(status := status)])
  {
  }

  lemma JobRetired(now: int, jobs: Jobs, j: Id, status: JobStatus, worker: string, execs: Execs)
    requires j in jobs && Live(jobs[j].status) && !Live(status)
    requires jobs[j].exec in execs && execs[jobs[j].exec].status != Running
    ensures var b := jobs[j := jobs[j].(status := status, worker := worker)];
            && RetiredJobs(jobs, b, execs) && JobsEvolve(now, jobs, now, b)
            && (status != JobFailed ==> NoNewFailures(jobs, b))
  {
  }

  /** The last failure of an execution stays within its budget. */
  lemma BudgetSpent(instances: Instances, a: Execs, b: Execs, jobs: Jobs, latest: map<Id, Id>, j: Id, worker: string)
    requires Attempts(a, jobs, latest) && Budget(instances, a, jobs, latest) && ClosedExecs(a, b)
    requires j in jobs && Live(jobs[j].status)
    ensures Budget(instances, b, jobs[j := jobs[j].(status := JobFailed, worker := worker)], latest)
  {
    var failed := jobs[j].(status := JobFailed, worker := worker);
    var jobs1 := jobs[j := failed];
    forall e | e in latest ensures e in b && BudgetFor(jobs1, latest[e], e, BudgetOf(instances, b[e])) {
      assert StepOf(instances, b[e]) == StepOf(instances, a[e]);
      if e == jobs[j].exec {
        FailedRetired(jobs, j, failed);
      } else {
        assert FailedOf(jobs1, e) == FailedOf(jobs, e);
      }
    }
  }

  /** What an accepted callback tells about the rows of its job. */
  lemma AcceptedRows(db: Db, j: Id, worker: string)
    requires Core(db) && Accepts(db, j, worker)
    ensures j in db.jobs && Live(db.jobs[j].status)
    ensures var e, iid := db.jobs[j].exec, db.jobs[j].inst;
            && e in db.execs && db.execs[e].status == Running && db.execs[e].inst == iid
            && iid in db.instances && InFlight(db.instances[iid].status)
            && Ready(db, iid, db.instances[iid])
  {
    hide Typed, Attempts, MergedOnce, KeysDistinct, Currents, Requested, TaskRefs, TimerRefs, ExecRefs, Ready, Refs;
    JobRefsOf(db, j);
    InFlightReady(db, db.jobs[j].inst);
  }

  lemma JobRefsOf(db: Db, j: Id)
    requires Core(db) && j in db.jobs
    ensures db.jobs[j].exec in db.execs && db.execs[db.jobs[j].exec].inst == db.jobs[j].inst
  {
    hide Typed, Attempts, MergedOnce, KeysDistinct, Currents, Requested, TaskRefs, TimerRefs, ExecRefs;
  }

  lemma ClosedMoves(db: Db, j: Id, worker: string)
    requires Core(db) && Accepts(db, j, worker)
    ensures j in db.jobs && db.jobs[j].exec in db.execs && Moves(db, Closed(db, j, worker), db.jobs[j].inst)
  {
    hide Core, Moves, Ready, RetiredJobs, ClosedExecs, JobsEvolve, NoNewFailures, Accepts;
    AcceptedRows(db, j, worker);
    var e := db.jobs[j].exec;
    ExecClosed(db.execs, e, Succeeded);
    var execs := db.execs[e := db.execs[e].(status := Succeeded)];
    JobRetired(db.now, db.jobs, j, JobCompleted, worker, execs);
    ShrinkMoves(db, execs, db.jobs[j := db.jobs[j].(status := JobCompleted, worker := worker)], db.jobs[j].inst);
  }

  lemma CompleteLegacyKept(db: Db, j: Id, worker: string)
    requires Inv(db)
    ensures Kept(db, CompleteLegacy(db, j, worker))
  {
    hide Inv, Kept, Closed, Moves, Accepts, Evolves;
    SameKept(db);
    RollbackKept(db);
    if LockJob(db, j).Some? && Accepts(db, j, worker) {
      InvCore(db);
      ClosedMoves(db, j, worker);
      MovesKept(db, Closed(db, j, worker), db.jobs[j].inst);
      CommitKept(db, Closed(db, j, worker));
    }
  }

  lemma CommitKept(db: Db, db': Db)
    requires Inv(db') && Evolves(db, db')
    ensures Kept(db, Commit(db'))
  {
  }

  /** Both rows of a job leave the RUNNING state in a terminal failure. */
  lemma TerminalFailureMoves(db: Db, j: Id, worker: string)
    requires Core(db) && Accepts(db, j, worker)
    ensures j in db.jobs && db.jobs[j].exec in db.execs
    ensures Moves(db, SetExec(SetJob(db, j, db.jobs[j].(status := JobFailed, worker := worker)), db.jobs[j].exec, Faulted), db.jobs[j].inst)
  {
    hide Refs, Typed, Attempts, MergedOnce, KeysDistinct, Currents, Requested, Ready, RetiredJobs, ClosedExecs, JobsEvolve, Accepts, Budget;
    AcceptedRows(db, j, worker);
    var e := db.jobs[j].exec;
    ExecClosed(db.execs, e, Faulted);
    var execs := db.execs[e := db.execs[e].(status := Faulted)];
    JobRetired(db.now, db.jobs, j, JobFailed, worker, execs);
    var jobs := db.jobs[j := db.jobs[j].(status := JobFailed, worker := worker)];
    CoreShrunk(db, execs, jobs);
    ClosedEvolve(db.execs, execs);
    if Budget(db.instances, db.execs, db.jobs, db.latest) {
      BudgetSpent(db.instances, db.execs, execs, db.jobs, db.latest, j, worker);
    }
    var db1 := SetExec(SetJob(db, j, db.jobs[j].(status := JobFailed, worker := worker)), e, Faulted);
    assert db1 == db.(execs := execs, jobs := jobs);
  }

  lemma ClosedEvolve(a: Execs, b: Execs)
    requires ClosedExecs(a, b)
    ensures ExecsEvolve(a, b)
  {
  }

  /** The instance of an accepted callback is failed. */
  lemma InstanceFailed(db0: Db, db: Db, iid: Id)
    requires Moves(db0, db, iid) && db.instances == db0.instances && iid in db.instances && InFlight(db.instances[iid].status)
    ensures Moves(db0, SetStatus(db, iid, Failed), iid)
  {
    hide Core, Moves, KeyHeld, CurrentOk;
    MovesCore(db0, db, iid);
    InFlightReady(db, iid);
    RowMoves(db, iid, db.instances[iid].(status := Failed));
    MovesTransitive(db0, db, SetStatus(db, iid, Failed), iid);
  }

  lemma FailJobKept(db: Db, j: Id, worker: string, retryable: bool)
    requires Inv(db)
    ensures Kept(db, FailJob(db, j, worker, retryable))
  {
    hide Inv, Kept, Moves, Accepts, Evolves, Replacement, SetStatus, Core, Ready;
    SameKept(db);
    RollbackKept(db);
    if LockJob(db, j).Some? && Accepts(db, j, worker) {
      InvCore(db);
      AcceptedRows(db, j, worker);
      var job := db.jobs[j];
      if retryable && job.retries > 0 {
        ReplacedKept(db, j, JobFailed, worker, job.retries - 1);
      } else {
        TerminalFailureMoves(db, j, worker);
        var mid := SetExec(SetJob(db, j, job.(status := JobFailed, worker := worker)), job.exec, Faulted);
        InstanceFailed(db, mid, job.inst);
        MovesKept(db, SetStatus(mid, job.inst, Failed), job.inst);
        CommitKept(db, SetStatus(mid, job.inst, Failed));
      }
    }
  }

  // ---- completing a job ----

  lemma MergedMoves(db: Db, iid: Id, e: Id, output: Vars)
    requires Core(db) && iid in db.instances && Ready(db, iid, db.instances[iid]) && InFlight(db.instances[iid].status)
    requires e in db.execs && db.execs[e].status == Succeeded && e !in db.merged
    ensures var db1 := Merged(db, iid, e, output);
            Core(db1) && Moves(db, db1, iid) && Ready(db1, iid, db1.instances[iid]) && InFlight(db1.instances[iid].status)
  {
    hide Typed, Attempts, KeysDistinct, Currents, Requested, CurrentOk, KeyHeld, Budget;
    hide Below, ExecRefs, JobRefs, TaskRefs, TimerRefs, ChainRefs, InstancesEvolve, ExecsEvolve, JobsEvolve, ChainsEvolve;
    var row := db.instances[iid].(vars := db.instances[iid].vars + output);
    RowMoves(db, iid, row);
    ReadyAfter(db, iid, row);
    var db1 := Merged(db, iid, e, output);
    assert db1 == PutInstance(db, iid, row).(merged := db.merged + multiset{e});
  }

  lemma NotYetMerged(db: Db, e: Id)
    requires Core(db) && e in db.execs && db.execs[e].status == Running
    ensures e !in db.merged
  {
    hide Refs, Typed, Attempts, KeysDistinct, Currents, Requested;
  }

  lemma SchemaFailureMoves(db: Db, j: Id, worker: string)
    requires Core(db) && Accepts(db, j, worker)
    ensures j in db.jobs && db.jobs[j].exec in db.execs
    ensures Moves(db, SetExec(CancelJobs(db, db.jobs[j].exec), db.jobs[j].exec, Faulted), db.jobs[j].inst)
  {
    hide Core, Moves, Ready, ClosedExecs, Accepts;
    AcceptedRows(db, j, worker);
    ExecCancelledMoves(db, db.jobs[j].exec, db.jobs[j].inst);
    var e := db.jobs[j].exec;
    assert SetExec(CancelJobs(db, e), e, Faulted) == CancelJobs(SetExec(db, e, Faulted), e);
  }

  lemma JobsCancelled(now: int, jobs: Jobs, exec: Id, execs: Execs)
    requires exec in execs && execs[exec].status != Running
    ensures var b := map j | j in jobs :: if jobs[j].exec == exec && Live(jobs[j].status) then jobs[j].(status := JobCancelled) else jobs[j];
            RetiredJobs(jobs, b, execs) && JobsEvolve(now, jobs, now, b) && NoNewFailures(jobs, b)
  {
  }

  /** A RUNNING execution is failed and its live attempt cancelled. */
  lemma ExecCancelledMoves(db: Db, e: Id, iid: Id)
    requires Core(db) && e in db.execs && db.execs[e].status == Running
    ensures Moves(db, CancelJobs(SetExec(db, e, Faulted), e), iid)
    ensures CancelJobs(SetExec(db, e, Faulted), e).instances == db.instances
  {
    hide Core, Moves, RetiredJobs, ClosedExecs, JobsEvolve, NoNewFailures;
    ExecClosed(db.execs, e, Faulted);
    var execs := db.execs[e := db.execs[e].(status := Faulted)];
    JobsCancelled(db.now, db.jobs, e, execs);
    var db1 := CancelJobs(SetExec(db, e, Faulted), e);
    ShrinkMoves(db, execs, db1.jobs, iid);
    assert db1 == db.(execs := execs, jobs := db1.jobs);
  }

  lemma SchemaFailureKept(db: Db, j: Id, worker: string)
    requires Inv(db) && Accepts(db, j, worker)
    ensures j in db.jobs && db.jobs[j].exec in db.execs
    ensures var e := db.jobs[j].exec; Kept(db, Commit(SetStatus(SetExec(CancelJobs(db, e), e, Faulted), db.jobs[j].inst, Failed)))
  {
    hide Inv, Kept, Moves, Accepts, Evolves, Core, Ready, SetStatus;
    InvCore(db);
    AcceptedRows(db, j, worker);
    var e, iid := db.jobs[j].exec, db.jobs[j].inst;
    SchemaFailureMoves(db, j, worker);
    var mid := SetExec(CancelJobs(db, e), e, Faulted);
    InstanceFailed(db, mid, iid);
    MovesKept(db, SetStatus(mid, iid, Failed), iid);
    CommitKept(db, SetStatus(mid, iid, Failed));
  }

  lemma CompleteJobKept(env: Env, depth: nat, db: Db, j: Id, worker: string, output: Vars)
    requires Inv(db)
    ensures Kept(db, CompleteJob(env, depth, db, j, worker, output))
  {
    hide Inv, Kept, Moves, Accepts, Evolves, Core, Ready, Advance, Closed, Merged, SetStatus, CancelJobs, FindStep, Finish;
    SameKept(db);
    RollbackKept(db);
    if LockJob(db, j).Some? && Accepts(db, j, worker) {
      CancelKeepsExecs(db, db.jobs[j].exec);
      InvCore(db);
      AcceptedRows(db, j, worker);
      var e, iid := db.jobs[j].exec, db.jobs[j].inst;
      var found := FindStep(db.instances[iid].def, db.execs[e].stepId);
      if found.Some? {
        var step := found.value;
        if step.typ == ServiceTask && step.outputsSchema.Some? && !env.conforms(step.outputsSchema.value, output) {
          SchemaFailureKept(db, j, worker);
        } else {
          CompletedJobKept(env, depth, db, j, worker, output, step);
        }
      }
    }
  }

  lemma ClosedRows(db: Db, j: Id, worker: string)
    requires j in db.jobs && db.jobs[j].exec in db.execs
    ensures var c := Closed(db, j, worker);
            && c.instances == db.instances && c.merged == db.merged
            && db.jobs[j].exec in c.execs && c.execs[db.jobs[j].exec].status == Succeeded
  {
  }

  lemma CompletedJobKept(env: Env, depth: nat, db: Db, j: Id, worker: string, output: Vars, step: Step)
    requires Inv(db) && Accepts(db, j, worker) && LockJob(db, j).Some?
    ensures var e, iid := db.jobs[j].exec, db.jobs[j].inst;
            var db1 := Merged(Closed(db, j, worker), iid, e, output);
            iid in db1.instances && Kept(db, Commit(db1)) && Kept(db, Finish(Advance(env, depth, db1, iid, db1.instances[iid], step)))
  {
    hide Inv, Kept, Moves, Accepts, Evolves, Core, Advance, Closed, CurrentOk, KeyHeld, Finish;
    InvCore(db);
    AcceptedRows(db, j, worker);
    var e, iid := db.jobs[j].exec, db.jobs[j].inst;
    NotYetMerged(db, e);
    ClosedMoves(db, j, worker);
    ClosedRows(db, j, worker);
    var mid := Closed(db, j, worker);
    MovesCore(db, mid, iid);
    InFlightReady(mid, iid);
    MergedMoves(mid, iid, e, output);
    var db1 := Merged(mid, iid, e, output);
    MovesTransitive(db, mid, db1, iid);
    MovesKept(db, db1, iid);
    CommitKept(db, db1);
    AdvanceMoves(env, depth, db1, iid, db1.instances[iid], step);
    var o := Advance(env, depth, db1, iid, db1.instances[iid], step);
    if o.Ok? {
      MovesTransitive(db, db1, o.db, iid);
    }
    FinishKept(db, iid, o);
  }

  // ---- timers ----

  lemma FiredMoves(db: Db, t: Id, iid: Id)
    requires Core(db) && t in db.timers
    ensures Moves(db, db.(timers := db.timers[t := db.timers[t].(fired := true)]), iid)
  {
    hide Core, Moves;
    var timers := db.timers[t := db.timers[t].(fired := true)];
    TimersOf(db);
    SideMoves(db, db.tasks, timers, iid);
    assert db.(timers := timers) == db.(tasks := db.tasks, timers := timers);
  }

  lemma TimersOf(db: Db)
    requires Core(db)
    ensures Below(db.timers, db.nextId) && TimerRefs(db.execs, db.timers) && Below(db.tasks, db.nextId) && TaskRefs(db.execs, db.tasks)
  {
    hide Below, TimerRefs, TaskRefs, JobRefs, ExecRefs, Typed, Attempts, KeysDistinct, Currents, Requested, MergedOnce;
  }

  lemma TasksCancelledMoves(db: Db, e: Id, iid: Id)
    requires Core(db)
    ensures Moves(db, CancelTasks(db, e), iid)
  {
    hide Core, Moves;
    TimersOf(db);
    var db1 := CancelTasks(db, e);
    SideMoves(db, db1.tasks, db.timers, iid);
    assert db1 == db.(tasks := db1.tasks, timers := db.timers);
  }

  /** An interrupting timer: the execution fails, its attempt and its user task are cancelled. */
  lemma InterruptedMoves(db: Db, e: Id, iid: Id)
    requires Core(db) && e in db.execs && db.execs[e].status == Running
    ensures Core(Interrupted(db, e)) && Moves(db, Interrupted(db, e), iid) && Interrupted(db, e).instances == db.instances
  {
    hide Core, Moves;
    ExecCancelledMoves(db, e, iid);
    var mid := CancelJobs(SetExec(db, e, Faulted), e);
    MovesCore(db, mid, iid);
    TasksCancelledMoves(mid, e, iid);
    MovesTransitive(db, mid, CancelTasks(mid, e), iid);
    MovesCore(db, CancelTasks(mid, e), iid);
  }

  lemma ReadySameRows(db: Db, db': Db, iid: Id, mem: Instance)
    requires Ready(db, iid, mem) && db'.instances == db.instances
    ensures Ready(db', iid, mem)
  {
  }

  lemma FireTimerKept(env: Env, depth: nat, db: Db, t: Id, iid: Id)
    requires Inv(db)
    ensures Kept(db, FireTimer(env, depth, db, t, iid))
  {
    hide Inv, Kept, Moves, Evolves, Core, Ready, Dispatch, Interrupted, Finish, WithoutStep;
    SameKept(db);
    RollbackKept(db);
    InvCore(db);
    if iid in db.instances && t in db.timers && db.timers[t].inst == iid && db.timers[t].exec in db.execs {
      FiredMoves(db, t, iid);
      var db1 := db.(timers := db.timers[t := db.timers[t].(fired := true)]);
      MovesKept(db, db1, iid);
      CommitKept(db, db1);
      if InFlight(db.instances[iid].status) && db.execs[db.timers[t].exec].status == Running {
        FiringKept(env, depth, db, db1, iid, db.timers[t]);
      }
    }
  }

  lemma FiringKept(env: Env, depth: nat, db: Db, db1: Db, iid: Id, timer: Timer)
    requires Inv(db) && Moves(db, db1, iid) && db1.instances == db.instances && db1.execs == db.execs
    requires iid in db.instances && InFlight(db.instances[iid].status)
    requires timer.exec in db.execs && db.execs[timer.exec].status == Running
    ensures var mem := db.instances[iid];
            && Kept(db, Finish(Dispatch(env, depth, db1, iid, mem, timer.target)))
            && Kept(db, Finish(Dispatch(env, depth, Interrupted(db1, timer.exec), iid,
                                        mem.(current := WithoutStep(mem.current, db.execs[timer.exec].stepId)), timer.target)))
  {
    hide Inv, Kept, Moves, Evolves, Core, Dispatch, Interrupted, Finish, WithoutStep, CurrentOk, KeyHeld;
    var mem := db.instances[iid];
    MovesCore(db, db1, iid);
    InFlightReady(db1, iid);
    DispatchMoves(env, depth, db, db1, iid, mem, timer.target);
    FinishKept(db, iid, Dispatch(env, depth, db1, iid, mem, timer.target));
    InterruptedMoves(db1, timer.exec, iid);
    var db2 := Interrupted(db1, timer.exec);
    MovesTransitive(db, db1, db2, iid);
    var mem1 := mem.(current := WithoutStep(mem.current, db.execs[timer.exec].stepId));
    WithoutOk(mem.def, mem.current, db.execs[timer.exec].stepId);
    ReadySameRows(db1, db2, iid, mem);
    ReadyCurrent(db2, iid, mem, mem1.current);
    DispatchMoves(env, depth, db, db2, iid, mem1, timer.target);
    FinishKept(db, iid, Dispatch(env, depth, db2, iid, mem1, timer.target));
  }

  lemma HousekeepKept(db: Db, retention: nat)
    requires Inv(db)
    ensures Kept(db, Commit(Housekeep(db, retention)))
  {
    hide Inv, Moves, Evolves, Core, Obsolete;
    InvCore(db);
    TimersOf(db);
    var db1 := Housekeep(db, retention);
    SideMoves(db, db.tasks, db1.timers, 0);
    assert db1 == db.(tasks := db.tasks, timers := db1.timers);
    MovesKept(db, db1, 0);
  }

  // ---- user tasks, signals, cancellation, manual retry ----

  lemma TasksCompletedMoves(db: Db, iid: Id, stepId: string)
    requires Core(db)
    ensures Core(CompleteTasks(db, iid, stepId)) && Moves(db, CompleteTasks(db, iid, stepId), iid)
    ensures CompleteTasks(db, iid, stepId).instances == db.instances
  {
    hide Core, Moves;
    TimersOf(db);
    var db1 := CompleteTasks(db, iid, stepId);
    SideMoves(db, db1.tasks, db.timers, iid);
    assert db1 == db.(tasks := db1.tasks, timers := db.timers);
    MovesCore(db, db1, iid);
  }

  /** The RUNNING executions of a parked step are closed, its result is merged, the instance advances. */
  lemma ResumedKept(env: Env, depth: nat, db: Db, mid: Db, iid: Id, step: Step, vars: Vars)
    requires Inv(db) && Moves(db, mid, iid) && mid.instances == db.instances
    requires iid in db.instances && InFlight(db.instances[iid].status)
    ensures var row := db.instances[iid];
            Kept(db, Finish(Advance(env, depth, PatchVars(SetRunning(mid, iid, step.id, Succeeded), iid, vars), iid,
                                    row.(vars := row.vars + vars), step)))
  {
    hide Inv, Kept, Moves, Evolves, Core, Advance, SetRunning, Finish, CurrentOk, KeyHeld;
    var row := db.instances[iid];
    MovesCore(db, mid, iid);
    ClosesRunning(mid, iid, step.id, Succeeded);
    var closed := SetRunning(mid, iid, step.id, Succeeded);
    MovesTransitive(db, mid, closed, iid);
    MovesCore(db, closed, iid);
    InFlightReady(closed, iid);
    var mem := row.(vars := row.vars + vars);
    RowMoves(closed, iid, mem);
    ReadyAfter(closed, iid, mem);
    var db1 := PutInstance(closed, iid, mem);
    assert db1 == PatchVars(closed, iid, vars);
    MovesTransitive(db, closed, db1, iid);
    MovesCore(db, db1, iid);
    AdvanceMoves(env, depth, db1, iid, mem, step);
    var o := Advance(env, depth, db1, iid, mem, step);
    if o.Ok? {
      MovesTransitive(db, db1, o.db, iid);
    }
    FinishKept(db, iid, o);
  }

  lemma CompleteUserTaskKept(env: Env, depth: nat, db: Db, iid: Id, stepId: string, vars: Vars)
    requires Inv(db)
    ensures Kept(db, CompleteUserTask(env, depth, db, iid, stepId, vars))
  {
    hide Inv, Kept, Moves, Evolves, Core, Advance, SetRunning, Finish, CompleteTasks, OpenTasks, PatchVars;
    RollbackKept(db);
    if iid in db.instances && InFlight(db.instances[iid].status) {
      var found := FindStep(db.instances[iid].def, stepId);
      if found.Some? {
        InvCore(db);
        TasksCompletedMoves(db, iid, stepId);
        ResumedKept(env, depth, db, CompleteTasks(db, iid, stepId), iid, found.value, vars);
      }
    }
  }

  lemma SignalWaitKept(env: Env, depth: nat, db: Db, iid: Id, stepId: string, vars: Vars)
    requires Inv(db)
    ensures Kept(db, SignalWait(env, depth, db, iid, stepId, vars))
  {
    hide Inv, Kept, Moves, Evolves, Core, Advance, SetRunning, Finish, RunningOf, PatchVars;
    RollbackKept(db);
    if iid in db.instances && InFlight(db.instances[iid].status) {
      var found := FindStep(db.instances[iid].def, stepId);
      if found.Some? {
        InvCore(db);
        MovesReflexive(db, iid);
        ResumedKept(env, depth, db, db, iid, found.value, vars);
      }
    }
  }

  lemma CancelKept(db: Db, iid: Id)
    requires Inv(db)
    ensures Kept(db, Cancel(db, iid))
  {
    hide Inv, Kept, Moves, Evolves, Core, CurrentOk, KeyHeld;
    RollbackKept(db);
    if iid in db.instances && InFlight(db.instances[iid].status) {
      InvCore(db);
      InFlightReady(db, iid);
      RowMoves(db, iid, db.instances[iid].(status := Cancelled));
      MovesKept(db, SetStatus(db, iid, Cancelled), iid);
      CommitKept(db, SetStatus(db, iid, Cancelled));
    }
  }

  function Reactivated(row: Instance, patch: Vars): Instance {
    row.(status := Active, vars := row.vars + patch)
  }

  lemma ReactivatedRows(db: Db, iid: Id, patch: Vars)
    requires iid in db.instances
    ensures PutInstance(db, iid, Reactivated(db.instances[iid], patch)) == PatchVars(SetStatus(db, iid, Active), iid, patch)
  {
  }

  lemma ReactivatedKept(env: Env, depth: nat, db: Db, iid: Id, stepId: string, patch: Vars)
    requires Inv(db) && iid in db.instances && db.instances[iid].status == Failed
    requires !KeyHeld(db.instances, iid, db.instances[iid].def, db.instances[iid].businessKey)
    ensures var mem := Reactivated(db.instances[iid], patch);
            Kept(db, Finish(Dispatch(env, depth, PatchVars(SetStatus(db, iid, Active), iid, patch), iid, mem, stepId)))
  {
    hide Inv, Kept, Moves, Evolves, Core, CurrentOk, KeyHeld, Dispatch, Finish;
    InvCore(db);
    CoreCurrent(db, iid);
    var mem := Reactivated(db.instances[iid], patch);
    RowMoves(db, iid, mem);
    ReadyAfter(db, iid, mem);
    var db1 := PutInstance(db, iid, mem);
    ReactivatedRows(db, iid, patch);
    hide PutInstance, PatchVars, SetStatus, Ready;
    DispatchMoves(env, depth, db, db1, iid, mem, stepId);
    FinishKept(db, iid, Dispatch(env, depth, db1, iid, mem, stepId));
  }

  lemma RetryStepKept(env: Env, depth: nat, db: Db, iid: Id, stepId: string, patch: Vars)
    requires Inv(db)
    ensures Kept(db, RetryStep(env, depth, db, iid, stepId, patch))
  {
    hide Inv, Kept, KeyHeld, Dispatch, Finish, IsLatestExec, PatchVars, SetStatus;
    RollbackKept(db);
    if iid in db.instances && db.instances[iid].status == Failed
       && !KeyTaken(db, iid, db.instances[iid].def, db.instances[iid].businessKey) {
      ReactivatedKept(env, depth, db, iid, stepId, patch);
    }
  }

  // ---- starting instances ----

  /** Inserting an instance whose business key is free. */
  lemma CoreInserted(db: Db, row: Instance)
    requires Core(db) && row.def.steps != [] && row.status == Active && row.current == [row.def.steps[0].id]
    requires !KeyHeld(db.instances, db.nextId, row.def, row.businessKey)
    ensures Core(Inserted(db, row)) && Ready(Inserted(db, row), db.nextId, row)
  {
    hide Attempts, JobRefs, TaskRefs, TimerRefs, MergedOnce, Typed, KeysDistinct, KeyHeld;
    var db1 := Inserted(db, row);
    assert db.nextId !in db.instances;
    TypedInserted(db.instances, db.nextId, row, db.execs);
    KeysInserted(db.instances, db.nextId, row);
    NewRowCurrent(row);
    hide CurrentOk;
    assert Refs(db1) by { RefsInserted(db, row); }
    hide Refs;
  }

  lemma NewRowCurrent(row: Instance)
    requires row.def.steps != [] && row.current == [row.def.steps[0].id]
    ensures CurrentOk(row.def, row.current)
  {
    assert row.def.steps[0] in row.def.steps;
    assert Declared(row.def, row.def.steps[0].id);
  }

  lemma RefsInserted(db: Db, row: Instance)
    requires Refs(db)
    ensures Refs(Inserted(db, row))
  {
    hide JobRefs, TaskRefs, TimerRefs;
  }

  lemma TypedInserted(instances: Instances, n: Id, row: Instance, execs: Execs)
    requires Typed(instances, execs) && n !in instances
    ensures Typed(instances[n := row], execs)
  {
    forall e | e in execs ensures StepOf(instances[n := row], execs[e]) == StepOf(instances, execs[e]) {
    }
  }

  lemma KeysInserted(a: Instances, n: Id, row: Instance)
    requires KeysDistinct(a) && n !in a && !KeyHeld(a, n, row.def, row.businessKey)
    ensures KeysDistinct(a[n := row]) && !KeyHeld(a[n := row], n, row.def, row.businessKey)
  {
  }

  lemma InsertedEvolves(db: Db, row: Instance)
    requires Core(db)
    ensures Evolves(db, Inserted(db, row))
  {
    hide Attempts, JobRefs, TaskRefs, TimerRefs, MergedOnce, Typed, KeysDistinct, Currents, Requested, ExecRefs;
  }

  lemma BudgetInserted(db: Db, row: Instance)
    requires Core(db) && Budget(db.instances, db.execs, db.jobs, db.latest)
    ensures Budget(Inserted(db, row).instances, db.execs, db.jobs, db.latest)
  {
    hide Attempts, JobRefs, TaskRefs, TimerRefs, MergedOnce, KeysDistinct, Currents, Requested, BudgetFor;
    forall e | e in db.latest ensures BudgetOf(Inserted(db, row).instances, db.execs[e]) == BudgetOf(db.instances, db.execs[e]) {
      assert db.execs[e].inst in db.instances;
    }
  }

  /** startInTx: the new instance and everything its first steps insert. */
  lemma StartMoves(env: Env, depth: nat, db: Db, row: Instance)
    requires Inv(db) && row.def.steps != [] && row.status == Active && row.current == [row.def.steps[0].id]
    requires !KeyHeld(db.instances, db.nextId, row.def, row.businessKey)
    ensures var o := StartIn(env, depth, db, row);
            o.Ok? ==>
              && Core(o.db) && Evolves(db, o.db) && Budget(o.db.instances, o.db.execs, o.db.jobs, o.db.latest)
              && OneRow(Inserted(db, row).instances, o.db.instances, db.nextId)
              && NewChains(db.chains, o.db.chains, db.nextId)
  {
    hide Core, Evolves, Ready, Dispatch, KeyHeld, Budget, OneRow, NewChains, Grows;
    var db1 := Inserted(db, row);
    CoreInserted(db, row);
    InsertedEvolves(db, row);
    BudgetInserted(db, row);
    DispatchGood(env, depth, db1, db.nextId, row, row.def.steps[0].id);
    var o := StartIn(env, depth, db, row);
    if o.Ok? {
      NewestInstanceFree(db);
      GrowthEvolves(db, db1, o.db, db.nextId);
      GrowthParts(db1, o.db, db.nextId);
      BudgetGrows(db1, o.db, db.nextId);
    }
  }

  lemma NewestInstanceFree(db: Db)
    requires Core(db)
    ensures db.nextId !in db.instances && db.nextId !in db.chains
  {
    hide Attempts, JobRefs, TaskRefs, TimerRefs, MergedOnce, Typed, KeysDistinct, Currents, Requested, ExecRefs;
  }

  lemma ChainedInserted(a: Instances, n: Id, row: Instance, b: Instances, chains: map<Id, Chain>, chains': map<Id, Chain>)
    requires Chained(a, chains) && n !in a && row.origin == None && OneRow(a[n := row], b, n) && NewChains(chains, chains', n)
    ensures Chained(b, chains')
  {
    forall i | i in b && b[i].origin.Some?
      ensures b[i].origin.value in chains' && chains'[b[i].origin.value].child == Some(i)
    {
      assert a[n := row][i].origin == b[i].origin;
    }
  }

  lemma StartKept(env: Env, depth: nat, db: Db, def: Definition, vars: Vars, key: Option<string>)
    requires Inv(db)
    ensures Kept(db, Start(env, depth, db, def, vars, key))
  {
    hide Core, Evolves, Dispatch, KeyHeld, Budget, OneRow, NewChains, Chained, StartIn, Startable;
    if Startable(env, def, vars) && !KeyTaken(db, db.nextId, def, NormalKey(key)) {
      StartableSteps(env, def, vars);
      var row := NewInstance(def, vars, key, None);
      StartMoves(env, depth, db, row);
      NewestInstanceFree(db);
      var o := StartIn(env, depth, db, row);
      if o.Ok? {
        ChainedInserted(db.instances, db.nextId, row, o.db.instances, db.chains, o.db.chains);
      }
    }
  }

  /** The child and the acknowledgement of its request commit together. */
  lemma ChainedAcknowledged(a: Instances, n: Id, row: Instance, b: Instances, chains: map<Id, Chain>, chains': map<Id, Chain>, source: Id)
    requires Chained(a, chains) && n !in a && row.origin == Some(source) && OneRow(a[n := row], b, n) && NewChains(chains, chains', n)
    requires source in chains && chains[source].child == None
    ensures source in chains' && Chained(b, chains'[source := chains'[source].(child := Some(n))])
  {
    var acked := chains'[source := chains'[source].(child := Some(n))];
    forall i | i in b && b[i].origin.Some?
      ensures b[i].origin.value in acked && acked[b[i].origin.value].child == Some(i)
    {
      assert a[n := row][i].origin == b[i].origin;
    }
  }

  lemma AcknowledgedCore(db: Db, source: Id, child: Id)
    requires Core(db) && source in db.chains
    ensures Core(Acknowledged(db, source, child))
  {
    hide Attempts, JobRefs, TaskRefs, TimerRefs, MergedOnce, Typed, KeysDistinct, Currents, ExecRefs;
  }

  lemma AcknowledgedEvolves(db0: Db, db: Db, source: Id, child: Id)
    requires Evolves(db0, db) && source in db0.chains && db0.chains[source].child == None
    ensures Evolves(db0, Acknowledged(db, source, child))
  {
    hide InstancesEvolve, ExecsEvolve, JobsEvolve;
  }

  lemma DeliverChainKept(env: Env, depth: nat, db: Db, source: Id, def: Definition)
    requires Inv(db)
    ensures Kept(db, DeliverChain(env, depth, db, source, def))
  {
    hide Core, Evolves, Dispatch, KeyHeld, Budget, OneRow, NewChains, Chained, StartIn, Startable;
    SameKept(db);
    if source in db.chains && db.chains[source].child == None {
      var request := db.chains[source];
      if Startable(env, def, request.vars) && !KeyTaken(db, db.nextId, def, NormalKey(request.businessKey)) {
        StartableSteps(env, def, request.vars);
        var row := NewInstance(def, request.vars, request.businessKey, Some(source));
        StartMoves(env, depth, db, row);
        NewestInstanceFree(db);
        var o := StartIn(env, depth, db, row);
        if o.Ok? {
          ChainedAcknowledged(db.instances, db.nextId, row, o.db.instances, db.chains, o.db.chains, source);
          AcknowledgedCore(o.db, source, db.nextId);
          AcknowledgedEvolves(db, o.db, source, db.nextId);
        }
      }
    }
  }

  lemma TickKept(db: Db, elapsed: nat)
    requires Inv(db)
    ensures Kept(db, Commit(db.(now := db.now + elapsed)))
  {
    hide Attempts, JobRefs, TaskRefs, TimerRefs, MergedOnce, Typed, KeysDistinct, Currents, ExecRefs, Requested, Budget, Chained;
  }

  /** Every event of the engine keeps the invariant, and undoes nothing. */
  lemma NextKept(env: Env, depth: nat, db: Db, ev: Event)
    requires Inv(db)
    ensures Kept(db, Next(env, depth, db, ev))
  {
    hide Inv, Kept, Evolves, Start, Poll, CompleteJob, CompleteLegacy, FailJob, Heartbeat, RetryJob, FireTimer;
    hide CompleteUserTask, SignalWait, Cancel, RetryStep, DeliverChain, Housekeep;
    match ev
    case EvStart(def, vars, key) => StartKept(env, depth, db, def, vars, key);
    case EvPoll(worker, claimed, seconds) => PollKept(db, worker, claimed, seconds);
    case EvComplete(j, worker, vars) => CompleteJobKept(env, depth, db, j, worker, vars);
    case EvCompleteLegacy(j, worker) => CompleteLegacyKept(db, j, worker);
    case EvFail(j, worker, retryable) => FailJobKept(db, j, worker, retryable);
    case EvHeartbeat(j, worker, seconds) => HeartbeatKept(db, j, worker, seconds);
    case EvSweep(j) => RetryJobKept(db, j, true);
    case EvRetryJob(j) => RetryJobKept(db, j, false);
    case EvFire(t, iid) => FireTimerKept(env, depth, db, t, iid);
    case EvUserTask(iid, stepId, vars) => CompleteUserTaskKept(env, depth, db, iid, stepId, vars);
    case EvSignal(iid, stepId, vars) => SignalWaitKept(env, depth, db, iid, stepId, vars);
    case EvCancel(iid) => CancelKept(db, iid);
    case EvRetryStep(iid, stepId, vars) => RetryStepKept(env, depth, db, iid, stepId, vars);
    case EvChain(source, def) => DeliverChainKept(env, depth, db, source, def);
    case EvHousekeep(retention) => HousekeepKept(db, retention);
    case EvTick(elapsed) => TickKept(db, elapsed);
  }
}
