/**
 The engine's transactions (instance/lifecycle.go, instance/retry_step.go, instance/signal_wait.go,
 instance/complete_user_task.go, instance/chain.go and the packages job and boundary). Each function is
 the body of one `RunInTx` or of one atomic SQL statement: it commits a new database state or
 rolls back. Reads made before a transaction concern immutable data only.
 */
module Transactions {
  import opened Values
  import opened Definitions
  import opened Database
  import opened Interpreter

  /** A transaction commits, is refused, aborts with an interpreter error, or never ends. */
  datatype TxResult = Commit(db: Db) | Rollback | Aborted(error: Error) | Endless

  function Finish(o: Outcome): TxResult {
    match o
    case Ok(db, _) => Commit(db)
    case Err(e) => Aborted(e)
    case Diverged => Endless
  }

  // ---- the fence every callback passes (instance/job_execution.go) ----

  datatype JobExecution = JobExecution(
    instanceStatus: InstanceStatus, stepStatus: ExecStatus, jobStatus: JobStatus, worker: string, leaseValid: bool)
  {
    predicate Active() {
      InFlight(instanceStatus) && stepStatus == Running
    }

    predicate AcceptsCallback(w: string) {
      Active() && (jobStatus == Unlocked || (jobStatus == Locked && worker == w && leaseValid))
    }
  }

  predicate LeaseValid(db: Db, job: Job) {
    job.expires.Some? && job.expires.value > db.now
  }

  /** LockJobExecution; None when a row is missing. */
  function LockJob(db: Db, j: Id): Option<JobExecution> {
    if j !in db.jobs || db.jobs[j].inst !in db.instances || db.jobs[j].exec !in db.execs then None
    else
      var job := db.jobs[j];
      Some(JobExecution(db.instances[job.inst].status, db.execs[job.exec].status, job.status, job.worker, LeaseValid(db, job)))
  }

  predicate Accepts(db: Db, j: Id, worker: string) {
    var s := LockJob(db, j);
    s.Some? && s.value.AcceptsCallback(worker)
  }

  // ---- starting instances ----

  /** An empty business key is stored as NULL. */
  function NormalKey(key: Option<string>): Option<string> {
    if key == Some("") then None else key
  }

  predicate Startable(env: Env, def: Definition, vars: Vars) {
    def.steps != [] && (def.inputSchema.Some? ==> env.conforms(def.inputSchema.value, vars))
  }

  lemma StartableSteps(env: Env, def: Definition, vars: Vars)
    requires Startable(env, def, vars)
    ensures def.steps != []
  {
  }

  lemma NotStartable(env: Env, def: Definition, vars: Vars)
    requires def.steps == []
    ensures !Startable(env, def, vars)
  {
  }

  function NewInstance(def: Definition, vars: Vars, key: Option<string>, origin: Option<Id>): Instance
    requires def.steps != []
  {
    Instance(def, Active, [def.steps[0].id], vars, NormalKey(key), origin)
  }

  function Inserted(db: Db, row: Instance): Db {
    PutInstance(db, db.nextId, row).(nextId := db.nextId + 1)
  }

  /** startInTx. */
  ghost function StartIn(env: Env, depth: nat, db: Db, row: Instance): Outcome
    requires row.def.steps != []
  {
    Dispatch(env, depth, Inserted(db, row), db.nextId, row, row.def.steps[0].id)
  }

  ghost function Start(env: Env, depth: nat, db: Db, def: Definition, vars: Vars, key: Option<string>): TxResult {
    if !Startable(env, def, vars) || KeyTaken(db, db.nextId, def, NormalKey(key)) then Rollback
    else Finish(StartIn(env, depth, db, NewInstance(def, vars, key, None)))
  }

  // ---- jobs ----

  function LeaseSeconds(seconds: int): Option<nat> {
    if seconds == 0 then Some(30) else if seconds < 5 || seconds > 3600 then None else Some(seconds)
  }

  /** Time is counted in milliseconds. */
  function LeaseEnd(db: Db, seconds: nat): int {
    db.now + 1000 * seconds
  }

  /** PollJobs: the jobs of `claimed` that are UNLOCKED become LOCKED for this worker. */
  function Poll(db: Db, worker: string, claimed: set<Id>, seconds: int): TxResult {
    var s := LeaseSeconds(seconds);
    if s.None? then Rollback
    else Commit(db.(jobs := map j | j in db.jobs ::
      if j in claimed && db.jobs[j].status == Unlocked
      then db.jobs[j].(status := Locked, worker := worker, expires := Some(LeaseEnd(db, s.value)))
      else db.jobs[j]))
  }

  /** CompleteJobAndAdvance. */
  ghost function CompleteJob(env: Env, depth: nat, db: Db, j: Id, worker: string, output: Vars): TxResult {
    if LockJob(db, j).None? then Rollback
    else
      var e, iid := db.jobs[j].exec, db.jobs[j].inst;
      var found := FindStep(db.instances[iid].def, db.execs[e].stepId);
      if found.None? then Rollback
      else if !Accepts(db, j, worker) then Commit(db)
      else
        var step := found.value;
        if step.typ == ServiceTask && step.outputsSchema.Some? && !env.conforms(step.outputsSchema.value, output) then
          Commit(SetStatus(SetExec(CancelJobs(db, e), e, Faulted), iid, Failed))
        else
          var db1 := Merged(Closed(db, j, worker), iid, e, output);
          if step.nextStep == "" && step.branches == [] then Commit(db1)
          else Finish(Advance(env, depth, db1, iid, db1.instances[iid], step))
  }

  /** MarkJobCompleted and the step execution COMPLETED. */
  function Closed(db: Db, j: Id, worker: string): Db
    requires j in db.jobs && db.jobs[j].exec in db.execs
  {
    SetExec(SetJob(db, j, db.jobs[j].(status := JobCompleted, worker := worker)), db.jobs[j].exec, Succeeded)
  }

  function Merged(db: Db, iid: Id, exec: Id, output: Vars): Db {
    PatchVars(db, iid, output).(merged := db.merged + multiset{exec})
  }

  lemma MergedHasRow(db: Db, j: Id, worker: string, output: Vars)
    requires LockJob(db, j).Some?
    ensures db.jobs[j].inst in Merged(Closed(db, j, worker), db.jobs[j].inst, db.jobs[j].exec, output).instances
  {
  }

  /** job.Complete, kept for legacy clients: closes the attempt without advancing. */
  function CompleteLegacy(db: Db, j: Id, worker: string): TxResult {
    if LockJob(db, j).None? then Rollback
    else if !Accepts(db, j, worker) then Commit(db)
    else Commit(Closed(db, j, worker))
  }

  /** enqueueReplacement: the same work under a new job id. */
  function Replacement(db: Db, retired: Job, retries: int): Db {
    InsertJob(db, retired.inst, retired.exec, retired.jobType, retries, retired.payload)
  }

  /** job.Fail. */
  function FailJob(db: Db, j: Id, worker: string, retryable: bool): TxResult {
    if LockJob(db, j).None? then Rollback
    else if !Accepts(db, j, worker) then Commit(db)
    else
      var job := db.jobs[j];
      var db1 := SetJob(db, j, job.(status := JobFailed, worker := worker));
      if retryable && job.retries > 0 then Commit(Replacement(db1, job, job.retries - 1))
      else Commit(SetStatus(SetExec(db1, job.exec, Faulted), job.inst, Failed))
  }

  /** retryJob: the sweeper sets `expiredOnly`, the manual Retry does not. */
  function RetryJob(db: Db, j: Id, expiredOnly: bool): TxResult {
    var s := LockJob(db, j);
    if s.None? then Rollback
    else if !s.value.Active() || s.value.jobStatus != Locked || (expiredOnly && s.value.leaseValid) then Commit(db)
    else Commit(Replacement(SetJob(db, j, db.jobs[j].(status := JobCancelled)), db.jobs[j], db.jobs[j].retries))
  }

  /** ExtendLease: only an active, unexpired lease of this worker; it never gets shorter. */
  function Heartbeat(db: Db, j: Id, worker: string, seconds: int): TxResult {
    var t := LeaseSeconds(seconds);
    var s := LockJob(db, j);
    if worker == "" || t.None? || s.None? then Rollback
    else if !s.value.Active() || s.value.jobStatus != Locked || s.value.worker != worker || !s.value.leaseValid then Rollback
    else
      var until, ext := db.jobs[j].expires.value, LeaseEnd(db, t.value);
      Commit(SetJob(db, j, db.jobs[j].(expires := Some(if until < ext then ext else until))))
  }

  // ---- timers ----

  /** FireBoundaryEvent. */
  ghost function FireTimer(env: Env, depth: nat, db: Db, t: Id, iid: Id): TxResult {
    if iid !in db.instances then Rollback
    else if t !in db.timers || db.timers[t].inst != iid || db.timers[t].fired || db.timers[t].fireAt > db.now then Commit(db)
    else
      var timer := db.timers[t];
      var db1 := db.(timers := db.timers[t := timer.(fired := true)]);
      var mem := db.instances[iid];
      if timer.exec !in db.execs then Rollback
      else if !InFlight(mem.status) || db.execs[timer.exec].status != Running then Commit(db1)
      else if timer.interrupting then
        Finish(Dispatch(env, depth, Interrupted(db1, timer.exec), iid,
                        mem.(current := WithoutStep(mem.current, db.execs[timer.exec].stepId)), timer.target))
      else Finish(Dispatch(env, depth, db1, iid, mem, timer.target))
  }

  function Interrupted(db: Db, exec: Id): Db
    requires exec in db.execs
  {
    CancelTasks(CancelJobs(SetExec(db, exec, Faulted), exec), exec)
  }

  /** DeleteObsoleteBoundaryEvents. */
  predicate Obsolete(db: Db, timer: Timer, retention: nat) {
    if timer.fired then timer.fireAt < db.now - retention
    else timer.exec in db.execs && db.execs[timer.exec].status != Running
  }

  function Housekeep(db: Db, retention: nat): Db {
    db.(timers := map t | t in db.timers && !Obsolete(db, db.timers[t], retention) :: db.timers[t])
  }

  // ---- user tasks, signals, cancellation, manual retry ----

  /** CompleteUserTaskAndAdvance. */
  ghost function CompleteUserTask(env: Env, depth: nat, db: Db, iid: Id, stepId: string, vars: Vars): TxResult {
    if iid !in db.instances then Rollback
    else
      var row := db.instances[iid];
      var found := FindStep(row.def, stepId);
      if found.None? || found.value.typ != UserTask || !InFlight(row.status) then Rollback
      else if OpenTasks(db, iid, stepId) == {} then Rollback
      else
        var db1 := PatchVars(SetRunning(CompleteTasks(db, iid, stepId), iid, stepId, Succeeded), iid, vars);
        Finish(Advance(env, depth, db1, iid, row.(vars := row.vars + vars), found.value))
  }

  /** SignalWaitAndAdvance. */
  ghost function SignalWait(env: Env, depth: nat, db: Db, iid: Id, stepId: string, vars: Vars): TxResult {
    if iid !in db.instances then Rollback
    else
      var row := db.instances[iid];
      var found := FindStep(row.def, stepId);
      if found.None? || found.value.typ != Wait || !InFlight(row.status) || stepId !in row.current then Rollback
      else if RunningOf(db, iid, stepId) == {} then Rollback
      else
        var db1 := PatchVars(SetRunning(db, iid, stepId, Succeeded), iid, vars);
        Finish(Advance(env, depth, db1, iid, row.(vars := row.vars + vars), found.value))
  }

  /** CancelInstance. */
  function Cancel(db: Db, iid: Id): TxResult {
    if iid !in db.instances || !InFlight(db.instances[iid].status) then Rollback
    else Commit(SetStatus(db, iid, Cancelled))
  }

  /** RetryFailedStep. */
  ghost function RetryStep(env: Env, depth: nat, db: Db, iid: Id, stepId: string, patch: Vars): TxResult {
    if iid !in db.instances then Rollback
    else
      var row := db.instances[iid];
      if FindStep(row.def, stepId).None? || row.status != Failed then Rollback
      else if !exists e :: IsLatestExec(db, iid, stepId, e) && db.execs[e].status == Faulted then Rollback
      else if KeyTaken(db, iid, row.def, row.businessKey) then Rollback
      else
        var mem := row.(status := Active, vars := row.vars + patch);
        Finish(Dispatch(env, depth, PatchVars(SetStatus(db, iid, Active), iid, patch), iid, mem, stepId))
  }

  // ---- chaining ----

  /** startChainedWorkflow; `def` is the target's latest version at delivery time. */
  ghost function DeliverChain(env: Env, depth: nat, db: Db, source: Id, def: Definition): TxResult {
    if source !in db.chains || db.chains[source].child.Some? then Commit(db)
    else
      var request := db.chains[source];
      if def.id != request.target || !Startable(env, def, request.vars)
         || KeyTaken(db, db.nextId, def, NormalKey(request.businessKey)) then Rollback
      else match StartIn(env, depth, db, NewInstance(def, request.vars, request.businessKey, Some(source)))
        case Ok(db1, _) => Commit(Acknowledged(db1, source, db.nextId))
        case Err(e) => Aborted(e)
        case Diverged => Endless
  }

  function Acknowledged(db: Db, source: Id, child: Id): Db {
    if source in db.chains then db.(chains := db.chains[source := db.chains[source].(child := Some(child))]) else db
  }

  // ---- runs ----

  datatype Event =
    | EvStart(def: Definition, vars: Vars, key: Option<string>)
    | EvPoll(worker: string, claimed: set<Id>, seconds: int)
    | EvComplete(job: Id, worker: string, vars: Vars)
    | EvCompleteLegacy(job: Id, worker: string)
    | EvFail(job: Id, worker: string, retryable: bool)
    | EvHeartbeat(job: Id, worker: string, seconds: int)
    | EvSweep(job: Id)
    | EvRetryJob(job: Id)
    | EvFire(timer: Id, inst: Id)
    | EvUserTask(inst: Id, stepId: string, vars: Vars)
    | EvSignal(inst: Id, stepId: string, vars: Vars)
    | EvCancel(inst: Id)
    | EvRetryStep(inst: Id, stepId: string, vars: Vars)
    | EvChain(source: Id, def: Definition)
    | EvHousekeep(retention: nat)
    | EvTick(elapsed: nat)

  ghost function Next(env: Env, depth: nat, db: Db, ev: Event): TxResult {
    match ev
    case EvStart(def, vars, key) => Start(env, depth, db, def, vars, key)
    case EvPoll(worker, claimed, seconds) => Poll(db, worker, claimed, seconds)
    case EvComplete(j, worker, vars) => CompleteJob(env, depth, db, j, worker, vars)
    case EvCompleteLegacy(j, worker) => CompleteLegacy(db, j, worker)
    case EvFail(j, worker, retryable) => FailJob(db, j, worker, retryable)
    case EvHeartbeat(j, worker, seconds) => Heartbeat(db, j, worker, seconds)
    case EvSweep(j) => RetryJob(db, j, true)
    case EvRetryJob(j) => RetryJob(db, j, false)
    case EvFire(t, iid) => FireTimer(env, depth, db, t, iid)
    case EvUserTask(iid, stepId, vars) => CompleteUserTask(env, depth, db, iid, stepId, vars)
    case EvSignal(iid, stepId, vars) => SignalWait(env, depth, db, iid, stepId, vars)
    case EvCancel(iid) => Cancel(db, iid)
    case EvRetryStep(iid, stepId, vars) => RetryStep(env, depth, db, iid, stepId, vars)
    case EvChain(source, def) => DeliverChain(env, depth, db, source, def)
    case EvHousekeep(retention) => Commit(Housekeep(db, retention))
    case EvTick(elapsed) => Commit(db.(now := db.now + elapsed))
  }

  /** One atomic step: the event commits, or it aborts (error, crash, restart) and changes nothing. */
  ghost predicate Steps(env: Env, db: Db, ev: Event, db': Db) {
    db' == db || exists depth :: Next(env, depth, db, ev) == Commit(db')
  }

  /** A run from the empty database: any interleaving of any number of clients and workers. */
  ghost predicate IsRun(env: Env, states: seq<Db>, events: seq<Event>) {
    && |states| == |events| + 1
    && states[0] == EMPTY
    && forall i :: 0 <= i < |events| ==> Steps(env, states[i], events[i], states[i + 1])
  }
}
