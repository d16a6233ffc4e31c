/**
 The engine's tables and the row operations of the stores (instance/store.go, job/store.go,
 boundary/store.go and the SQL in internal/storage/postgres). A value of type `Db` is one
 committed or in-transaction database state; `now` is the database clock.

 Four fields are history: `latest` names the newest delivery attempt of a step execution,
 `enqueued` counts the calls of the dispatcher per job, `merged` counts how often a worker's
 output for a step execution was accepted and `passed` holds the executions of joins that went
 on to their next step. No operation reads them.
 */
module Database {
  import opened Values
  import opened Definitions

  type Id = nat

  datatype InstanceStatus = Active | Waiting | Completed | Failed | Cancelled
  datatype ExecStatus = Running | Succeeded | Faulted
  datatype JobStatus = Unlocked | Locked | JobCompleted | JobFailed | JobCancelled
  datatype TaskStatus = Open | TaskCompleted | TaskCancelled

  /** `origin` is the source instance when the instance was started by a chain request. */
  datatype Instance = Instance(
    def: Definition,
    status: InstanceStatus,
    current: seq<string>,
    vars: Vars,
    businessKey: Option<string>,
    origin: Option<Id>)

  datatype Exec = Exec(inst: Id, stepId: string, typ: StepType, attempt: nat, status: ExecStatus)

  datatype Job = Job(
    inst: Id,
    exec: Id,
    jobType: string,
    status: JobStatus,
    worker: string,
    expires: Option<int>,
    retries: int,
    payload: Vars)

  datatype UserTaskRow = UserTaskRow(inst: Id, exec: Id, stepId: string, status: TaskStatus)

  datatype Timer = Timer(inst: Id, exec: Id, target: string, fireAt: int, interrupting: bool, fired: bool)

  datatype Chain = Chain(target: string, vars: Vars, businessKey: Option<string>, child: Option<Id>)

  datatype Db = Db(
    now: int,
    nextId: Id,
    instances: map<Id, Instance>,
    execs: map<Id, Exec>,
    jobs: map<Id, Job>,
    tasks: map<Id, UserTaskRow>,
    timers: map<Id, Timer>,
    chains: map<Id, Chain>,
    latest: map<Id, Id>,
    enqueued: multiset<Id>,
    merged: multiset<Id>,
    passed: set<Id>)

  const EMPTY := Db(0, 0, map[], map[], map[], map[], map[], map[], map[], multiset{}, multiset{}, {})

  predicate InFlight(s: InstanceStatus) {
    s == Active || s == Waiting
  }

  predicate Live(s: JobStatus) {
    s == Unlocked || s == Locked
  }

  // ---- instance rows ----

  function PutInstance(db: Db, iid: Id, row: Instance): Db {
    db.(instances := db.instances[iid := row])
  }

  function SetStatus(db: Db, iid: Id, status: InstanceStatus): Db {
    if iid in db.instances then PutInstance(db, iid, db.instances[iid].(status := status)) else db
  }

  function SetCurrent(db: Db, iid: Id, ids: seq<string>): Db {
    if iid in db.instances then PutInstance(db, iid, db.instances[iid].(current := ids)) else db
  }

  /** UpdateInstanceVariablesPartial: overlay the patch on the stored variables. */
  function PatchVars(db: Db, iid: Id, patch: Vars): Db {
    if iid in db.instances then PutInstance(db, iid, db.instances[iid].(vars := db.instances[iid].vars + patch)) else db
  }

  /** The partial unique index on (business_key, definition_id) over in-flight instances. */
  predicate KeyHeld(instances: map<Id, Instance>, iid: Id, def: Definition, key: Option<string>) {
    key.Some? &&
    exists i :: i in instances && i != iid && InFlight(instances[i].status)
                && instances[i].businessKey == key && instances[i].def.id == def.id
  }

  predicate KeyTaken(db: Db, iid: Id, def: Definition, key: Option<string>) {
    KeyHeld(db.instances, iid, def, key)
  }

  // ---- step_execution rows ----

  /** Executions of one step of one instance. */
  function ExecsOf(db: Db, iid: Id, stepId: string): set<Id> {
    set e | e in db.execs && db.execs[e].inst == iid && db.execs[e].stepId == stepId
  }

  function RunningOf(db: Db, iid: Id, stepId: string): set<Id> {
    set e | e in db.execs && db.execs[e].inst == iid && db.execs[e].stepId == stepId && db.execs[e].status == Running
  }

  function InsertExec(db: Db, iid: Id, step: Step, attempt: nat): Db {
    db.(execs := db.execs[db.nextId := Exec(iid, step.id, step.typ, attempt, Running)], nextId := db.nextId + 1)
  }

  /** ...ByID updates: one row. */
  function SetExec(db: Db, e: Id, status: ExecStatus): Db
    requires e in db.execs
  {
    db.(execs := db.execs[e := db.execs[e].(status := status)])
  }

  /** ...ByStep updates: every RUNNING row of (instance, step). */
  function SetRunning(db: Db, iid: Id, stepId: string, status: ExecStatus): Db {
    var hit := RunningOf(db, iid, stepId);
    db.(execs := map e | e in db.execs :: if e in hit then db.execs[e].(status := status) else db.execs[e])
  }

  /** CountCompletedBranchLeafs: distinct step ids of the list with a COMPLETED execution. */
  function CompletedLeafs(db: Db, iid: Id, leafs: seq<string>): set<string> {
    set e | e in db.execs && db.execs[e].inst == iid && db.execs[e].status == Succeeded && db.execs[e].stepId in leafs
      :: db.execs[e].stepId
  }

  /** A join goes on with this execution. */
  function PassJoin(db: Db, exec: Id): Db {
    db.(passed := db.passed + {exec})
  }

  /** The execution with the highest attempt number; attempts are numbered by insertion. */
  ghost predicate IsLatestExec(db: Db, iid: Id, stepId: string, e: Id) {
    && e in ExecsOf(db, iid, stepId)
    && forall x :: x in ExecsOf(db, iid, stepId) ==> db.execs[x].attempt <= db.execs[e].attempt
  }

  // ---- job rows ----

  /** A new UNLOCKED attempt, handed to the dispatcher in the same transaction. */
  function InsertJob(db: Db, iid: Id, exec: Id, jobType: string, retries: int, payload: Vars): Db {
    db.(jobs := db.jobs[db.nextId := Job(iid, exec, jobType, Unlocked, "", None, retries, payload)],
        latest := db.latest[exec := db.nextId],
        enqueued := db.enqueued + multiset{db.nextId},
        nextId := db.nextId + 1)
  }

  function SetJob(db: Db, j: Id, row: Job): Db {
    db.(jobs := db.jobs[j := row])
  }

  /** CancelJobByStepExecution: every live attempt of the execution. */
  function CancelJobs(db: Db, exec: Id): Db {
    db.(jobs := map j | j in db.jobs ::
                  if db.jobs[j].exec == exec && Live(db.jobs[j].status) then db.jobs[j].(status := JobCancelled)
                  else db.jobs[j])
  }

  // ---- user_task rows ----

  function InsertTask(db: Db, iid: Id, exec: Id, stepId: string): Db {
    db.(tasks := db.tasks[db.nextId := UserTaskRow(iid, exec, stepId, Open)], nextId := db.nextId + 1)
  }

  function CancelTasks(db: Db, exec: Id): Db {
    db.(tasks := map t | t in db.tasks ::
                   if db.tasks[t].exec == exec && db.tasks[t].status == Open then db.tasks[t].(status := TaskCancelled)
                   else db.tasks[t])
  }

  function OpenTasks(db: Db, iid: Id, stepId: string): set<Id> {
    set t | t in db.tasks && db.tasks[t].inst == iid && db.tasks[t].stepId == stepId && db.tasks[t].status == Open
  }

  function CompleteTasks(db: Db, iid: Id, stepId: string): Db {
    var hit := OpenTasks(db, iid, stepId);
    db.(tasks := map t | t in db.tasks :: if t in hit then db.tasks[t].(status := TaskCompleted) else db.tasks[t])
  }

  // ---- boundary_event_schedule and workflow_chain rows ----

  function InsertTimer(db: Db, row: Timer): Db {
    db.(timers := db.timers[db.nextId := row], nextId := db.nextId + 1)
  }

  /** ON CONFLICT (source_instance_id) DO NOTHING. */
  function InsertChain(db: Db, source: Id, row: Chain): Db {
    if source in db.chains then db else db.(chains := db.chains[source := row])
  }

  // ---- what the row operations leave alone ----

  lemma PatchKeepsExecs(db: Db, iid: Id, patch: Vars)
    ensures PatchVars(db, iid, patch).execs == db.execs
  {
  }

  lemma CancelKeepsExecs(db: Db, e: Id)
    ensures CancelJobs(db, e).execs == db.execs
  {
  }
}
