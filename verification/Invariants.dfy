/**
 What every engine transaction keeps. `Core` is the table invariant that already holds at every
 call of the step interpreter; `Grows` says how one dispatch may change the tables: it inserts
 rows and rewrites the row of its own instance, and touches nothing else.

 The parts of both take the tables they read, so that a change to one table leaves the facts
 about the others standing as they are.
 */
module Invariants {
  import opened Values
  import opened Definitions
  import opened Database
  import opened Interpreter

  type Instances = map<Id, Instance>
  type Execs = map<Id, Exec>
  type Jobs = map<Id, Job>

  // ---- the table invariant ----

  ghost predicate ExecRefs(instances: Instances, execs: Execs) {
    forall e :: e in execs ==> execs[e].inst in instances
  }

  ghost predicate JobRefs(execs: Execs, jobs: Jobs) {
    forall j :: j in jobs ==> jobs[j].exec in execs && execs[jobs[j].exec].inst == jobs[j].inst
  }

  ghost predicate TaskRefs(execs: Execs, tasks: map<Id, UserTaskRow>) {
    forall t :: t in tasks ==> tasks[t].exec in execs && execs[tasks[t].exec].inst == tasks[t].inst
  }

  ghost predicate TimerRefs(execs: Execs, timers: map<Id, Timer>) {
    forall t :: t in timers ==> timers[t].exec in execs && execs[timers[t].exec].inst == timers[t].inst
  }

  ghost predicate ChainRefs(instances: Instances, chains: map<Id, Chain>) {
    forall c :: c in chains ==> c in instances
  }

  ghost predicate Below<V>(rows: map<Id, V>, n: Id) {
    forall k :: k in rows ==> k < n
  }

  /** Ids handed out so far and foreign keys. */
  ghost predicate Refs(db: Db) {
    && Below(db.instances, db.nextId) && Below(db.execs, db.nextId) && Below(db.jobs, db.nextId)
    && Below(db.tasks, db.nextId) && Below(db.timers, db.nextId)
    && ExecRefs(db.instances, db.execs) && JobRefs(db.execs, db.jobs)
    && TaskRefs(db.execs, db.tasks) && TimerRefs(db.execs, db.timers) && ChainRefs(db.instances, db.chains)
  }

  /** The step a row of step_execution was entered for. */
  function StepOf(instances: Instances, exec: Exec): Option<Step> {
    if exec.inst in instances then FindStep(instances[exec.inst].def, exec.stepId) else None
  }

  /** Executions carry the type of their declared step, and only parked ones are RUNNING. */
  ghost predicate Typed(instances: Instances, execs: Execs) {
    forall e :: e in execs ==>
      && StepOf(instances, execs[e]).Some?
      && execs[e].typ == StepOf(instances, execs[e]).value.typ
      && (execs[e].status == Running ==> Parked(execs[e].typ))
  }

  /** Delivery attempts: a live one is the newest of its execution, and a RUNNING task has one. */
  ghost predicate Attempts(execs: Execs, jobs: Jobs, latest: map<Id, Id>) {
    && (forall j :: j in jobs ==> jobs[j].exec in execs && execs[jobs[j].exec].typ == ServiceTask && jobs[j].exec in latest)
    && (forall j :: j in jobs && Live(jobs[j].status) ==> latest[jobs[j].exec] == j)
    && (forall e :: e in latest ==> e in execs && latest[e] in jobs && jobs[latest[e]].exec == e)
    && (forall e :: e in execs && execs[e].typ == ServiceTask && execs[e].status == Running ==>
          e in latest && Live(jobs[latest[e]].status))
  }

  /** An output is accepted at most once per execution, and closes it. */
  ghost predicate MergedOnce(execs: Execs, merged: multiset<Id>) {
    forall e :: e in merged ==> merged[e] == 1 && e in execs && execs[e].status == Succeeded
  }

  ghost predicate CurrentOk(def: Definition, ids: seq<string>) {
    NoDup(ids) && forall id :: id in ids ==> Declared(def, id)
  }

  ghost predicate Currents(instances: Instances) {
    forall i :: i in instances ==> CurrentOk(instances[i].def, instances[i].current)
  }

  predicate ChainsOn(def: Definition) {
    def.autoStartNextWorkflow && def.nextWorkflowId != ""
  }

  /** A completed instance of an auto-start definition has its chain request. */
  ghost predicate Requested(instances: Instances, chains: map<Id, Chain>) {
    forall i :: i in instances && instances[i].status == Completed && ChainsOn(instances[i].def) ==> i in chains
  }

  /** In-flight instances of one definition have distinct business keys. */
  ghost predicate KeysDistinct(instances: Instances) {
    forall i :: i in instances && InFlight(instances[i].status) ==>
      !KeyHeld(instances, i, instances[i].def, instances[i].businessKey)
  }

  ghost predicate Core(db: Db) {
    && Refs(db)
    && Typed(db.instances, db.execs)
    && Attempts(db.execs, db.jobs, db.latest)
    && db.enqueued == multiset(db.jobs.Keys)
    && MergedOnce(db.execs, db.merged)
    && Currents(db.instances) && Requested(db.instances, db.chains) && KeysDistinct(db.instances)
  }

  // ---- what a dispatch may change ----

  /** The in-memory instance matches its row up to the list of current steps. */
  ghost predicate Ready(db: Db, iid: Id, mem: Instance) {
    && iid in db.instances
    && mem == db.instances[iid].(current := mem.current)
    && CurrentOk(mem.def, mem.current)
    && !KeyHeld(db.instances, iid, mem.def, mem.businessKey)
  }

  ghost predicate Sub<K, V>(a: map<K, V>, b: map<K, V>) {
    forall k :: k in a ==> k in b && b[k] == a[k]
  }

  ghost predicate SameIdentity(a: Instance, b: Instance) {
    a.def == b.def && a.businessKey == b.businessKey && a.origin == b.origin
  }

  /** Only the row of `iid` changes, and it stays the same instance. */
  ghost predicate OneRow(a: Instances, b: Instances, iid: Id) {
    && a.Keys == b.Keys
    && (forall i :: i in a && i != iid ==> b[i] == a[i])
    && (iid in a ==> SameIdentity(a[iid], b[iid]))
  }

  ghost predicate NewExecs(n: Id, a: Execs, b: Execs, iid: Id) {
    Sub(a, b) && forall e :: e in b && e !in a ==> n <= e && b[e].inst == iid
  }

  ghost predicate NewTimers(n: Id, a: map<Id, Timer>, b: map<Id, Timer>, iid: Id) {
    Sub(a, b) && forall t :: t in b && t !in a ==> n <= t && b[t].inst == iid
  }

  /** New jobs are first attempts of new executions, with the step's whole retry budget. */
  ghost predicate NewJobs(n: Id, a: Jobs, b: Jobs, instances: Instances, execs: Execs) {
    && Sub(a, b)
    && (forall j :: j in b && j !in a ==>
          && n <= j && n <= b[j].exec && b[j].status == Unlocked && b[j].exec in execs
          && StepOf(instances, execs[b[j].exec]).Some?
          && b[j].retries == StepOf(instances, execs[b[j].exec]).value.retryCount)
    && (forall j, k :: j in b && j !in a && k in b && b[k].exec == b[j].exec ==> k == j)
  }

  ghost predicate NewChains(a: map<Id, Chain>, b: map<Id, Chain>, iid: Id) {
    Sub(a, b) && forall c :: c in b && c !in a ==> c == iid && b[c].child == None
  }

  ghost predicate Grows(db: Db, db': Db, iid: Id) {
    && db'.now == db.now && db'.merged == db.merged && db.nextId <= db'.nextId
    && OneRow(db.instances, db'.instances, iid)
    && NewExecs(db.nextId, db.execs, db'.execs, iid)
    && NewJobs(db.nextId, db.jobs, db'.jobs, db'.instances, db'.execs)
    && Sub(db.tasks, db'.tasks)
    && NewTimers(db.nextId, db.timers, db'.timers, iid)
    && NewChains(db.chains, db'.chains, iid)
    && Sub(db.latest, db'.latest)
  }

  lemma GrowsReflexive(db: Db, iid: Id)
    ensures Grows(db, db, iid)
  {
  }

  lemma NewJobsTransitive(n: Id, m: Id, a: Jobs, b: Jobs, c: Jobs, bi: Instances, ci: Instances, be: Execs, ce: Execs, iid: Id)
    requires n <= m && Below(be, m) && OneRow(bi, ci, iid) && Sub(be, ce)
    requires NewJobs(n, a, b, bi, be) && NewJobs(m, b, c, ci, ce)
    ensures NewJobs(n, a, c, ci, ce)
  {
    forall j | j in c && j !in a
      ensures n <= j && n <= c[j].exec && c[j].status == Unlocked && c[j].exec in ce
              && StepOf(ci, ce[c[j].exec]).Some? && c[j].retries == StepOf(ci, ce[c[j].exec]).value.retryCount
    {
      if j in b {
        assert StepOf(ci, ce[c[j].exec]) == StepOf(bi, be[b[j].exec]);
      }
    }
    forall j, k | j in c && j !in a && k in c && c[k].exec == c[j].exec ensures k == j {
    }
  }

  lemma GrowsTransitive(a: Db, b: Db, c: Db, iid: Id)
    requires Refs(b) && Grows(a, b, iid) && Grows(b, c, iid)
    ensures Grows(a, c, iid)
  {
    NewJobsTransitive(a.nextId, b.nextId, a.jobs, b.jobs, c.jobs, b.instances, c.instances, b.execs, c.execs, iid);
  }

  /** The result of a dispatch started in `db`. */
  ghost predicate Good(db: Db, iid: Id, o: Outcome) {
    o.Ok? ==> Core(o.db) && Ready(o.db, iid, o.mem) && Grows(db, o.db, iid)
  }

  lemma GoodAfter(db: Db, mid: Db, iid: Id, o: Outcome)
    requires Core(mid) && Grows(db, mid, iid) && Good(mid, iid, o)
    ensures Good(db, iid, o)
  {
    hide Refs, Grows, Ready;
    if o.Ok? {
      GrowsTransitive(db, mid, o.db, iid);
    }
  }
}
