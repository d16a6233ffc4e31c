/**
 The full engine invariant and the relation between any two states of a run: what no
 transaction ever undoes.
 */
module Evolution {
  import opened Values
  import opened Definitions
  import opened Database
  import opened Interpreter
  import opened Transactions
  import opened Invariants

  // ---- retry budget ----

  function FailedOf(jobs: Jobs, e: Id): set<Id> {
    set j | j in jobs && jobs[j].exec == e && jobs[j].status == JobFailed
  }

  function BudgetOf(instances: Instances, exec: Exec): int {
    var s := StepOf(instances, exec);
    if s.Some? then s.value.retryCount else 0
  }

  function NonNegative(n: int): nat {
    if n < 0 then 0 else n
  }

  /** For one execution with budget `b`: the live attempt holds what the failed ones have not spent. */
  ghost predicate BudgetFor(jobs: Jobs, newest: Id, e: Id, b: int) {
    && newest in jobs
    && (Live(jobs[newest].status) ==>
          && jobs[newest].retries + |FailedOf(jobs, e)| == b
          && (jobs[newest].retries >= 0 || jobs[newest].retries == b))
    && |FailedOf(jobs, e)| <= NonNegative(b) + 1
  }

  ghost predicate Budget(instances: Instances, execs: Execs, jobs: Jobs, latest: map<Id, Id>) {
    forall e :: e in latest ==> e in execs && BudgetFor(jobs, latest[e], e, BudgetOf(instances, execs[e]))
  }

  // ---- chaining ----

  /** A request is acknowledged with a child exactly when an instance was started for it. */
  ghost predicate Chained(instances: Instances, chains: map<Id, Chain>) {
    && (forall s :: s in chains && chains[s].child.Some? ==>
          chains[s].child.value in instances && instances[chains[s].child.value].origin == Some(s))
    && (forall i :: i in instances && instances[i].origin.Some? ==>
          instances[i].origin.value in chains && chains[instances[i].origin.value].child == Some(i))
  }

  ghost predicate Inv(db: Db) {
    && Core(db)
    && Budget(db.instances, db.execs, db.jobs, db.latest)
    && Chained(db.instances, db.chains)
  }

  // ---- what is never undone ----

  predicate Settled(s: InstanceStatus) {
    s == Completed || s == Cancelled
  }

  ghost predicate InstancesEvolve(a: Instances, b: Instances) {
    forall i :: i in a ==> i in b && SameIdentity(a[i], b[i]) && (Settled(a[i].status) ==> b[i].status == a[i].status)
  }

  /** An execution leaves RUNNING at most once. */
  ghost predicate ExecsEvolve(a: Execs, b: Execs) {
    forall e :: e in a ==> e in b && b[e] == a[e].(status := b[e].status) && (a[e].status != Running ==> b[e] == a[e])
  }

  /** The lease of a job can no longer be used: the job is retired or its lease has lapsed. */
  predicate Spent(now: int, job: Job) {
    !Live(job.status) || (job.status == Locked && !(job.expires.Some? && job.expires.value > now))
  }

  ghost predicate JobsEvolve(now: int, a: Jobs, now': int, b: Jobs) {
    forall j :: j in a ==>
      && j in b && b[j].inst == a[j].inst && b[j].exec == a[j].exec && b[j].retries == a[j].retries && b[j].payload == a[j].payload
      && (!Live(a[j].status) ==> b[j] == a[j])
      && (Spent(now, a[j]) ==> Spent(now', b[j]))
  }

  ghost predicate ChainsEvolve(a: map<Id, Chain>, b: map<Id, Chain>) {
    forall s :: s in a ==> s in b && b[s] == a[s].(child := b[s].child) && (a[s].child.Some? ==> b[s].child == a[s].child)
  }

  ghost predicate Evolves(db: Db, db': Db) {
    && db.now <= db'.now && db.nextId <= db'.nextId
    && InstancesEvolve(db.instances, db'.instances)
    && ExecsEvolve(db.execs, db'.execs)
    && JobsEvolve(db.now, db.jobs, db'.now, db'.jobs)
    && ChainsEvolve(db.chains, db'.chains)
  }

  lemma EvolvesReflexive(db: Db)
    ensures Evolves(db, db)
  {
  }

  lemma EvolvesTransitive(a: Db, b: Db, c: Db)
    requires Evolves(a, b) && Evolves(b, c)
    ensures Evolves(a, c)
  {
  }

  /** A dispatch for an unsettled instance only adds to what was there. */
  lemma GrowthEvolves(a: Db, b: Db, c: Db, iid: Id)
    requires Evolves(a, b) && Grows(b, c, iid) && (iid in a.instances ==> !Settled(a.instances[iid].status))
    ensures Evolves(a, c)
  {
    hide NewJobs;
    assert Sub(b.jobs, c.jobs) by { SubOfNewJobs(b.nextId, b.jobs, c.jobs, c.instances, c.execs); }
  }

  lemma SubOfNewJobs(n: Id, a: Jobs, b: Jobs, instances: Instances, execs: Execs)
    requires NewJobs(n, a, b, instances, execs)
    ensures Sub(a, b)
  {
  }

  // ---- budgets through a dispatch ----

  lemma FailedKept(n: Id, a: Jobs, b: Jobs, instances: Instances, execs: Execs, e: Id)
    requires NewJobs(n, a, b, instances, execs)
    ensures FailedOf(b, e) == FailedOf(a, e)
  {
    forall j | j in FailedOf(b, e) ensures j in FailedOf(a, e) {
    }
  }

  lemma FreshBudget(n: Id, a: Jobs, b: Jobs, instances: Instances, execs: Execs, j: Id)
    requires NewJobs(n, a, b, instances, execs) && j in b && j !in a && b[j].exec in execs
    requires Below(a, n) && forall k :: k in a ==> a[k].exec < n
    ensures BudgetFor(b, j, b[j].exec, BudgetOf(instances, execs[b[j].exec]))
  {
    var e := b[j].exec;
    FailedKept(n, a, b, instances, execs, e);
    assert FailedOf(a, e) == {};
  }

  lemma BudgetGrows(db: Db, db': Db, iid: Id)
    requires Core(db) && Core(db') && Grows(db, db', iid) && Budget(db.instances, db.execs, db.jobs, db.latest)
    ensures Budget(db'.instances, db'.execs, db'.jobs, db'.latest)
  {
    forall e | e in db'.latest
      ensures e in db'.execs && BudgetFor(db'.jobs, db'.latest[e], e, BudgetOf(db'.instances, db'.execs[e]))
    {
      BudgetGrowsAt(db, db', iid, e);
    }
  }

  lemma BudgetGrowsAt(db: Db, db': Db, iid: Id, e: Id)
    requires Core(db) && Core(db') && Grows(db, db', iid) && Budget(db.instances, db.execs, db.jobs, db.latest)
    requires e in db'.latest
    ensures e in db'.execs && BudgetFor(db'.jobs, db'.latest[e], e, BudgetOf(db'.instances, db'.execs[e]))
  {
    hide Typed, TaskRefs, TimerRefs, ExecRefs, MergedOnce, KeysDistinct, Currents, Requested, BudgetFor, FailedOf, NewJobs, NewTimers;
    SubOfNewJobs(db.nextId, db.jobs, db'.jobs, db'.instances, db'.execs);
    var j := db'.latest[e];
    if e in db.latest {
      assert j == db.latest[e] && StepOf(db'.instances, db'.execs[e]) == StepOf(db.instances, db.execs[e]) by {
        assert e in db.execs;
      }
      BudgetUnchanged(db.nextId, db.jobs, db'.jobs, db'.instances, db'.execs, j, e, BudgetOf(db.instances, db.execs[e]));
    } else {
      assert j !in db.jobs;
      FreshBudget(db.nextId, db.jobs, db'.jobs, db'.instances, db'.execs, j);
    }
  }

  lemma BudgetUnchanged(n: Id, a: Jobs, b: Jobs, instances: Instances, execs: Execs, j: Id, e: Id, budget: int)
    requires NewJobs(n, a, b, instances, execs) && BudgetFor(a, j, e, budget)
    ensures BudgetFor(b, j, e, budget)
  {
    FailedKept(n, a, b, instances, execs, e);
  }
}
