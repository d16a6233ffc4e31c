/**
 The engine service as it is written: methods that change the instance they hold and the rows
 of the open transaction, and transaction bodies that commit or roll back. Each method is
 proved to do what the corresponding function of Interpreter and Transactions says; each
 transaction keeps the table invariant, undoes nothing, and is one step of the engine's runs.

 `depth` bounds the recursion of the dispatch, which the engine leaves unbounded.
 */
module Service {
  import opened Values
  import opened Definitions
  import opened Database
  import opened Interpreter
  import opened Transactions
  import opened Invariants
  import opened Evolution
  import opened Effects
  import opened TransactionEffects
  import opened HandlerEffects
  import EventProofs
  import DecisionTables
  import Transformations

  /** How a handler returns: normally, with an error, or out of depth. */
  datatype Signal = Done | Raised(error: Error) | TooDeep

  /** A method that ended with `sig` in (db, inst) did what the outcome says. */
  ghost predicate Did(o: Outcome, sig: Signal, db: Db, inst: Instance) {
    match o
    case Ok(d, m) => sig == Done && db == d && inst == m
    case Err(e) => sig == Raised(e)
    case Diverged => sig == TooDeep
  }

  /** How a transaction ended. */
  datatype Tx = Committed | Refused | Errored(error: Error) | Hung

  /** The database after a transaction that began in `before`. */
  ghost predicate Ended(r: TxResult, before: Db, db: Db, tx: Tx) {
    match r
    case Commit(d) => tx == Committed && db == d
    case Rollback => tx == Refused && db == before
    case Aborted(e) => tx == Errored(e) && db == before
    case Endless => tx == Hung && db == before
  }

  /** The state after a transaction: committed, or as before. */
  function After(r: TxResult, before: Db): Db {
    if r.Commit? then r.db else before
  }

  /** One sweep after the other. */
  function SweepAll(db: Db, expired: seq<Id>): Db
    decreases |expired|
  {
    if expired == [] then db else SweepAll(After(RetryJob(db, expired[0], true), db), expired[1..])
  }

  /** The answer to one pending request: the repository may not know its target. */
  ghost function Delivery(env: Env, depth: nat, db: Db, source: Id, lookup: string -> Option<Definition>): TxResult
    requires source in db.chains
  {
    var def := lookup(db.chains[source].target);
    if def.Some? then DeliverChain(env, depth, db, source, def.value) else Rollback
  }

  /** One pending request after the other; a failing one does not stop the rest. */
  ghost function ChainAll(env: Env, depth: nat, db: Db, pending: seq<Id>, lookup: string -> Option<Definition>): Db
    decreases |pending|
  {
    if pending == [] then db
    else if pending[0] !in db.chains then ChainAll(env, depth, db, pending[1..], lookup)
    else ChainAll(env, depth, After(Delivery(env, depth, db, pending[0], lookup), db), pending[1..], lookup)
  }

  function TxOf(r: TxResult): Tx {
    match r
    case Commit(_) => Committed
    case Rollback => Refused
    case Aborted(e) => Errored(e)
    case Endless => Hung
  }

  /** How the first request that fails ends. */
  ghost function FirstFailure(env: Env, depth: nat, db: Db, pending: seq<Id>, lookup: string -> Option<Definition>): Option<Tx>
    decreases |pending|
  {
    if pending == [] then None
    else if pending[0] !in db.chains then FirstFailure(env, depth, db, pending[1..], lookup)
    else
      var r := Delivery(env, depth, db, pending[0], lookup);
      if r.Commit? then FirstFailure(env, depth, r.db, pending[1..], lookup) else Some(TxOf(r))
  }

  /** The request has its child. */
  predicate Answered(db: Db, source: Id) {
    source in db.chains && db.chains[source].child.Some?
  }

  lemma EndedIsAfter(r: TxResult, before: Db, db: Db, tx: Tx)
    requires Ended(r, before, db, tx)
    ensures db == After(r, before) && tx == TxOf(r) && (tx == Committed <==> r.Commit?)
  {
  }

  lemma RequestStays(a: Db, b: Db, source: Id)
    requires Evolves(a, b) && source in a.chains
    ensures source in b.chains
  {
    hide InstancesEvolve, ExecsEvolve, JobsEvolve;
  }

  lemma AnsweredStays(a: Db, b: Db, source: Id)
    requires Evolves(a, b) && Answered(a, source)
    ensures Answered(b, source)
  {
    hide InstancesEvolve, ExecsEvolve, JobsEvolve;
  }

  lemma DeliveredIsAnswered(env: Env, depth: nat, before: Db, source: Id, def: Definition, db: Db)
    requires Inv(before) && source in before.chains && DeliverChain(env, depth, before, source, def) == Commit(db)
    ensures Answered(db, source)
  {
    hide Inv, StartIn, KeyTaken, Startable, Evolves, Next;
    EventProofs.DeliverChainKept(env, depth, before, source, def);
    RequestStays(before, db, source);
  }

  // ---- what a transaction method keeps ----

  /** The invariant, what is never undone, and membership in the engine's runs. */
  ghost predicate Keeps(env: Env, before: Db, ev: Event, db: Db) {
    Inv(db) && Evolves(before, db) && Steps(env, before, ev, db)
  }

  /** However a transaction ends, it keeps all of that. */
  lemma EndedKeeps(env: Env, depth: nat, before: Db, ev: Event)
    requires Inv(before)
    ensures forall db, tx :: Ended(Next(env, depth, before, ev), before, db, tx) ==> Keeps(env, before, ev, db)
  {
    hide Inv, Evolves, Next;
    EventProofs.NextKept(env, depth, before, ev);
    EvolvesReflexive(before);
  }

  lemma KeepsEvolves(env: Env, before: Db, ev: Event, db: Db)
    requires Keeps(env, before, ev, db)
    ensures Inv(db) && Evolves(before, db)
  {
  }

  lemma KeepsThrough(env: Env, start: Db, before: Db, ev: Event, db: Db)
    requires Evolves(start, before) && Keeps(env, before, ev, db)
    ensures Inv(db) && Evolves(start, db)
  {
    hide Inv, Evolves;
    EvolvesTransitive(start, before, db);
  }

  // ---- sweeping ----

  /** A LOCKED attempt of an active execution whose lease ended before now. */
  predicate Overdue(db: Db, j: Id) {
    && Expired(db, j)
    && Going(db, db.jobs[j].inst) && db.jobs[j].exec in db.execs && db.execs[db.jobs[j].exec].status == Running
  }

  /** GetExpiredLeases. */
  predicate Expired(db: Db, j: Id) {
    j in db.jobs && db.jobs[j].status == Locked && db.jobs[j].expires.Some? && db.jobs[j].expires.value < db.now
  }

  ghost predicate FreshJobIds(db: Db) {
    forall j :: j in db.jobs ==> j < db.nextId
  }

  /** One attempt swept: no other LOCKED job appears. */
  lemma SweptRows(db: Db, j: Id, d: Db)
    requires FreshJobIds(db) && d == After(RetryJob(db, j, true), db)
    ensures d.instances == db.instances && d.execs == db.execs && d.now == db.now && FreshJobIds(d)
    ensures forall k :: k in d.jobs && d.jobs[k].status == Locked ==> k in db.jobs && d.jobs[k] == db.jobs[k]
    ensures Overdue(db, j) ==> j in d.jobs && d.jobs[j].status == JobCancelled
  {
    if LockJob(db, j).Some? {
      ReplacedRows(db, j);
    }
    hide Replacement, SetJob;
  }

  lemma ReplacedRows(db: Db, j: Id)
    requires FreshJobIds(db) && j in db.jobs
    ensures var d := Replacement(SetJob(db, j, db.jobs[j].(status := JobCancelled)), db.jobs[j], db.jobs[j].retries);
            && d.instances == db.instances && d.execs == db.execs && d.now == db.now && FreshJobIds(d)
            && (forall k :: k in d.jobs && d.jobs[k].status == Locked ==> k in db.jobs && d.jobs[k] == db.jobs[k])
            && j in d.jobs && d.jobs[j].status == JobCancelled
  {
  }

  lemma SweepOne(db: Db, j: Id, k: Id)
    requires FreshJobIds(db)
    ensures var d := After(RetryJob(db, j, true), db); FreshJobIds(d) && (Overdue(d, k) ==> k != j && Overdue(db, k))
  {
    SweptRows(db, j, After(RetryJob(db, j, true), db));
    hide RetryJob, FreshJobIds;
  }

  /** Once every expired id was swept, no active execution is left behind a lapsed lease. */
  lemma {:induction false} SweepComplete(db: Db, expired: seq<Id>)
    requires FreshJobIds(db) && forall j :: Overdue(db, j) ==> j in expired
    ensures forall j :: !Overdue(SweepAll(db, expired), j)
    decreases |expired|
  {
    hide Overdue, RetryJob;
    if expired != [] {
      var d := After(RetryJob(db, expired[0], true), db);
      forall k | Overdue(d, k) ensures k in expired[1..] {
        SweepOne(db, expired[0], k);
      }
      SweepOne(db, expired[0], 0);
      SweepComplete(d, expired[1..]);
    }
  }

  lemma AllOverdueListed(db: Db, expired: seq<Id>)
    requires forall j :: j in expired <==> Expired(db, j)
    ensures forall j :: Overdue(db, j) ==> j in expired
  {
    hide LockJob;
  }

  lemma InvFreshJobIds(db: Db)
    requires Inv(db)
    ensures FreshJobIds(db)
  {
    hide Typed, Attempts, Budget, Chained, MergedOnce, Currents, Requested, KeysDistinct, JobRefs, TaskRefs, TimerRefs, ChainRefs, ExecRefs;
  }

  // ---- what callers see of single operations ----

  /** Exactly one job more: UNLOCKED, under the next free id, seen once by the dispatcher. */
  ghost predicate OneJobMore(a: Db, b: Db, job: Job) {
    var n := a.nextId;
    && b.jobs.Keys == a.jobs.Keys + {n} && (forall k :: k in a.jobs && k != n ==> b.jobs[k] == a.jobs[k])
    && b.jobs[n] == job.(status := Unlocked, worker := "", expires := None)
    && b.enqueued == a.enqueued + multiset{n} && n < b.nextId
  }

  ghost predicate OneTaskMore(a: Db, b: Db, task: UserTaskRow) {
    var n := a.nextId;
    b.tasks.Keys == a.tasks.Keys + {n} && b.tasks[n] == task && (forall k :: k in a.tasks && k != n ==> b.tasks[k] == a.tasks[k]) && n < b.nextId
  }

  /** Of all instances only the status of `iid` changed. */
  ghost predicate StatusSet(a: Db, b: Db, iid: Id, status: InstanceStatus) {
    && b.instances.Keys == a.instances.Keys
    && (forall i :: i in a.instances ==> b.instances[i] == if i == iid then a.instances[i].(status := status) else a.instances[i])
  }

  lemma StatusRow(db: Db, iid: Id, status: InstanceStatus)
    ensures var d := SetStatus(db, iid, status); StatusSet(db, d, iid, status) && d == db.(instances := d.instances)
  {
  }

  /** The RUNNING executions of the step failed, all others are as they were. */
  ghost predicate StepFailed(a: Execs, b: Execs, iid: Id, stepId: string) {
    && b.Keys == a.Keys
    && (forall e :: e in a ==>
          b[e] == if a[e].inst == iid && a[e].stepId == stepId && a[e].status == Running then a[e].(status := Faulted) else a[e])
  }

  lemma StepFailedRows(db: Db, iid: Id, stepId: string)
    ensures var d := SetRunning(db, iid, stepId, Faulted); StepFailed(db.execs, d.execs, iid, stepId) && d == db.(execs := d.execs)
  {
  }

  /** Some worker's report on the job would still be accepted. */
  ghost predicate CanBeReported(db: Db, j: Id) {
    exists worker :: MayReport(db, j, worker)
  }

  /** What an accepted failure report leaves: a successor with one retry less, or a failed step. */
  ghost predicate FailedOver(a: Db, b: Db, j: Id, retryable: bool)
    requires j in a.jobs
  {
    var job := a.jobs[j];
    && j in b.jobs && b.jobs[j].status == JobFailed
    && if retryable && job.retries > 0 then
         && b.jobs.Keys == a.jobs.Keys + {a.nextId} && b.enqueued == a.enqueued + multiset{a.nextId}
         && (a.nextId != j ==> b.jobs[a.nextId] == job.(status := Unlocked, worker := "", expires := None, retries := job.retries - 1))
         && b.execs == a.execs && b.instances == a.instances
       else
         && b.jobs.Keys == a.jobs.Keys && b.enqueued == a.enqueued
         && job.exec in b.execs && b.execs[job.exec].status == Faulted
         && StatusSet(a, b, job.inst, Failed)
  }

  lemma AcceptedRows(db: Db, j: Id, worker: string)
    requires Inv(db) && Accepts(db, j, worker)
    ensures j in db.jobs && db.jobs[j].exec in db.execs && db.jobs[j].inst in db.instances && db.nextId !in db.jobs
  {
    InvFreshJobIds(db);
    hide Inv;
  }

  /** A retired job is never reported on again. */
  lemma RetiredIsSilent(db: Db, j: Id)
    requires j in db.jobs && !Live(db.jobs[j].status)
    ensures !CanBeReported(db, j)
  {
  }

  lemma ReplacedFacts(db: Db, j: Id, worker: string)
    requires j in db.jobs && db.nextId !in db.jobs && db.jobs[j].retries > 0
    ensures var job := db.jobs[j];
            var d := Replacement(SetJob(db, j, job.(status := JobFailed, worker := worker)), job, job.retries - 1);
            FailedOver(db, d, j, true)
  {
  }

  lemma TerminalFacts(db: Db, j: Id, worker: string, retryable: bool)
    requires j in db.jobs && db.jobs[j].exec in db.execs && !(retryable && db.jobs[j].retries > 0)
    ensures var job := db.jobs[j];
            var d := SetStatus(SetExec(SetJob(db, j, job.(status := JobFailed, worker := worker)), job.exec, Faulted), job.inst, Failed);
            FailedOver(db, d, j, retryable)
  {
    hide SetStatus;
    var job := db.jobs[j];
    var db1 := SetExec(SetJob(db, j, job.(status := JobFailed, worker := worker)), job.exec, Faulted);
    StatusRow(db1, job.inst, Failed);
  }

  lemma FailFacts(db: Db, j: Id, worker: string, retryable: bool)
    requires Inv(db) && Accepts(db, j, worker)
    ensures j in db.jobs
    ensures var d := After(FailJob(db, j, worker, retryable), db); FailedOver(db, d, j, retryable) && !CanBeReported(d, j)
  {
    AcceptedRows(db, j, worker);
    hide Inv, SetStatus, CanBeReported, FailedOver, Replacement, SetExec;
    var d := After(FailJob(db, j, worker, retryable), db);
    if retryable && db.jobs[j].retries > 0 {
      ReplacedFacts(db, j, worker);
    } else {
      TerminalFacts(db, j, worker, retryable);
    }
    FailedIsRetired(db, d, j, retryable);
    RetiredIsSilent(d, j);
  }

  lemma FailedIsRetired(a: Db, b: Db, j: Id, retryable: bool)
    requires j in a.jobs && FailedOver(a, b, j, retryable)
    ensures j in b.jobs && !Live(b.jobs[j].status)
  {
  }

  lemma FailReport(db: Db, j: Id, worker: string, retryable: bool)
    requires Inv(db)
    ensures forall d, tx :: Ended(FailJob(db, j, worker, retryable), db, d, tx) ==>
              if Accepts(db, j, worker) then j in db.jobs && FailedOver(db, d, j, retryable) && !CanBeReported(d, j) else d == db
  {
    hide Inv, Accepts, FailedOver, CanBeReported;
    if Accepts(db, j, worker) {
      FailFacts(db, j, worker, retryable);
    }
    hide FailJob;
    forall d, tx | Ended(FailJob(db, j, worker, retryable), db, d, tx)
      ensures if Accepts(db, j, worker) then j in db.jobs && FailedOver(db, d, j, retryable) && !CanBeReported(d, j) else d == db
    {
      EndedIsAfter(FailJob(db, j, worker, retryable), db, d, tx);
      if !Accepts(db, j, worker) {
        FailRefused(db, j, worker, retryable);
      }
    }
  }

  lemma FailRefused(db: Db, j: Id, worker: string, retryable: bool)
    requires !Accepts(db, j, worker)
    ensures After(FailJob(db, j, worker, retryable), db) == db
  {
  }

  /** The branch loop of handleDecision and advancePastStep. */
  method FirstTrue(eval: Evaluator, branches: seq<Branch>, vars: Vars) returns (c: Choice)
    ensures c == Choose(eval, branches, vars)
  {
    for i := 0 to |branches|
      invariant Choose(eval, branches, vars) == Choose(eval, branches[i..], vars)
    {
      assert branches[i..][1..] == branches[i + 1..];
      match eval(branches[i].expr, vars)
      case EvalError => return NoBranch;
      case Val(v) =>
        if !v.Bool? {
          return NoBranch;
        }
        if v.b {
          return Take(branches[i].target);
        }
    }
    c := NoBranch;
  }

  /** recomputeInstanceStatus. */
  method RecomputeStatus(def: Definition, ids: seq<string>) returns (status: InstanceStatus)
    ensures status == Recomputed(def, ids)
    ensures status == if exists id :: id in ids && WaitsAt(def, id) then Waiting else Active
  {
    for i := 0 to |ids|
      invariant forall k :: 0 <= k < i && FindStep(def, ids[k]).Some? ==> FindStep(def, ids[k]).value.typ !in {UserTask, Wait}
    {
      var s := FindStep(def, ids[i]);
      if s.Some? && s.value.typ in {UserTask, Wait} {
        assert ids[i] in ids && WaitsAt(def, ids[i]);
        return Waiting;
      }
    }
    status := Active;
  }

  lemma TableDecided(env: Env, exec: Id, now: int, rules: seq<DecisionTables.Rule>, policy: DecisionTables.Policy, vars: Vars, o: DecisionTables.Outcome)
    requires DecisionTables.Decides(rules, policy, TableOrders(env, exec, rules), env.eval, env.clockText(now), vars, o)
    ensures Decided(env, exec, now, rules, policy, TableOrders(env, exec, rules), vars) == o
  {
    hide DecisionTables.Decides, TableOrders;
    var p := Decided(env, exec, now, rules, policy, TableOrders(env, exec, rules), vars);
    DecisionTables.DecidesUnique(rules, policy, TableOrders(env, exec, rules), env.eval, env.clockText(now), vars, o, p);
  }

  lemma HandledSo(env: Env, depth: nat, a: Db, iid: Id, mem: Instance, step: Step, exec: Id, sig: Signal, db: Db, inst: Instance)
    requires depth > 0 && exec in a.execs && Did(Route(env, depth, a, iid, mem, step, exec), sig, db, inst)
    ensures sig == Done && Begins(a, iid, mem, step, exec) ==> Handled(env, a, db, iid, mem, inst, step, exec)
  {
    hide Begins, Handled, Route;
    if Begins(a, iid, mem, step, exec) {
      RouteHandles(env, depth, a, iid, mem, step, exec);
    }
  }

  lemma LaunchedSo(env: Env, depth: nat, a: Db, iid: Id, mem: Instance, stepId: string, sig: Signal, db: Db, inst: Instance)
    requires Did(Dispatch(env, depth, a, iid, mem, stepId), sig, db, inst)
    ensures sig == Done && Stored(a, iid, mem) ==> Launched(env, a, db, a.nextId, iid, mem, stepId)
  {
    hide Dispatch, Launched, Stored, Adds;
    if sig == Done && Stored(a, iid, mem) {
      DispatchLaunches(env, depth, a, a, iid, mem, stepId);
    }
  }

  lemma WentOnSo(env: Env, depth: nat, a: Db, iid: Id, mem: Instance, step: Step, sig: Signal, db: Db, inst: Instance)
    requires Did(Advance(env, depth, a, iid, mem, step), sig, db, inst)
    ensures sig == Done && iid in a.instances && a.instances[iid] == mem ==> WentOn(env, a, db, iid, mem, step, map[])
  {
    hide Advance, GoesOn, Resumes, Leaving, Adds, Overlaid;
    if sig == Done && iid in a.instances && a.instances[iid] == mem {
      AdvanceGoesOn(env, depth, a, a, iid, mem, step);
      PlusOverlays(mem.vars, map[]);
      assert mem.vars + map[] == mem.vars;
      LeavingResumes(mem, mem, step, map[]);
    }
  }

  lemma CompleteSo(env: Env, depth: nat, db: Db, j: Id, worker: string, output: Vars)
    requires Inv(db)
    ensures var r := CompleteJob(env, depth, db, j, worker, output);
            (r.Rollback? <==> j !in db.jobs) && (r.Commit? ==> Reported(env, db, r.db, j, worker, output))
  {
    var r := CompleteJob(env, depth, db, j, worker, output);
    InvBelow(db);
    CompleteRefused(env, depth, db, j, worker, output);
    hide CompleteJob, Reported, Inv;
    if r.Commit? {
      CompleteReports(env, depth, db, j, worker, output, r.db);
    }
  }

  lemma CompleteRefused(env: Env, depth: nat, db: Db, j: Id, worker: string, output: Vars)
    requires Inv(db)
    ensures CompleteJob(env, depth, db, j, worker, output).Rollback? <==> j !in db.jobs
  {
    hide FindStep, Advance, Budget, Chained, MergedOnce, Currents, Requested, KeysDistinct, TaskRefs, TimerRefs, ChainRefs, Below, Attempts, Accepts,
         Closed, Merged, CancelJobs, SetExec, SetStatus;
    if j in db.jobs {
      CancelKeepsExecs(db, db.jobs[j].exec);
      MergedHasRow(db, j, worker, output);
      assert StepOf(db.instances, db.execs[db.jobs[j].exec]).Some?;
    }
  }

  lemma FireSo(env: Env, depth: nat, db: Db, t: Id, iid: Id)
    requires Inv(db)
    ensures var r := FireTimer(env, depth, db, t, iid);
            (r.Rollback? ==> iid !in db.instances) && (r.Commit? ==> Fired(env, db, r.db, t, iid))
  {
    var r := FireTimer(env, depth, db, t, iid);
    InvBelow(db);
    if iid in db.instances {
      FireRefused(env, depth, db, t, iid);
    }
    hide FireTimer, Fired, Inv;
    if r.Commit? {
      FireStrikes(env, depth, db, t, iid, r.db);
    }
  }

  lemma FireRefused(env: Env, depth: nat, db: Db, t: Id, iid: Id)
    requires Inv(db) && iid in db.instances
    ensures !FireTimer(env, depth, db, t, iid).Rollback?
  {
    hide Dispatch, Interrupted, WithoutStep, Typed, Attempts, Budget, Chained, MergedOnce, Currents, Requested, KeysDistinct, JobRefs, TaskRefs, ChainRefs,
         ExecRefs, Below;
  }

  lemma UserTaskSo(env: Env, depth: nat, db: Db, iid: Id, stepId: string, vars: Vars)
    requires Inv(db)
    ensures var r := CompleteUserTask(env, depth, db, iid, stepId, vars);
            && (r.Rollback? <==> !MayFinishTask(db, iid, stepId))
            && (r.Commit? ==> StepFinished(env, db, r.db, iid, stepId, vars) && TasksFinished(db, r.db, iid, stepId))
  {
    InvBelow(db);
    hide Inv, CompleteUserTask, MayFinishTask, StepFinished, TasksFinished;
    UserTaskRefused(env, depth, db, iid, stepId, vars);
    var r := CompleteUserTask(env, depth, db, iid, stepId, vars);
    if r.Commit? {
      UserTaskFinishes(env, depth, db, iid, stepId, vars, r.db);
    }
  }

  lemma SignalSo(env: Env, depth: nat, db: Db, iid: Id, stepId: string, vars: Vars)
    requires Inv(db)
    ensures var r := SignalWait(env, depth, db, iid, stepId, vars);
            (r.Rollback? <==> !MaySignal(db, iid, stepId)) && (r.Commit? ==> StepFinished(env, db, r.db, iid, stepId, vars))
  {
    InvBelow(db);
    hide Inv, SignalWait, MaySignal, StepFinished;
    SignalRefused(env, depth, db, iid, stepId, vars);
    var r := SignalWait(env, depth, db, iid, stepId, vars);
    if r.Commit? {
      SignalFinishes(env, depth, db, iid, stepId, vars, r.db);
    }
  }

  /** The child has the request's data, and the request names it. */
  ghost predicate Delivered(env: Env, a: Db, b: Db, source: Id, def: Definition)
    requires source in a.chains
  {
    && Started(env, a, b, def, a.chains[source].vars, a.chains[source].businessKey, Some(source))
    && source in b.chains && b.chains[source].child == Some(a.nextId)
  }

  lemma DeliveredSo(env: Env, a: Db, b: Db, source: Id, def: Definition)
    requires Inv(b) && Pending(a, source)
    requires Started(env, a, b, def, a.chains[source].vars, a.chains[source].businessKey, Some(source))
    ensures Delivered(env, a, b, source, def)
  {
    hide Inv, Started;
    StartedIsChild(env, a, b, def, a.chains[source].vars, a.chains[source].businessKey, source);
  }

  lemma InvBelow(db: Db)
    requires Inv(db)
    ensures Below(db.jobs, db.nextId) && Below(db.execs, db.nextId) && Below(db.tasks, db.nextId) && Below(db.timers, db.nextId)
  {
    hide Typed, Attempts, Budget, Chained, MergedOnce, Currents, Requested, KeysDistinct, JobRefs, TaskRefs, TimerRefs, ChainRefs, ExecRefs, Below;
  }

  class Engine {
    const env: Env
    var db: Db
    var inst: Instance

    /** Between transactions the tables satisfy the engine's invariant. */
    ghost predicate Valid()
      reads this
    {
      Inv(db)
    }

    constructor (env: Env, db: Db, inst: Instance)
      requires Inv(db)
      ensures Valid() && this.env == env && this.db == db && this.inst == inst
    {
      this.env := env;
      this.db := db;
      this.inst := inst;
    }

    /** scheduleBoundaryEvents. */
    method ScheduleBoundaryEvents(iid: Id, exec: Id, step: Step) returns (sig: Signal)
      modifies this`db
      ensures Did(Scheduled(env, old(db), iid, inst, exec, step), sig, db, inst)
      ensures db == old(db).(timers := db.timers, nextId := db.nextId) && old(db.nextId) <= db.nextId
      ensures if BadTimer(env, step.boundaryEvents) then sig == Raised(BadDuration)
              else sig == Done && Alarms(env, old(db), db, iid, exec, step.boundaryEvents)
    {
      var events := step.boundaryEvents;
      ghost var db0 := db;
      ScheduleMeans(env, db, iid, exec, events);
      hide Alarms, BadTimer;
      for i := 0 to |events|
        invariant Schedule(env, db0, iid, exec, events) == Schedule(env, db, iid, exec, events[i..])
        invariant db == db0.(timers := db.timers, nextId := db.nextId) && db0.nextId <= db.nextId
      {
        assert events[i..][1..] == events[i + 1..];
        if events[i].kind == "TIMER" {
          var d := env.duration(events[i].duration);
          if d.None? {
            return Raised(BadDuration);
          }
          db := InsertTimer(db, Timer(iid, exec, events[i].target, db.now + d.value, events[i].interrupting, false));
        }
      }
      assert events[|events|..] == [];
      sig := Done;
    }

    /** failInstance. */
    method FailInstance(iid: Id, stepId: string)
      modifies this
      ensures FailStep(old(db), iid, old(inst), stepId) == Ok(db, inst)
      ensures StepFailed(old(db.execs), db.execs, iid, stepId) && StatusSet(old(db), db, iid, Failed) && inst == old(inst).(status := Failed)
      ensures db == old(db).(execs := db.execs, instances := db.instances)
    {
      StepFailedRows(db, iid, stepId);
      StatusRow(SetRunning(db, iid, stepId, Faulted), iid, Failed);
      hide SetRunning, SetStatus;
      db := SetRunning(db, iid, stepId, Faulted);
      db := SetStatus(db, iid, Failed);
      inst := inst.(status := Failed);
    }

    method HandleServiceTask(depth: nat, iid: Id, step: Step, exec: Id) returns (sig: Signal)
      requires depth > 0 && exec in db.execs && step.typ == ServiceTask
      modifies this`db
      ensures Did(Route(env, depth, old(db), iid, old(inst), step, exec), sig, db, inst)
      ensures OneJobMore(old(db), db, Job(iid, exec, if step.jobType == "" then step.id else step.jobType, Unlocked, "", None,
                                          step.retryCount, inst.vars))
      ensures db.instances == old(db.instances) && db.execs == old(db.execs) && db.tasks == old(db.tasks)
    {
      hide Scheduled;
      var jobType := if step.jobType == "" then step.id else step.jobType;
      db := InsertJob(db, iid, exec, jobType, step.retryCount, inst.vars);
      sig := ScheduleBoundaryEvents(iid, exec, step);
    }

    method HandleUserTask(depth: nat, iid: Id, step: Step, exec: Id) returns (sig: Signal)
      requires depth > 0 && exec in db.execs && step.typ == UserTask
      modifies this
      ensures Did(Route(env, depth, old(db), iid, old(inst), step, exec), sig, db, inst)
      ensures OneTaskMore(old(db), db, UserTaskRow(iid, exec, step.id, Open)) && StatusSet(old(db), db, iid, Waiting)
      ensures inst == old(inst).(status := Waiting) && db.jobs == old(db.jobs) && db.execs == old(db.execs)
    {
      hide Scheduled, SetStatus;
      StatusRow(InsertTask(db, iid, exec, step.id), iid, Waiting);
      db := InsertTask(db, iid, exec, step.id);
      db := SetStatus(db, iid, Waiting);
      inst := inst.(status := Waiting);
      sig := ScheduleBoundaryEvents(iid, exec, step);
    }

    method HandleWait(depth: nat, iid: Id, step: Step, exec: Id) returns (sig: Signal)
      requires depth > 0 && exec in db.execs && step.typ == Wait
      modifies this
      ensures Did(Route(env, depth, old(db), iid, old(inst), step, exec), sig, db, inst)
      ensures StatusSet(old(db), db, iid, Waiting) && inst == old(inst).(status := Waiting)
      ensures db == old(db).(instances := db.instances, timers := db.timers, nextId := db.nextId)
    {
      hide Scheduled, SetStatus;
      StatusRow(db, iid, Waiting);
      db := SetStatus(db, iid, Waiting);
      inst := inst.(status := Waiting);
      sig := ScheduleBoundaryEvents(iid, exec, step);
    }

    method HandleEnd(depth: nat, iid: Id, step: Step, exec: Id) returns (sig: Signal)
      requires depth > 0 && exec in db.execs && step.typ == End
      modifies this
      ensures Did(Route(env, depth, old(db), iid, old(inst), step, exec), sig, db, inst)
      ensures sig == Done && Finished(old(db), db, iid, exec, inst)
      ensures inst == old(inst).(status := Completed, current := inst.current)
      ensures forall id :: id in inst.current <==> id in old(inst.current) && id != step.id
    {
      EndIsRoute(env, depth, db, iid, inst, step, exec);
      EndFinishes(db, iid, inst, step, exec);
      var remaining := RemoveStep(inst.current, step.id);
      hide SetStatus, SetCurrent, SetExec, WithoutStep, Route, Finished, InsertChain;
      db := SetExec(db, exec, Succeeded);
      inst := inst.(current := remaining, status := Completed);
      db := SetCurrent(db, iid, inst.current);
      db := SetStatus(db, iid, Completed);
      if inst.def.autoStartNextWorkflow && inst.def.nextWorkflowId != "" {
        db := InsertChain(db, iid, Chain(inst.def.nextWorkflowId, inst.vars, inst.businessKey, None));
      }
      sig := Done;
    }

    method HandleDecision(depth: nat, iid: Id, step: Step, exec: Id) returns (sig: Signal)
      requires depth > 0 && exec in db.execs && step.typ == Decision
      modifies this
      ensures Did(Route(env, depth, old(db), iid, old(inst), step, exec), sig, db, inst)
      ensures sig == Done && Begins(old(db), iid, old(inst), step, exec) ==> Handled(env, old(db), db, iid, old(inst), inst, step, exec)
      decreases depth, 0, 1
    {
      hide Begins, Handled, Launched, Stored, Dispatch, Fork, Scheduled, InsertJob, InsertTask, SetRunning, Choose, FailStep, WithoutStep;
      var c := FirstTrue(env.eval, step.branches, inst.vars);
      if c.NoBranch? {
        FailInstance(iid, step.id);
        sig := Done;
      } else {
        db := SetRunning(db, iid, step.id, Succeeded);
        var remaining := RemoveStep(inst.current, step.id);
        inst := inst.(current := remaining);
        sig := DispatchStep(depth - 1, iid, c.target);
      }
      HandledSo(env, depth, old(db), iid, old(inst), step, exec, sig, db, inst);
    }

    method HandleTransformation(depth: nat, iid: Id, step: Step, exec: Id) returns (sig: Signal)
      requires depth > 0 && exec in db.execs && step.typ == Transformation
      modifies this
      ensures Did(Route(env, depth, old(db), iid, old(inst), step, exec), sig, db, inst)
      ensures sig == Done && Begins(old(db), iid, old(inst), step, exec) ==> Handled(env, old(db), db, iid, old(inst), inst, step, exec)
      decreases depth, 0, 1
    {
      hide Begins, Handled, Launched, Stored, Dispatch, Fork, Scheduled, InsertJob, InsertTask, SetExec, PatchVars, FailStep, WithoutStep, Transformations.Run;
      var r := Transformations.Transform(step.transformations, env.eval, env.clockText(db.now),
                                         env.order(exec, 0, step.transformations.Keys), inst.vars);
      if r.Failed? {
        FailInstance(iid, step.id);
        sig := Done;
      } else {
        PatchKeepsExecs(db, iid, r.delta);
        inst := inst.(vars := r.vars);
        db := PatchVars(db, iid, r.delta);
        db := SetExec(db, exec, Succeeded);
        var remaining := RemoveStep(inst.current, step.id);
        inst := inst.(current := remaining);
        sig := DispatchStep(depth - 1, iid, step.nextStep);
      }
      HandledSo(env, depth, old(db), iid, old(inst), step, exec, sig, db, inst);
    }

    method HandleDecisionTable(depth: nat, iid: Id, step: Step, exec: Id) returns (sig: Signal)
      requires depth > 0 && exec in db.execs && step.typ == DecisionTable
      modifies this
      ensures Did(Route(env, depth, old(db), iid, old(inst), step, exec), sig, db, inst)
      ensures sig == Done && Begins(old(db), iid, old(inst), step, exec) ==> Handled(env, old(db), db, iid, old(inst), inst, step, exec)
      decreases depth, 0, 1
    {
      hide Begins, Handled, Launched, Stored, Dispatch, Fork, Scheduled, InsertJob, InsertTask, SetRunning, PatchVars, FailStep, WithoutStep, TableOutcome;
      var o := EvaluateTable(exec, step);
      if o.Failed? {
        FailInstance(iid, step.id);
        sig := Done;
      } else {
        inst := inst.(vars := inst.vars + o.row);
        db := PatchVars(db, iid, o.row);
        db := SetRunning(db, iid, step.id, Succeeded);
        var remaining := RemoveStep(inst.current, step.id);
        inst := inst.(current := remaining);
        sig := DispatchStep(depth - 1, iid, step.nextStep);
      }
      HandledSo(env, depth, old(db), iid, old(inst), step, exec, sig, db, inst);
    }

    /** The rules, their matches and the hit policy. */
    method EvaluateTable(exec: Id, step: Step) returns (o: DecisionTables.Outcome)
      ensures o == TableOutcome(env, exec, db.now, step, inst.vars)
    {
      hide Decided, TableOrders;
      if step.rules.None? {
        return DecisionTables.Failed(DecisionTables.NoRuleMatched);
      }
      var rules, policy := step.rules.value, PolicyOf(step.hitPolicy);
      var code := if policy.Some? then policy.value else DecisionTables.F;
      o := DecisionTables.Decide(rules, code, TableOrders(env, exec, rules), env.eval, env.clockText(db.now), inst.vars);
      TableDecided(env, exec, db.now, rules, code, inst.vars, o);
      if policy.None? && o.Outputs? {
        o := DecisionTables.Outputs(map[]);
      }
    }

    method HandleParallelGateway(depth: nat, iid: Id, step: Step, exec: Id) returns (sig: Signal)
      requires depth > 0 && exec in db.execs && step.typ == ParallelGateway
      modifies this
      ensures Did(Route(env, depth, old(db), iid, old(inst), step, exec), sig, db, inst)
      ensures sig == Done && Begins(old(db), iid, old(inst), step, exec) ==> Handled(env, old(db), db, iid, old(inst), inst, step, exec)
      decreases depth, 0, 1
    {
      hide Begins, Handled, Launched, Stored, SetRunning, WithoutStep, Dispatch;
      db := SetRunning(db, iid, step.id, Succeeded);
      var remaining := RemoveStep(inst.current, step.id);
      inst := inst.(current := remaining);
      ghost var db0, inst0 := db, inst;
      var branches := step.parallelNextSteps;
      assert Route(env, depth, old(db), iid, old(inst), step, exec) == Fork(env, depth, db0, iid, inst0, branches);
      var i := 0;
      while i < |branches|
        invariant 0 <= i <= |branches|
        invariant Fork(env, depth, db0, iid, inst0, branches) == Fork(env, depth, db, iid, inst, branches[i..])
      {
        ForkUnfolds(env, depth, db, iid, inst, branches[i..]);
        sig := DispatchStep(depth - 1, iid, branches[i]);
        if sig != Done {
          return;
        }
        assert branches[i..][1..] == branches[i + 1..];
        i := i + 1;
      }
      assert branches[i..] == [];
      sig := Done;
      HandledSo(env, depth, old(db), iid, old(inst), step, exec, sig, db, inst);
    }

    method HandleJoinGateway(depth: nat, iid: Id, step: Step, exec: Id) returns (sig: Signal)
      requires depth > 0 && exec in db.execs && step.typ == JoinGateway
      modifies this
      ensures Did(Route(env, depth, old(db), iid, old(inst), step, exec), sig, db, inst)
      ensures sig == Done && Begins(old(db), iid, old(inst), step, exec) ==> Handled(env, old(db), db, iid, old(inst), inst, step, exec)
      decreases depth, 0, 1
    {
      hide Begins, Handled, Launched, Stored, Dispatch, Fork, Scheduled, InsertJob, InsertTask, SetExec, GatewayFor, CompletedLeafs, WithoutStep;
      var gateway := GatewayFor(inst.def, step.id);
      if gateway.None? {
        return Raised(NoGatewayFor(step.id));
      }
      var arrived := |CompletedLeafs(db, iid, gateway.value.parallelNextSteps)|;
      db := SetExec(db, exec, Succeeded);
      if arrived < |gateway.value.parallelNextSteps| {
        sig := Done;
      } else {
        db := PassJoin(db, exec);
        var remaining := RemoveStep(inst.current, step.id);
        inst := inst.(current := remaining);
        sig := DispatchStep(depth - 1, iid, step.nextStep);
      }
      HandledSo(env, depth, old(db), iid, old(inst), step, exec, sig, db, inst);
    }

    /** routeStep. */
    method RouteStep(depth: nat, iid: Id, step: Step, exec: Id) returns (sig: Signal)
      requires depth > 0 && exec in db.execs
      modifies this
      ensures Did(Route(env, depth, old(db), iid, old(inst), step, exec), sig, db, inst)
      decreases depth, 0, 2
    {
      hide Did;
      match step.typ
      case ServiceTask => sig := HandleServiceTask(depth, iid, step, exec);
      case UserTask => sig := HandleUserTask(depth, iid, step, exec);
      case Wait => sig := HandleWait(depth, iid, step, exec);
      case Decision => sig := HandleDecision(depth, iid, step, exec);
      case Transformation => sig := HandleTransformation(depth, iid, step, exec);
      case DecisionTable => sig := HandleDecisionTable(depth, iid, step, exec);
      case ParallelGateway => sig := HandleParallelGateway(depth, iid, step, exec);
      case JoinGateway => sig := HandleJoinGateway(depth, iid, step, exec);
      case End => sig := HandleEnd(depth, iid, step, exec);
      case Unsupported(_) =>
        sig := Raised(UnsupportedStep);
        assert Did(Err(UnsupportedStep), sig, db, inst) by { RaisedDid(UnsupportedStep, db, inst); }
    }

    /** dispatchStep. */
    method DispatchStep(depth: nat, iid: Id, stepId: string) returns (sig: Signal)
      modifies this
      ensures Did(Dispatch(env, depth, old(db), iid, old(inst), stepId), sig, db, inst)
      ensures sig == Done && Stored(old(db), iid, old(inst)) ==> Launched(env, old(db), db, old(db.nextId), iid, old(inst), stepId)
      decreases depth, 1, 0
    {
      hide Route, SetCurrent, ExecsOf, Launched, Stored;
      if depth == 0 {
        return TooDeep;
      }
      var step := FindStep(inst.def, stepId);
      if step.None? {
        return Raised(StepNotFound(stepId));
      }
      var exec := db.nextId;
      db := InsertExec(db, iid, step.value, |ExecsOf(db, iid, step.value.id)| + 1);
      inst := inst.(current := WithStep(inst.current, step.value.id));
      CurrentKeepsExecs(db, iid, inst.current);
      db := SetCurrent(db, iid, inst.current);
      assert db == Enter(old(db), iid, old(inst), step.value);
      sig := RouteStep(depth, iid, step.value, exec);
      LaunchedSo(env, depth, old(db), iid, old(inst), stepId, sig, db, inst);
    }

    /** advancePastStep. */
    method AdvancePastStep(depth: nat, iid: Id, step: Step) returns (sig: Signal)
      modifies this
      ensures Did(Advance(env, depth, old(db), iid, old(inst), step), sig, db, inst)
      ensures sig == Done && iid in old(db.instances) && old(db.instances[iid]) == old(inst) ==>
                WentOn(env, old(db), db, iid, old(inst), step, map[])
    {
      hide SetStatus, SetCurrent, WithoutStep, Recomputed, Choose, Dispatch, FailStep, Launched, Stored, WentOn;
      var remaining := RemoveStep(inst.current, step.id);
      var status := RecomputeStatus(inst.def, remaining);
      inst := inst.(current := remaining, status := status);
      assert inst == Leaving(old(inst), step);
      db := SetCurrent(db, iid, inst.current);
      db := SetStatus(db, iid, inst.status);
      if step.branches != [] {
        var c := FirstTrue(env.eval, step.branches, inst.vars);
        if c.NoBranch? {
          FailInstance(iid, step.id);
          sig := Done;
        } else {
          sig := DispatchStep(depth, iid, c.target);
        }
      } else if step.nextStep != "" {
        sig := DispatchStep(depth, iid, step.nextStep);
      } else {
        sig := Done;
      }
      WentOnSo(env, depth, old(db), iid, old(inst), step, sig, db, inst);
    }

    // ---- transactions ----

    /** The end of RunInTx: commit, or restore the state at its beginning. */
    method Conclude(sig: Signal, saved: Db) returns (tx: Tx)
      modifies this`db
      ensures sig == Done ==> tx == Committed && db == old(db)
      ensures sig != Done ==> db == saved && tx == if sig == TooDeep then Hung else Errored(sig.error)
    {
      match sig
      case Done => tx := Committed;
      case Raised(e) =>
        db := saved;
        tx := Errored(e);
      case TooDeep =>
        db := saved;
        tx := Hung;
    }

    /** startInTx. */
    method StartInTx(depth: nat, row: Instance) returns (sig: Signal)
      requires row.def.steps != []
      modifies this
      ensures Did(StartIn(env, depth, old(db), row), sig, db, inst)
    {
      hide Launched, Stored;
      var iid := db.nextId;
      db := Inserted(db, row);
      inst := row;
      sig := DispatchStep(depth, iid, row.def.steps[0].id);
    }

    method StartInstance(depth: nat, def: Definition, vars: Vars, key: Option<string>) returns (tx: Tx)
      requires Valid()
      modifies this
      ensures Ended(Start(env, depth, old(db), def, vars, key), old(db), db, tx)
      ensures Valid() && Keeps(env, old(db), EvStart(def, vars, key), db)
      ensures tx == Refused <==> !MayStart(env, old(db), def, vars, key)
      ensures tx == Committed ==> Started(env, old(db), db, def, vars, key, None)
    {
      hide Inv, Evolves, Steps, Start, MayStart, Started;
      StartLaunches(env, depth, db, def, vars, key);
      EndedKeeps(env, depth, db, EvStart(def, vars, key));
      assert Next(env, depth, db, EvStart(def, vars, key)) == Start(env, depth, db, def, vars, key);
      tx := StartChecked(depth, def, vars, key);
    }

    /** The body of its transaction. */
    method StartChecked(depth: nat, def: Definition, vars: Vars, key: Option<string>) returns (tx: Tx)
      modifies this
      ensures Ended(Start(env, depth, old(db), def, vars, key), old(db), db, tx)
    {
      hide StartIn, KeyTaken;
      if !Startable(env, def, vars) || KeyTaken(db, db.nextId, def, NormalKey(key)) {
        return Refused;
      }
      var saved := db;
      var sig := StartInTx(depth, NewInstance(def, vars, key, None));
      tx := Conclude(sig, saved);
    }

    method CompleteJobAndAdvance(depth: nat, j: Id, worker: string, output: Vars) returns (tx: Tx)
      requires Valid()
      modifies this
      ensures Ended(CompleteJob(env, depth, old(db), j, worker, output), old(db), db, tx)
      ensures Valid() && Keeps(env, old(db), EvComplete(j, worker, output), db)
      ensures tx == Committed ==> Reported(env, old(db), db, j, worker, output)
      ensures tx == Refused <==> j !in old(db.jobs)
    {
      hide Inv, Evolves, Steps, CompleteJob, Reported;
      CompleteSo(env, depth, db, j, worker, output);
      EndedKeeps(env, depth, db, EvComplete(j, worker, output));
      assert Next(env, depth, db, EvComplete(j, worker, output)) == CompleteJob(env, depth, db, j, worker, output);
      tx := CompleteInTx(depth, j, worker, output);
    }

    /** The body of its transaction. */
    method CompleteInTx(depth: nat, j: Id, worker: string, output: Vars) returns (tx: Tx)
      modifies this
      ensures Ended(CompleteJob(env, depth, old(db), j, worker, output), old(db), db, tx)
    {
      hide WentOn, Advance, SetStatus, CancelJobs, FindStep, Closed, Merged, SetExec;
      var state := LockJob(db, j);
      if state.None? {
        return Refused;
      }
      var e, iid := db.jobs[j].exec, db.jobs[j].inst;
      var found := FindStep(db.instances[iid].def, db.execs[e].stepId);
      if found.None? {
        return Refused;
      }
      if !state.value.AcceptsCallback(worker) {
        return Committed;
      }
      var saved, step := db, found.value;
      if step.typ == ServiceTask && step.outputsSchema.Some? && !env.conforms(step.outputsSchema.value, output) {
        CancelKeepsExecs(db, e);
        db := CancelJobs(db, e);
        db := SetExec(db, e, Faulted);
        db := SetStatus(db, iid, Failed);
        return Committed;
      }
      CloseAttempt(j, worker);
      MergedHasRow(saved, j, worker, output);
      db := Merged(db, iid, e, output);
      inst := db.instances[iid];
      if step.nextStep == "" && step.branches == [] {
        return Committed;
      }
      var sig := AdvancePastStep(depth, iid, step);
      tx := Conclude(sig, saved);
    }

    /** MarkJobCompleted and the step execution COMPLETED. */
    method CloseAttempt(j: Id, worker: string)
      requires j in db.jobs && db.jobs[j].exec in db.execs
      modifies this`db
      ensures db == Closed(old(db), j, worker)
    {
      var e := db.jobs[j].exec;
      db := SetJob(db, j, db.jobs[j].(status := JobCompleted, worker := worker));
      db := SetExec(db, e, Succeeded);
    }

    /** job.Complete. */
    method CompleteWithoutAdvancing(j: Id, worker: string) returns (tx: Tx)
      requires Valid()
      modifies this
      ensures Ended(CompleteLegacy(old(db), j, worker), old(db), db, tx)
      ensures if MayReport(old(db), j, worker)
              then j in db.jobs && db.jobs[j].status == JobCompleted && db.jobs[j].exec in db.execs
                   && db.execs[db.jobs[j].exec].status == Succeeded && db.instances == old(db.instances) && !CanBeReported(db, j)
              else db == old(db)
      ensures Valid() && Keeps(env, old(db), EvCompleteLegacy(j, worker), db)
    {
      EndedKeeps(env, 0, db, EvCompleteLegacy(j, worker));
      assert Next(env, 0, db, EvCompleteLegacy(j, worker)) == CompleteLegacy(db, j, worker);
      hide Keeps, Inv;
      MayReportMeans(db, j, worker);
      var state := LockJob(db, j);
      if state.None? {
        return Refused;
      }
      if state.value.AcceptsCallback(worker) {
        CloseAttempt(j, worker);
      }
      tx := Committed;
    }

    /** job.Fail. */
    method Fail(j: Id, worker: string, retryable: bool) returns (tx: Tx)
      requires Valid()
      modifies this
      ensures Ended(FailJob(old(db), j, worker, retryable), old(db), db, tx)
      ensures if MayReport(old(db), j, worker) then j in old(db.jobs) && FailedOver(old(db), db, j, retryable) && !CanBeReported(db, j) else db == old(db)
      ensures Valid() && Keeps(env, old(db), EvFail(j, worker, retryable), db)
    {
      hide Inv, Evolves, Steps, FailedOver, CanBeReported, FailJob, Accepts, MayReport;
      MayReportMeans(db, j, worker);
      EndedKeeps(env, 0, db, EvFail(j, worker, retryable));
      assert Next(env, 0, db, EvFail(j, worker, retryable)) == FailJob(db, j, worker, retryable);
      FailReport(db, j, worker, retryable);
      tx := FailInTx(j, worker, retryable);
    }

    /** The body of its transaction. */
    method FailInTx(j: Id, worker: string, retryable: bool) returns (tx: Tx)
      modifies this
      ensures Ended(FailJob(old(db), j, worker, retryable), old(db), db, tx)
    {
      hide SetStatus;
      var state := LockJob(db, j);
      if state.None? {
        return Refused;
      }
      if !state.value.AcceptsCallback(worker) {
        return Committed;
      }
      var job := db.jobs[j];
      db := SetJob(db, j, job.(status := JobFailed, worker := worker));
      if retryable && job.retries > 0 {
        EnqueueReplacement(job.(retries := job.retries - 1));
        return Committed;
      }
      db := SetExec(db, job.exec, Faulted);
      db := SetStatus(db, job.inst, Failed);
      tx := Committed;
    }

    /** enqueueReplacement: a new UNLOCKED row under a fresh id, handed to the dispatcher. */
    method EnqueueReplacement(job: Job)
      modifies this`db
      ensures db == Replacement(old(db), job, job.retries)
      ensures OneJobMore(old(db), db, job)
      ensures db == old(db).(jobs := db.jobs, latest := db.latest, enqueued := db.enqueued, nextId := db.nextId)
      ensures job.exec in db.latest && db.latest[job.exec] == old(db.nextId)
    {
      db := InsertJob(db, job.inst, job.exec, job.jobType, job.retries, job.payload);
    }

    /** retryJob. */
    method ReplaceAttempt(j: Id, expiredOnly: bool) returns (tx: Tx, replaced: bool)
      requires Valid()
      modifies this
      ensures Ended(RetryJob(old(db), j, expiredOnly), old(db), db, tx)
      ensures replaced <==> db != old(db)
      ensures Valid() && Keeps(env, old(db), if expiredOnly then EvSweep(j) else EvRetryJob(j), db)
      ensures db.nextId == old(db.nextId) + if replaced then 1 else 0
      ensures replaced <==> MayReplace(old(db), j, expiredOnly)
      ensures replaced ==> Replaced(old(db), db, j)
    {
      hide Inv, Evolves, Steps, RetryJob, MayReplace, Replaced;
      ghost var ev := if expiredOnly then EvSweep(j) else EvRetryJob(j);
      EndedKeeps(env, 0, db, ev);
      assert Next(env, 0, db, ev) == RetryJob(db, j, expiredOnly);
      hide Next;
      RetryReplaces(db, j, expiredOnly);
      tx, replaced := ReplaceInTx(j, expiredOnly);
    }

    /** The body of its transaction. */
    method ReplaceInTx(j: Id, expiredOnly: bool) returns (tx: Tx, replaced: bool)
      modifies this
      ensures Ended(RetryJob(old(db), j, expiredOnly), old(db), db, tx)
      ensures replaced <==> db != old(db)
      ensures db.nextId == old(db.nextId) + if replaced then 1 else 0
    {
      replaced := false;
      var state := LockJob(db, j);
      if state.None? {
        return Refused, false;
      }
      if !state.value.Active() || state.value.jobStatus != Locked || (expiredOnly && state.value.leaseValid) {
        return Committed, false;
      }
      var job := db.jobs[j];
      db := SetJob(db, j, job.(status := JobCancelled));
      EnqueueReplacement(job);
      assert db.nextId == old(db).nextId + 1;
      tx, replaced := Committed, true;
    }

    /** CancelInstance. */
    method CancelInstance(iid: Id) returns (tx: Tx)
      requires Valid()
      modifies this`db
      ensures if Going(old(db), iid) then tx == Committed && db == old(db).(instances := old(db.instances)[iid := old(db.instances)[iid].(status := Cancelled)])
              else tx == Refused && db == old(db)
      ensures Valid() && Keeps(env, old(db), EvCancel(iid), db)
    {
      hide Inv, Evolves, Steps, Cancel;
      EndedKeeps(env, 0, db, EvCancel(iid));
      assert Next(env, 0, db, EvCancel(iid)) == Cancel(db, iid);
      CancelCancels(db, iid);
      tx := CancelRow(iid);
    }

    /** Its one statement. */
    method CancelRow(iid: Id) returns (tx: Tx)
      modifies this`db
      ensures Ended(Cancel(old(db), iid), old(db), db, tx)
    {
      if iid !in db.instances || !InFlight(db.instances[iid].status) {
        return Refused;
      }
      db := SetStatus(db, iid, Cancelled);
      tx := Committed;
    }

    /** GetExpiredLeases: the expired ids, in some order. */
    method GetExpiredLeases() returns (ids: seq<Id>)
      ensures forall j :: j in ids <==> Expired(db, j)
    {
      ids := [];
      var left := set j | j in db.jobs && Expired(db, j);
      while left != {}
        invariant forall j :: Expired(db, j) <==> j in ids || j in left
        decreases |left|
      {
        var j :| j in left;
        ids := ids + [j];
        left := left - {j};
      }
    }

    /** sweepExpiredLeases; `acquired` tells whether this replica got the advisory lock. */
    method SweepExpiredLeases(acquired: bool) returns (count: nat)
      requires Valid()
      modifies this
      ensures Valid() && Evolves(old(db), db)
      ensures if acquired then forall j :: !Overdue(db, j) else db == old(db)
      ensures db.nextId == old(db.nextId) + count
    {
      hide Inv, Evolves, Keeps, RetryJob, Overdue;
      EvolvesReflexive(db);
      count := 0;
      if !acquired {
        return;
      }
      var expired := GetExpiredLeases();
      ghost var db0 := db;
      AllOverdueListed(db, expired);
      InvFreshJobIds(db);
      SweepComplete(db, expired);
      for i := 0 to |expired|
        invariant Valid() && Evolves(db0, db) && db.nextId == db0.nextId + count
        invariant SweepAll(db0, expired) == SweepAll(db, expired[i..])
      {
        assert expired[i..][1..] == expired[i + 1..];
        ghost var before := db;
        var tx, replaced := ReplaceAttempt(expired[i], true);
        EndedIsAfter(RetryJob(before, expired[i], true), before, db, tx);
        KeepsThrough(env, db0, before, EvSweep(expired[i]), db);
        if replaced {
          count := count + 1;
        }
      }
      assert expired[|expired|..] == [];
    }

    /** ExtendLease; the stored expiry is returned to the worker. */
    method ExtendLease(j: Id, worker: string, seconds: int) returns (expiry: Option<int>)
      requires Valid()
      modifies this`db
      ensures var r := Heartbeat(old(db), j, worker, seconds);
              && (r.Commit? ==> db == r.db && j in db.jobs && expiry == db.jobs[j].expires && expiry.Some?)
              && (!r.Commit? ==> db == old(db) && expiry == None)
      ensures expiry.Some? <==> MayExtend(old(db), j, worker, seconds)
      ensures expiry.Some? ==> Extended(old(db), db, j, seconds, expiry.value)
      ensures Valid() && Keeps(env, old(db), EvHeartbeat(j, worker, seconds), db)
    {
      hide Inv, Evolves, Steps, Heartbeat;
      HeartbeatExtends(db, j, worker, seconds);
      ghost var r, before := Heartbeat(db, j, worker, seconds), db;
      EndedKeeps(env, 0, db, EvHeartbeat(j, worker, seconds));
      assert Next(env, 0, db, EvHeartbeat(j, worker, seconds)) == r;
      expiry := ExtendInTx(j, worker, seconds);
      assert Ended(r, before, db, if r.Commit? then Committed else Refused);
    }

    /** The body of its transaction. */
    method ExtendInTx(j: Id, worker: string, seconds: int) returns (expiry: Option<int>)
      modifies this`db
      ensures var r := Heartbeat(old(db), j, worker, seconds);
              && (r.Commit? ==> db == r.db && j in db.jobs && expiry == db.jobs[j].expires && expiry.Some?)
              && (!r.Commit? ==> r == Rollback && db == old(db) && expiry == None)
    {
      var t := LeaseSeconds(seconds);
      if worker == "" || t.None? {
        return None;
      }
      var state := LockJob(db, j);
      if state.None? || !state.value.Active() || state.value.jobStatus != Locked || state.value.worker != worker || !state.value.leaseValid {
        return None;
      }
      var until, ext := db.jobs[j].expires.value, LeaseEnd(db, t.value);
      expiry := Some(if until < ext then ext else until);
      db := SetJob(db, j, db.jobs[j].(expires := expiry));
    }

    method FireBoundaryEvent(depth: nat, t: Id, iid: Id) returns (tx: Tx)
      requires Valid()
      modifies this
      ensures Ended(FireTimer(env, depth, old(db), t, iid), old(db), db, tx)
      ensures Valid() && Keeps(env, old(db), EvFire(t, iid), db)
      ensures tx == Committed ==> Fired(env, old(db), db, t, iid)
      ensures tx == Refused ==> iid !in old(db.instances)
    {
      hide Inv, Evolves, Steps, FireTimer, Fired;
      FireSo(env, depth, db, t, iid);
      EndedKeeps(env, depth, db, EvFire(t, iid));
      assert Next(env, depth, db, EvFire(t, iid)) == FireTimer(env, depth, db, t, iid);
      tx := FireInTx(depth, t, iid);
    }

    /** The body of its transaction. */
    method FireInTx(depth: nat, t: Id, iid: Id) returns (tx: Tx)
      modifies this
      ensures Ended(FireTimer(env, depth, old(db), t, iid), old(db), db, tx)
    {
      hide Launched, Stored, Dispatch, WithoutStep, CancelJobs, CancelTasks;
      if iid !in db.instances {
        return Refused;
      }
      inst := db.instances[iid];
      if t !in db.timers || db.timers[t].inst != iid || db.timers[t].fired || db.timers[t].fireAt > db.now {
        return Committed;
      }
      var saved, event := db, db.timers[t];
      if event.exec !in db.execs {
        return Refused;
      }
      db := db.(timers := db.timers[t := event.(fired := true)]);
      if !InFlight(inst.status) || db.execs[event.exec].status != Running {
        return Committed;
      }
      if event.interrupting {
        var remaining := RemoveStep(inst.current, db.execs[event.exec].stepId);
        db := SetExec(db, event.exec, Faulted);
        db := CancelJobs(db, event.exec);
        db := CancelTasks(db, event.exec);
        inst := inst.(current := remaining);
      }
      var sig := DispatchStep(depth, iid, event.target);
      tx := Conclude(sig, saved);
    }

    method CompleteUserTaskAndAdvance(depth: nat, iid: Id, stepId: string, vars: Vars) returns (tx: Tx)
      requires Valid()
      modifies this
      ensures Ended(CompleteUserTask(env, depth, old(db), iid, stepId, vars), old(db), db, tx)
      ensures Valid() && Keeps(env, old(db), EvUserTask(iid, stepId, vars), db)
      ensures tx == Refused <==> !MayFinishTask(old(db), iid, stepId)
      ensures tx == Committed ==> StepFinished(env, old(db), db, iid, stepId, vars) && TasksFinished(old(db), db, iid, stepId)
    {
      hide Inv, Evolves, Steps, CompleteUserTask, MayFinishTask, StepFinished, TasksFinished;
      UserTaskSo(env, depth, db, iid, stepId, vars);
      EndedKeeps(env, depth, db, EvUserTask(iid, stepId, vars));
      assert Next(env, depth, db, EvUserTask(iid, stepId, vars)) == CompleteUserTask(env, depth, db, iid, stepId, vars);
      tx := UserTaskInTx(depth, iid, stepId, vars);
    }

    /** The body of its transaction. */
    method UserTaskInTx(depth: nat, iid: Id, stepId: string, vars: Vars) returns (tx: Tx)
      modifies this
      ensures Ended(CompleteUserTask(env, depth, old(db), iid, stepId, vars), old(db), db, tx)
    {
      hide WentOn, Advance, FindStep, OpenTasks, CompleteTasks, SetRunning, PatchVars;
      if iid !in db.instances {
        return Refused;
      }
      inst := db.instances[iid];
      var found := FindStep(inst.def, stepId);
      if found.None? || found.value.typ != UserTask || !InFlight(inst.status) || OpenTasks(db, iid, stepId) == {} {
        return Refused;
      }
      var saved := db;
      db := CompleteTasks(db, iid, stepId);
      db := SetRunning(db, iid, stepId, Succeeded);
      inst := inst.(vars := inst.vars + vars);
      db := PatchVars(db, iid, vars);
      var sig := AdvancePastStep(depth, iid, found.value);
      tx := Conclude(sig, saved);
    }

    method SignalWaitAndAdvance(depth: nat, iid: Id, stepId: string, vars: Vars) returns (tx: Tx)
      requires Valid()
      modifies this
      ensures Ended(SignalWait(env, depth, old(db), iid, stepId, vars), old(db), db, tx)
      ensures Valid() && Keeps(env, old(db), EvSignal(iid, stepId, vars), db)
      ensures tx == Refused <==> !MaySignal(old(db), iid, stepId)
      ensures tx == Committed ==> StepFinished(env, old(db), db, iid, stepId, vars)
    {
      hide Inv, Evolves, Steps, SignalWait, MaySignal, StepFinished;
      SignalSo(env, depth, db, iid, stepId, vars);
      EndedKeeps(env, depth, db, EvSignal(iid, stepId, vars));
      assert Next(env, depth, db, EvSignal(iid, stepId, vars)) == SignalWait(env, depth, db, iid, stepId, vars);
      tx := SignalInTx(depth, iid, stepId, vars);
    }

    /** The body of its transaction. */
    method SignalInTx(depth: nat, iid: Id, stepId: string, vars: Vars) returns (tx: Tx)
      modifies this
      ensures Ended(SignalWait(env, depth, old(db), iid, stepId, vars), old(db), db, tx)
    {
      hide WentOn, Advance, FindStep, RunningOf, SetRunning, PatchVars;
      if iid !in db.instances {
        return Refused;
      }
      inst := db.instances[iid];
      var found := FindStep(inst.def, stepId);
      if found.None? || found.value.typ != Wait || !InFlight(inst.status) || stepId !in inst.current || RunningOf(db, iid, stepId) == {} {
        return Refused;
      }
      var saved := db;
      db := SetRunning(db, iid, stepId, Succeeded);
      inst := inst.(vars := inst.vars + vars);
      db := PatchVars(db, iid, vars);
      var sig := AdvancePastStep(depth, iid, found.value);
      tx := Conclude(sig, saved);
    }

    method RetryFailedStep(depth: nat, iid: Id, stepId: string, patch: Vars) returns (tx: Tx)
      requires Valid()
      modifies this
      ensures Ended(RetryStep(env, depth, old(db), iid, stepId, patch), old(db), db, tx)
      ensures Valid() && Keeps(env, old(db), EvRetryStep(iid, stepId, patch), db)
      ensures tx == Refused <==> !MayRetry(old(db), iid, stepId)
      ensures tx == Committed ==> Retried(env, old(db), db, iid, stepId, patch)
    {
      hide Inv, Evolves, Steps, RetryStep, MayRetry, Retried;
      RetryLaunches(env, depth, db, iid, stepId, patch);
      EndedKeeps(env, depth, db, EvRetryStep(iid, stepId, patch));
      assert Next(env, depth, db, EvRetryStep(iid, stepId, patch)) == RetryStep(env, depth, db, iid, stepId, patch);
      tx := RetryInTx(depth, iid, stepId, patch);
    }

    /** The body of its transaction. */
    method RetryInTx(depth: nat, iid: Id, stepId: string, patch: Vars) returns (tx: Tx)
      modifies this
      ensures Ended(RetryStep(env, depth, old(db), iid, stepId, patch), old(db), db, tx)
    {
      hide Launched, Stored, Dispatch, FindStep, SetStatus, PatchVars, KeyHeld;
      if iid !in db.instances {
        return Refused;
      }
      inst := db.instances[iid];
      if FindStep(inst.def, stepId).None? || inst.status != Failed {
        return Refused;
      }
      var execs := ExecsOf(db, iid, stepId);
      if !exists e :: e in execs && db.execs[e].status == Faulted && forall x :: x in execs ==> db.execs[x].attempt <= db.execs[e].attempt {
        assert !exists e :: IsLatestExec(db, iid, stepId, e) && db.execs[e].status == Faulted;
        return Refused;
      }
      assert exists e :: IsLatestExec(db, iid, stepId, e) && db.execs[e].status == Faulted;
      if KeyTaken(db, iid, inst.def, inst.businessKey) {
        return Refused;
      }
      var saved := db;
      db := SetStatus(db, iid, Active);
      db := PatchVars(db, iid, patch);
      inst := inst.(status := Active, vars := inst.vars + patch);
      var sig := DispatchStep(depth, iid, stepId);
      tx := Conclude(sig, saved);
    }

    method StartChainedWorkflow(depth: nat, source: Id, def: Definition) returns (tx: Tx)
      requires Valid()
      modifies this
      ensures Ended(DeliverChain(env, depth, old(db), source, def), old(db), db, tx)
      ensures Valid() && Keeps(env, old(db), EvChain(source, def), db)
      ensures if !Pending(old(db), source) then tx == Committed && db == old(db)
              else
                && (tx == Refused <==> !MayDeliver(env, old(db), source, def))
                && (tx == Committed ==> Delivered(env, old(db), db, source, def))
    {
      hide Inv, Evolves, Steps, DeliverChain, MayDeliver, Started, Delivered;
      ChainLaunches(env, depth, db, source, def);
      EndedKeeps(env, depth, db, EvChain(source, def));
      assert Next(env, depth, db, EvChain(source, def)) == DeliverChain(env, depth, db, source, def);
      tx := ChainInTx(depth, source, def);
      if tx == Committed && Pending(old(db), source) {
        DeliveredSo(env, old(db), db, source, def);
      }
    }

    /** The body of its transaction. */
    method ChainInTx(depth: nat, source: Id, def: Definition) returns (tx: Tx)
      modifies this
      ensures Ended(DeliverChain(env, depth, old(db), source, def), old(db), db, tx)
    {
      hide StartIn, KeyTaken, Startable;
      if source !in db.chains || db.chains[source].child.Some? {
        return Committed;
      }
      var request := db.chains[source];
      if def.id != request.target || !Startable(env, def, request.vars)
         || KeyTaken(db, db.nextId, def, NormalKey(request.businessKey)) {
        return Refused;
      }
      StartableSteps(env, def, request.vars);
      var saved, child := db, db.nextId;
      var sig := StartInTx(depth, NewInstance(def, request.vars, request.businessKey, Some(source)));
      if sig == Done {
        db := Acknowledged(db, source, child);
      }
      tx := Conclude(sig, saved);
    }

    /**
     ProcessPendingChains over a snapshot of requests; `lookup` is the repository at delivery
     time. The first failure is returned; without one every request has its child.
     */
    method ProcessPendingChains(depth: nat, pending: seq<Id>, lookup: string -> Option<Definition>) returns (first: Option<Tx>)
      requires Valid() && forall s :: s in pending ==> s in db.chains
      modifies this
      ensures Valid() && Evolves(old(db), db) && db == ChainAll(env, depth, old(db), pending, lookup)
      ensures first == FirstFailure(env, depth, old(db), pending, lookup)
      ensures first.None? ==> forall s :: s in pending ==> Answered(db, s)
    {
      hide Inv, Evolves, Keeps, DeliverChain, Answered;
      EvolvesReflexive(db);
      first := None;
      ghost var db0 := db;
      for i := 0 to |pending|
        invariant Valid() && Evolves(db0, db)
        invariant ChainAll(env, depth, db0, pending, lookup) == ChainAll(env, depth, db, pending[i..], lookup)
        invariant FirstFailure(env, depth, db0, pending, lookup) ==
                  if first.Some? then first else FirstFailure(env, depth, db, pending[i..], lookup)
        invariant first.None? ==> forall k :: 0 <= k < i ==> Answered(db, pending[k])
      {
        assert pending[i..][1..] == pending[i + 1..];
        var source := pending[i];
        ghost var before := db;
        RequestStays(db0, db, source);
        var def := lookup(db.chains[source].target);
        var tx := Refused;
        if def.Some? {
          tx := StartChainedWorkflow(depth, source, def.value);
          EndedIsAfter(DeliverChain(env, depth, before, source, def.value), before, db, tx);
          KeepsThrough(env, db0, before, EvChain(source, def.value), db);
          if tx == Committed {
            DeliveredIsAnswered(env, depth, before, source, def.value, db);
          }
          forall k | 0 <= k < i && Answered(before, pending[k]) ensures Answered(db, pending[k]) {
            KeepsEvolves(env, before, EvChain(source, def.value), db);
            AnsweredStays(before, db, pending[k]);
          }
        }
        if tx != Committed && first.None? {
          first := Some(tx);
        }
      }
      assert pending[|pending|..] == [];
    }
  }

  lemma CurrentKeepsExecs(db: Db, iid: Id, ids: seq<string>)
    ensures SetCurrent(db, iid, ids).execs == db.execs
  {
  }

  lemma RaisedDid(e: Error, db: Db, inst: Instance)
    ensures Did(Err(e), Raised(e), db, inst)
  {
  }

  lemma ForkUnfolds(env: Env, depth: nat, db: Db, iid: Id, mem: Instance, branches: seq<string>)
    requires depth > 0 && branches != []
    ensures Fork(env, depth, db, iid, mem, branches) ==
            match Dispatch(env, depth - 1, db, iid, mem, branches[0])
            case Ok(db1, mem1) => Fork(env, depth, db1, iid, mem1, branches[1..])
            case Err(e) => Err(e)
            case Diverged => Diverged
  {
    hide Dispatch;
  }
}
