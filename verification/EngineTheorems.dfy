/**
 What holds in every state of every run of the engine: any number of instances, workers and
 replicas, any interleaving of their transactions, aborted transactions and restarts included.
 */
module EngineTheorems {
  import opened Values
  import opened Definitions
  import opened Database
  import opened Interpreter
  import opened Transactions
  import opened Invariants
  import opened Evolution
  import EventProofs

  lemma EmptyInv()
    ensures Inv(EMPTY)
  {
    assert EMPTY.enqueued == multiset(EMPTY.jobs.Keys);
  }

  lemma StepKept(env: Env, db: Db, ev: Event, db': Db)
    requires Inv(db) && Steps(env, db, ev, db')
    ensures Inv(db') && Evolves(db, db')
  {
    hide Inv, Evolves, Next;
    if db' == db {
      EvolvesReflexive(db);
    } else {
      var depth :| Next(env, depth, db, ev) == Commit(db');
      EventProofs.NextKept(env, depth, db, ev);
    }
  }

  /** The invariant holds in every state of every run. */
  lemma {:induction false} RunInv(env: Env, states: seq<Db>, events: seq<Event>, i: nat)
    requires IsRun(env, states, events) && i < |states|
    ensures Inv(states[i])
  {
    hide Inv, Steps;
    if i == 0 {
      EmptyInv();
    } else {
      RunInv(env, states, events, i - 1);
      StepKept(env, states[i - 1], events[i - 1], states[i]);
    }
  }

  /** Nothing settled earlier in a run is undone later. */
  lemma {:induction false} RunEvolves(env: Env, states: seq<Db>, events: seq<Event>, i: nat, k: nat)
    requires IsRun(env, states, events) && i <= k < |states|
    ensures Evolves(states[i], states[k])
    decreases k - i
  {
    hide Inv, Steps, Evolves;
    if i == k {
      EvolvesReflexive(states[i]);
    } else {
      RunEvolves(env, states, events, i, k - 1);
      RunInv(env, states, events, k - 1);
      StepKept(env, states[k - 1], events[k - 1], states[k]);
      EvolvesTransitive(states[i], states[k - 1], states[k]);
    }
  }

  // ---- delivery attempts ----

  predicate LiveFor(db: Db, j: Id, e: Id) {
    j in db.jobs && db.jobs[j].exec == e && Live(db.jobs[j].status)
  }

  /**
   In every state of every run an execution has at most one UNLOCKED or LOCKED job, a RUNNING
   SERVICE_TASK execution has exactly one, and the dispatcher has seen every job row exactly
   once and nothing else.
   */
  lemma OneLiveAttempt(env: Env, states: seq<Db>, events: seq<Event>, i: nat)
    requires IsRun(env, states, events) && i < |states|
    ensures var db := states[i];
            && (forall j, k, e :: LiveFor(db, j, e) && LiveFor(db, k, e) ==> j == k)
            && (forall e :: e in db.execs && db.execs[e].typ == ServiceTask && db.execs[e].status == Running ==>
                  exists j :: LiveFor(db, j, e))
            && (forall j :: db.enqueued[j] == if j in db.jobs then 1 else 0)
  {
    hide Refs, Typed, MergedOnce, Currents, Requested, KeysDistinct, Budget, Chained, IsRun;
    RunInv(env, states, events, i);
    var db := states[i];
    forall e | e in db.execs && db.execs[e].typ == ServiceTask && db.execs[e].status == Running
      ensures exists j :: LiveFor(db, j, e)
    {
      assert LiveFor(db, db.latest[e], e);
    }
  }

  // ---- callbacks of spent attempts ----

  predicate IsCallback(ev: Event, j: Id) {
    || (ev.EvComplete? && ev.job == j)
    || (ev.EvCompleteLegacy? && ev.job == j)
    || (ev.EvFail? && ev.job == j)
    || (ev.EvHeartbeat? && ev.job == j)
  }

  lemma SpentRejects(db: Db, j: Id, worker: string)
    requires j in db.jobs && Spent(db.now, db.jobs[j])
    ensures !Accepts(db, j, worker)
  {
  }

  lemma SpentCallbackIgnored(env: Env, depth: nat, db: Db, ev: Event, j: Id)
    requires j in db.jobs && Spent(db.now, db.jobs[j]) && IsCallback(ev, j)
    ensures var r := Next(env, depth, db, ev); r == Rollback || r == Commit(db)
  {
    hide Advance, Closed, Merged, FindStep;
    SpentRejects(db, j, if ev.EvComplete? || ev.EvCompleteLegacy? || ev.EvFail? || ev.EvHeartbeat? then ev.worker else "");
  }

  /**
   Once a job is retired, or its lease has lapsed, no complete, fail or heartbeat for it changes
   anything in any continuation of the run, whoever sends it.
   */
  lemma SpentForever(env: Env, states: seq<Db>, events: seq<Event>, i: nat, k: nat, j: Id, ev: Event, depth: nat)
    requires IsRun(env, states, events) && i <= k < |states|
    requires j in states[i].jobs && Spent(states[i].now, states[i].jobs[j]) && IsCallback(ev, j)
    ensures var r := Next(env, depth, states[k], ev); r == Rollback || r == Commit(states[k])
  {
    hide Next, IsRun, InstancesEvolve, ExecsEvolve, ChainsEvolve;
    RunEvolves(env, states, events, i, k);
    SpentCallbackIgnored(env, depth, states[k], ev, j);
  }

  /** A worker's output for one step execution is merged into the instance at most once in a run. */
  lemma OutputMergedOnce(env: Env, states: seq<Db>, events: seq<Event>, i: nat, e: Id)
    requires IsRun(env, states, events) && i < |states|
    ensures states[i].merged[e] <= 1
    ensures e in states[i].merged ==> e in states[i].execs && states[i].execs[e].status == Succeeded
  {
    hide Refs, Typed, Attempts, Currents, Requested, KeysDistinct, Budget, Chained, IsRun;
    RunInv(env, states, events, i);
  }

  // ---- statuses ----

  /** An execution leaves RUNNING at most once, and never changes its step or instance. */
  lemma LeavesRunningOnce(env: Env, states: seq<Db>, events: seq<Event>, i: nat, k: nat, e: Id)
    requires IsRun(env, states, events) && i <= k < |states| && e in states[i].execs && states[i].execs[e].status != Running
    ensures e in states[k].execs && states[k].execs[e] == states[i].execs[e]
  {
    hide IsRun, InstancesEvolve, JobsEvolve, ChainsEvolve;
    RunEvolves(env, states, events, i, k);
  }

  /** A committed COMPLETED or CANCELLED instance keeps that status for ever. */
  lemma SettledForever(env: Env, states: seq<Db>, events: seq<Event>, i: nat, k: nat, iid: Id)
    requires IsRun(env, states, events) && i <= k < |states| && iid in states[i].instances && Settled(states[i].instances[iid].status)
    ensures iid in states[k].instances && states[k].instances[iid].status == states[i].instances[iid].status
  {
    hide IsRun, ExecsEvolve, JobsEvolve, ChainsEvolve;
    RunEvolves(env, states, events, i, k);
  }

  /** Whatever is RUNNING between transactions waits for a worker, a person, a signal or a timer. */
  lemma OnlyParkedRunning(env: Env, states: seq<Db>, events: seq<Event>, i: nat, e: Id)
    requires IsRun(env, states, events) && i < |states| && e in states[i].execs && states[i].execs[e].status == Running
    ensures Parked(states[i].execs[e].typ)
    ensures StepOf(states[i].instances, states[i].execs[e]).Some?
    ensures StepOf(states[i].instances, states[i].execs[e]).value.typ == states[i].execs[e].typ
  {
    hide Refs, Attempts, MergedOnce, Currents, Requested, KeysDistinct, Budget, Chained, IsRun;
    RunInv(env, states, events, i);
  }

  /** current_step_ids never holds a duplicate or an undeclared step. */
  lemma CurrentStepsDeclared(env: Env, states: seq<Db>, events: seq<Event>, i: nat, iid: Id)
    requires IsRun(env, states, events) && i < |states| && iid in states[i].instances
    ensures NoDup(states[i].instances[iid].current)
    ensures forall id :: id in states[i].instances[iid].current ==> Declared(states[i].instances[iid].def, id)
  {
    hide Refs, Typed, Attempts, MergedOnce, Requested, KeysDistinct, Budget, Chained, IsRun;
    RunInv(env, states, events, i);
  }

  /** Two in-flight instances of one definition never share a business key. */
  lemma BusinessKeysDistinct(env: Env, states: seq<Db>, events: seq<Event>, i: nat, a: Id, b: Id)
    requires IsRun(env, states, events) && i < |states| && a in states[i].instances && b in states[i].instances && a != b
    requires InFlight(states[i].instances[a].status) && InFlight(states[i].instances[b].status)
    requires states[i].instances[a].def.id == states[i].instances[b].def.id
    ensures states[i].instances[a].businessKey == None || states[i].instances[a].businessKey != states[i].instances[b].businessKey
  {
    hide Refs, Typed, Attempts, MergedOnce, Requested, Currents, Budget, Chained, IsRun;
    RunInv(env, states, events, i);
    var db := states[i];
    assert !KeyHeld(db.instances, a, db.instances[a].def, db.instances[a].businessKey);
  }

  // ---- retry budget ----

  /**
   While an execution has a live job, that job's remaining retries and the FAILED jobs of the
   execution add up to the step's retryCount; the FAILED ones never exceed retryCount + 1.
   */
  lemma RetryBudget(env: Env, states: seq<Db>, events: seq<Event>, i: nat, e: Id, j: Id)
    requires IsRun(env, states, events) && i < |states| && j in states[i].jobs && states[i].jobs[j].exec == e
    ensures var db := states[i];
            && e in db.execs && StepOf(db.instances, db.execs[e]).Some?
            && var budget := StepOf(db.instances, db.execs[e]).value.retryCount;
               && (Live(db.jobs[j].status) ==> db.jobs[j].retries + |FailedOf(db.jobs, e)| == budget)
               && |FailedOf(db.jobs, e)| <= NonNegative(budget) + 1
  {
    hide Refs, MergedOnce, Requested, Currents, Chained, KeysDistinct, IsRun, FailedOf;
    RunInv(env, states, events, i);
    var db := states[i];
    assert e in db.latest;
    assert BudgetFor(db.jobs, db.latest[e], e, BudgetOf(db.instances, db.execs[e]));
  }

  // ---- chaining ----

  predicate StartedFor(db: Db, c: Id, source: Id) {
    c in db.instances && db.instances[c].origin == Some(source)
  }

  /**
   A chain request names a child exactly when an instance was started for it, the child it names
   is that instance and the only one, and a COMPLETED instance of an auto-start definition has its request.
   */
  lemma ChainedExactlyOnce(env: Env, states: seq<Db>, events: seq<Event>, i: nat, source: Id)
    requires IsRun(env, states, events) && i < |states|
    ensures var db := states[i];
            && (forall a, b :: StartedFor(db, a, source) && StartedFor(db, b, source) ==> a == b)
            && (forall c: Id :: StartedFor(db, c, source) ==> source in db.chains && db.chains[source].child == Some(c))
            && (source in db.chains ==> (db.chains[source].child.Some? <==> exists c :: StartedFor(db, c, source)))
            && (source in db.instances && db.instances[source].status == Completed && ChainsOn(db.instances[source].def) ==>
                  source in db.chains)
  {
    hide Refs, Typed, Attempts, MergedOnce, Currents, Budget, KeysDistinct, IsRun;
    RunInv(env, states, events, i);
    var db := states[i];
    if source in db.chains && db.chains[source].child.Some? {
      assert StartedFor(db, db.chains[source].child.value, source);
    }
  }

  /** Once acknowledged, a request keeps its child: no redelivery starts another. */
  lemma ChildKept(env: Env, states: seq<Db>, events: seq<Event>, i: nat, k: nat, source: Id)
    requires IsRun(env, states, events) && i <= k < |states| && source in states[i].chains && states[i].chains[source].child.Some?
    ensures source in states[k].chains && states[k].chains[source] == states[i].chains[source]
  {
    hide IsRun, InstancesEvolve, ExecsEvolve, JobsEvolve;
    RunEvolves(env, states, events, i, k);
  }
}
