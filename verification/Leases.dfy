/**
 Workers and engine together. Any number of polling workers run lease loops against the
 engine's transactions, with one shared clock; messages may be lost, delayed or answered after
 the caller has given up. Two handlers never run at once under locally unexpired leases for
 the same step execution.

 Assumed of the workers: a worker reports on a job it polled only after its handler has
 returned. Left out: the operator's unconditional job retry, which replaces a leased job.
 */
module Leases {
  import opened Values
  import opened Definitions
  import opened Database
  import opened Interpreter
  import opened Transactions
  import opened Invariants
  import opened Evolution
  import opened LeaseLoop
  import DeliveryAttempts
  import EngineTheorems
  import EventProofs

  /** A polled job on its way to the worker that claimed it. */
  datatype Offer = Offer(worker: string, expiry: int)

  datatype Handler = NotStarted | Working | Returned

  /** The renewal request of the loop: on its way, or answered. */
  datatype Wire = NoCall | Sent | Answered(reply: Reply)

  /** One call of `dispatch` for one polled job. */
  datatype Attempt = Attempt(worker: string, seconds: int, cfg: Config, heartbeat: bool, loop: Loop, wire: Wire, handler: Handler)

  datatype System = System(db: Db, offers: map<Id, Offer>, attempts: map<Id, Attempt>)

  const START := System(EMPTY, map[], map[])

  datatype Action =
    | Engine(ev: Event)
    | PollFor(worker: string, claimed: set<Id>, seconds: int)
    | Receive(job: Id, seconds: int, cfg: Config, heartbeat: bool)
    | NextTimer(job: Id)
    | Serve(job: Id)
    | Drop(job: Id, reply: Reply)
    | Result(job: Id, delay: nat)
    | LeaseTimer(job: Id)
    | StartHandler(job: Id)
    | Return(job: Id)
    | Stop(job: Id)

  /** complete and fail callbacks of job `j`. */
  predicate Reports(ev: Event, j: Id) {
    || (ev.EvComplete? && ev.job == j)
    || (ev.EvCompleteLegacy? && ev.job == j)
    || (ev.EvFail? && ev.job == j)
  }

  /** A job that was polled is reported on only once its handler has returned. */
  ghost predicate Disciplined(s: System, ev: Event) {
    && !ev.EvRetryJob?
    && (forall j :: Reports(ev, j) ==> j !in s.offers && (j in s.attempts ==> s.attempts[j].handler == Returned))
  }

  /** The jobs a poll claims, with the expiry the engine stored and returns. */
  function Claimed(db: Db, db': Db, worker: string, claimed: set<Id>): map<Id, Offer> {
    map j | j in claimed && j in db.jobs && db.jobs[j].status == Unlocked && j in db'.jobs && db'.jobs[j].expires.Some? ::
      Offer(worker, db'.jobs[j].expires.value)
  }

  function Put(s: System, j: Id, a: Attempt): System {
    s.(attempts := s.attempts[j := a])
  }

  predicate On(s: System, j: Id) {
    j in s.attempts && !s.attempts[j].loop.ended
  }

  ghost predicate Moves(env: Env, s: System, act: Action, s': System) {
    match act
    case Engine(ev) => Disciplined(s, ev) && Steps(env, s.db, ev, s'.db) && s' == s.(db := s'.db)
    case PollFor(worker, claimed, seconds) =>
      && Poll(s.db, worker, claimed, seconds) == Commit(s'.db)
      && s' == System(s'.db, s.offers + Claimed(s.db, s'.db, worker, claimed), s.attempts)
    case Receive(j, seconds, cfg, heartbeat) =>
      && j in s.offers && j !in s.attempts
      && s' == System(s.db, s.offers - {j},
                      s.attempts[j := Attempt(s.offers[j].worker, seconds, cfg, heartbeat, Opened(s.offers[j].expiry, s.db.now), NoCall, NotStarted)])
    case NextTimer(j) =>
      && On(s, j) && var a := s.attempts[j];
         && a.heartbeat && a.loop.next.Some? && a.loop.next.value <= s.db.now
         && var l := Renews(a.loop, s.db.now);
            s' == Put(s, j, a.(loop := l, wire := if l.call.Some? then Sent else NoCall))
    case Serve(j) =>
      && j in s.attempts && var a := s.attempts[j];
         && a.wire == Sent
         && (match Heartbeat(s.db, j, a.worker, a.seconds)
             case Commit(db') => j in db'.jobs && db'.jobs[j].expires.Some?
                                 && s' == Put(s, j, a.(wire := Answered(Accepted(db'.jobs[j].expires.value)))).(db := db')
             case _ => s' == Put(s, j, a.(wire := Answered(LeaseLost))))
    case Drop(j, reply) =>
      && j in s.attempts && s.attempts[j].wire == Sent && !reply.Accepted?
      && s' == Put(s, j, s.attempts[j].(wire := Answered(reply)))
    case Result(j, delay) =>
      && On(s, j) && var a := s.attempts[j];
         && a.wire.Answered? && a.loop.call.Some?
         && s' == Put(s, j, a.(loop := Responds(a.loop, s.db.now, a.wire.reply, a.cfg, delay), wire := NoCall))
    case LeaseTimer(j) =>
      On(s, j) && s.attempts[j].loop.leaseAt <= s.db.now && s' == Put(s, j, s.attempts[j].(loop := Fails(s.attempts[j].loop)))
    case StartHandler(j) =>
      && On(s, j) && s.attempts[j].handler == NotStarted && (s.attempts[j].heartbeat ==> s.attempts[j].loop.ready == Some(true))
      && s' == Put(s, j, s.attempts[j].(handler := Working))
    case Return(j) =>
      && j in s.attempts && s.attempts[j].handler == Working
      && s' == Put(s, j, s.attempts[j].(handler := Returned))
    case Stop(j) => On(s, j) && s' == Put(s, j, s.attempts[j].(loop := Stopped(s.attempts[j].loop)))
  }

  /** A run of the system from the empty database and no workers. */
  ghost predicate IsSystemRun(env: Env, states: seq<System>, actions: seq<Action>) {
    && |states| == |actions| + 1
    && states[0] == START
    && forall i :: 0 <= i < |actions| ==> Moves(env, states[i], actions[i], states[i + 1])
  }

  // ---- the invariant ----

  /**
   A worker knows `expiry` for job `j`. The engine's lease is at least as long; and while it is
   unexpired and the worker has not reported (`open`), `j` is the newest attempt of its execution.
   */
  ghost predicate Held(now: int, jobs: Jobs, latest: map<Id, Id>, j: Id, worker: string, expiry: int, open: bool) {
    && j in jobs && jobs[j].status != Unlocked
    && (jobs[j].status == Locked ==> jobs[j].worker == worker && jobs[j].expires.Some? && expiry <= jobs[j].expires.value)
    && (open && now < expiry ==> jobs[j].exec in latest && latest[jobs[j].exec] == j)
  }

  ghost predicate AttemptOk(db: Db, j: Id, a: Attempt) {
    && Held(db.now, db.jobs, db.latest, j, a.worker, a.loop.expiry, a.handler != Returned)
    && (a.wire.Answered? && a.wire.reply.Accepted? ==> Held(db.now, db.jobs, db.latest, j, a.worker, a.wire.reply.until, false))
    && SingleFlight(a.loop)
    && (!a.loop.ended ==> (a.wire != NoCall <==> a.loop.call.Some?))
    && (a.handler == Working && a.heartbeat ==> a.loop.ready == Some(true))
  }

  ghost predicate OfferOk(db: Db, j: Id, o: Offer) {
    Held(db.now, db.jobs, db.latest, j, o.worker, o.expiry, true)
  }

  ghost predicate LeaseInv(s: System) {
    && Inv(s.db)
    && (forall j :: j in s.attempts ==> AttemptOk(s.db, j, s.attempts[j]))
    && (forall j :: j in s.offers ==> OfferOk(s.db, j, s.offers[j]))
  }

  /** Engine transactions that are not about job `j` leave what its worker knows intact. */
  lemma HeldKept(db: Db, db': Db, ev: Event, j: Id, worker: string, expiry: int, open: bool)
    requires DeliveryAttempts.LeaseRows(db.jobs, db'.jobs) && DeliveryAttempts.LatestKept(db, ev, db'.latest) && db.now <= db'.now
    requires Held(db.now, db.jobs, db.latest, j, worker, expiry, open) && !ev.EvRetryJob? && (open ==> !Reports(ev, j))
    ensures Held(db'.now, db'.jobs, db'.latest, j, worker, expiry, open)
  {
    assert DeliveryAttempts.LeaseRow(db.jobs[j], db'.jobs[j]);
    if open && db'.now < expiry {
      assert !DeliveryAttempts.MayReplace(db, ev, j);
    }
  }

  ghost predicate EngineStep(db: Db, db': Db, ev: Event) {
    DeliveryAttempts.LeaseRows(db.jobs, db'.jobs) && DeliveryAttempts.LatestKept(db, ev, db'.latest) && db.now <= db'.now
  }

  lemma EngineStepKept(env: Env, depth: nat, db: Db, ev: Event)
    requires Inv(db) && Next(env, depth, db, ev).Commit?
    ensures Inv(Next(env, depth, db, ev).db) && EngineStep(db, Next(env, depth, db, ev).db, ev)
  {
    hide Inv, Next, InstancesEvolve, ExecsEvolve, JobsEvolve, ChainsEvolve, DeliveryAttempts.LeaseRows, DeliveryAttempts.LatestKept;
    EventProofs.NextKept(env, depth, db, ev);
    DeliveryAttempts.NextLeases(env, depth, db, ev);
  }

  lemma AttemptKept(db: Db, db': Db, ev: Event, j: Id, a: Attempt)
    requires EngineStep(db, db', ev) && AttemptOk(db, j, a) && !ev.EvRetryJob? && (a.handler != Returned ==> !Reports(ev, j))
    ensures AttemptOk(db', j, a)
  {
    hide Held, DeliveryAttempts.LeaseRows, DeliveryAttempts.LatestKept;
    HeldKept(db, db', ev, j, a.worker, a.loop.expiry, a.handler != Returned);
    if a.wire.Answered? && a.wire.reply.Accepted? {
      HeldKept(db, db', ev, j, a.worker, a.wire.reply.until, false);
    }
  }

  /** The part of the invariant about what the workers know, across one engine transaction. */
  lemma WorkersKept(s: System, db': Db, ev: Event)
    requires LeaseInv(s) && EngineStep(s.db, db', ev) && Disciplined(s, ev)
    ensures forall j :: j in s.attempts ==> AttemptOk(db', j, s.attempts[j])
    ensures forall j :: j in s.offers ==> OfferOk(db', j, s.offers[j])
  {
    hide Held, EngineStep, Inv, AttemptOk;
    forall j | j in s.attempts ensures AttemptOk(db', j, s.attempts[j]) {
      AttemptKept(s.db, db', ev, j, s.attempts[j]);
    }
    forall j | j in s.offers ensures OfferOk(db', j, s.offers[j]) {
      assert EngineStep(s.db, db', ev);
      OfferKept(s.db, db', ev, j, s.offers[j]);
    }
  }

  lemma OfferKept(db: Db, db': Db, ev: Event, j: Id, o: Offer)
    requires EngineStep(db, db', ev) && OfferOk(db, j, o) && !ev.EvRetryJob? && !Reports(ev, j)
    ensures OfferOk(db', j, o)
  {
    hide Held, DeliveryAttempts.LeaseRows, DeliveryAttempts.LatestKept;
    HeldKept(db, db', ev, j, o.worker, o.expiry, true);
  }

  lemma EngineKept(env: Env, s: System, ev: Event, s': System)
    requires LeaseInv(s) && Moves(env, s, Engine(ev), s')
    ensures LeaseInv(s')
  {
    hide Inv, Next, AttemptOk, OfferOk, EngineStep, Disciplined;
    if s'.db != s.db {
      var depth :| Next(env, depth, s.db, ev) == Commit(s'.db);
      EngineStepKept(env, depth, s.db, ev);
      WorkersKept(s, s'.db, ev);
    }
  }

  /** A claimed job becomes LOCKED for its worker and is the newest attempt of its execution. */
  lemma ClaimedOk(db: Db, db': Db, worker: string, claimed: set<Id>, seconds: int, j: Id)
    requires Inv(db) && Inv(db') && Poll(db, worker, claimed, seconds) == Commit(db') && j in Claimed(db, db', worker, claimed)
    ensures OfferOk(db', j, Claimed(db, db', worker, claimed)[j])
  {
    hide Typed, Budget, Chained, MergedOnce, Currents, Requested, KeysDistinct, JobRefs, TaskRefs, TimerRefs, ChainRefs, ExecRefs;
    assert db'.jobs[j].status == Locked && db'.jobs[j].worker == worker;
  }

  lemma PollKept(env: Env, s: System, worker: string, claimed: set<Id>, seconds: int, s': System)
    requires LeaseInv(s) && Moves(env, s, PollFor(worker, claimed, seconds), s')
    ensures LeaseInv(s')
  {
    hide Inv, AttemptOk, OfferOk, EngineStep, Claimed, Poll;
    var ev := EvPoll(worker, claimed, seconds);
    assert Next(env, 0, s.db, ev) == Poll(s.db, worker, claimed, seconds);
    EngineStepKept(env, 0, s.db, ev);
    WorkersKept(s, s'.db, ev);
    forall j | j in s'.offers ensures OfferOk(s'.db, j, s'.offers[j]) {
      if j in Claimed(s.db, s'.db, worker, claimed) {
        ClaimedOk(s.db, s'.db, worker, claimed, seconds, j);
      }
    }
  }

  lemma RefusedMeansNothing(db: Db, j: Id, worker: string, seconds: int)
    ensures var r := Heartbeat(db, j, worker, seconds);
            r.Commit? ==> j in r.db.jobs && r.db.jobs[j].status == Locked && r.db.jobs[j].worker == worker && r.db.jobs[j].expires.Some?
  {
  }

  lemma ServeKept(env: Env, s: System, j: Id, s': System)
    requires LeaseInv(s) && Moves(env, s, Serve(j), s')
    ensures LeaseInv(s')
  {
    hide Inv, OfferOk, EngineStep, Heartbeat;
    var a := s.attempts[j];
    var ev := EvHeartbeat(j, a.worker, a.seconds);
    assert AttemptOk(s.db, j, a);
    assert Next(env, 0, s.db, ev) == Heartbeat(s.db, j, a.worker, a.seconds);
    RefusedMeansNothing(s.db, j, a.worker, a.seconds);
    hide Next;
    if Heartbeat(s.db, j, a.worker, a.seconds).Commit? {
      EngineStepKept(env, 0, s.db, ev);
      WorkersKept(s, s'.db, ev);
    }
  }

  /** Every change of one attempt alone. */
  lemma PutKept(s: System, j: Id, a: Attempt)
    requires LeaseInv(s) && AttemptOk(s.db, j, a)
    ensures LeaseInv(Put(s, j, a))
  {
    hide Inv, AttemptOk, OfferOk;
  }

  lemma ReceiveKept(env: Env, s: System, j: Id, seconds: int, cfg: Config, heartbeat: bool, s': System)
    requires LeaseInv(s) && Moves(env, s, Receive(j, seconds, cfg, heartbeat), s')
    ensures LeaseInv(s')
  {
    hide Inv;
    assert OfferOk(s.db, j, s.offers[j]);
    OpenedSingle(s.offers[j].expiry, s.db.now);
  }

  lemma ResultOk(db: Db, j: Id, a: Attempt, delay: nat)
    requires AttemptOk(db, j, a) && !a.loop.ended && a.wire.Answered? && a.loop.call.Some?
    ensures AttemptOk(db, j, a.(loop := Responds(a.loop, db.now, a.wire.reply, a.cfg, delay), wire := NoCall))
  {
    RespondsSingle(a.loop, db.now, a.wire.reply, a.cfg, delay);
  }

  /** The renewal timer and the answers. */
  lemma RenewalKept(env: Env, s: System, act: Action, s': System)
    requires LeaseInv(s) && Moves(env, s, act, s') && (act.NextTimer? || act.Drop? || act.Result?)
    ensures LeaseInv(s')
  {
    hide Inv, OfferOk, Held, Responds;
    var j := act.job;
    var a := s.attempts[j];
    assert AttemptOk(s.db, j, a);
    match act
    case NextTimer(_) =>
      RenewsSingle(a.loop, s.db.now);
      PutKept(s, j, s'.attempts[j]);
    case Drop(_, reply) => PutKept(s, j, s'.attempts[j]);
    case Result(_, delay) =>
      ResultOk(s.db, j, a, delay);
      PutKept(s, j, s'.attempts[j]);
  }

  lemma LoopKept(env: Env, s: System, act: Action, s': System)
    requires LeaseInv(s) && Moves(env, s, act, s')
    requires act.LeaseTimer? || act.StartHandler? || act.Return? || act.Stop?
    ensures LeaseInv(s')
  {
    hide Inv, OfferOk, Held;
    var j := act.job;
    var a := s.attempts[j];
    assert AttemptOk(s.db, j, a);
    if act.Return? {
      CloseHeld(s.db, j, a);
    }
    PutKept(s, j, s'.attempts[j]);
  }

  lemma CloseHeld(db: Db, j: Id, a: Attempt)
    requires AttemptOk(db, j, a)
    ensures Held(db.now, db.jobs, db.latest, j, a.worker, a.loop.expiry, false)
  {
  }

  lemma MovesKept(env: Env, s: System, act: Action, s': System)
    requires LeaseInv(s) && Moves(env, s, act, s')
    ensures LeaseInv(s')
  {
    hide LeaseInv, Moves;
    match act
    case Engine(ev) => EngineKept(env, s, ev, s');
    case PollFor(worker, claimed, seconds) => PollKept(env, s, worker, claimed, seconds, s');
    case Receive(j, seconds, cfg, heartbeat) => ReceiveKept(env, s, j, seconds, cfg, heartbeat, s');
    case Serve(j) => ServeKept(env, s, j, s');
    case NextTimer(_) => RenewalKept(env, s, act, s');
    case Drop(_, _) => RenewalKept(env, s, act, s');
    case Result(_, _) => RenewalKept(env, s, act, s');
    case _ => LoopKept(env, s, act, s');
  }

  lemma {:induction false} RunLeaseInv(env: Env, states: seq<System>, actions: seq<Action>, i: nat)
    requires IsSystemRun(env, states, actions) && i < |states|
    ensures LeaseInv(states[i])
  {
    hide Inv, Moves;
    if i == 0 {
      EngineTheorems.EmptyInv();
    } else {
      RunLeaseInv(env, states, actions, i - 1);
      hide LeaseInv;
      MovesKept(env, states[i - 1], actions[i - 1], states[i]);
    }
  }

  // ---- results ----

  /** The handler of attempt `j` runs under a lease that has not expired on its own clock reading. */
  predicate Leased(s: System, j: Id) {
    j in s.attempts && s.attempts[j].handler == Working && s.db.now < s.attempts[j].loop.expiry
  }

  /**
   In every run of workers and engine, two handlers never run at once under locally unexpired
   leases for the same step execution.
   */
  lemma NoOverlap(env: Env, states: seq<System>, actions: seq<Action>, i: nat, j: Id, k: Id)
    requires IsSystemRun(env, states, actions) && i < |states| && Leased(states[i], j) && Leased(states[i], k)
    ensures j in states[i].db.jobs && k in states[i].db.jobs
    ensures states[i].db.jobs[j].exec == states[i].db.jobs[k].exec ==> j == k
  {
    hide Inv, IsSystemRun, OfferOk;
    RunLeaseInv(env, states, actions, i);
    var s := states[i];
    assert AttemptOk(s.db, j, s.attempts[j]) && AttemptOk(s.db, k, s.attempts[k]);
  }

  /**
   What a worker knows: its expiry is never later than the engine's while the job is LOCKED,
   at most one renewal is in flight, and a heartbeat handler works only after an accepted one.
   */
  lemma KnownExpiry(env: Env, states: seq<System>, actions: seq<Action>, i: nat, j: Id)
    requires IsSystemRun(env, states, actions) && i < |states| && j in states[i].attempts
    ensures var s, a := states[i], states[i].attempts[j];
            && j in s.db.jobs
            && (s.db.jobs[j].status == Locked ==>
                  s.db.jobs[j].worker == a.worker && s.db.jobs[j].expires.Some? && a.loop.expiry <= s.db.jobs[j].expires.value)
            && SingleFlight(a.loop)
            && (a.handler == Working && a.heartbeat ==> a.loop.ready == Some(true))
  {
    hide Inv, IsSystemRun, OfferOk;
    RunLeaseInv(env, states, actions, i);
    assert AttemptOk(states[i].db, j, states[i].attempts[j]);
  }

  /** The known expiry of an attempt never decreases. */
  lemma {:induction false} ExpiryGrows(env: Env, states: seq<System>, actions: seq<Action>, i: nat, k: nat, j: Id)
    requires IsSystemRun(env, states, actions) && i <= k < |states| && j in states[i].attempts
    ensures j in states[k].attempts && states[i].attempts[j].loop.expiry <= states[k].attempts[j].loop.expiry
    decreases k - i
  {
    hide Inv, LeaseInv, Steps, Disciplined, Heartbeat, Poll, Claimed;
    if i < k {
      ExpiryGrows(env, states, actions, i, k - 1, j);
      assert Moves(env, states[k - 1], actions[k - 1], states[k]);
      RunLeaseInv(env, states, actions, k - 1);
      LoopOf(states[k - 1], j);
      var a := states[k - 1].attempts[j];
      if actions[k - 1].Result? && actions[k - 1].job == j {
        RespondsSingle(a.loop, states[k - 1].db.now, a.wire.reply, a.cfg, actions[k - 1].delay);
      }
    }
  }

  /** An attempt whose loop has ended stays as it is, and its handler is not let in any more. */
  lemma OverStays(env: Env, s: System, act: Action, s': System, j: Id)
    requires Moves(env, s, act, s') && j in s.attempts && s.attempts[j].loop.ended
    ensures j in s'.attempts && s'.attempts[j].loop == s.attempts[j].loop
    ensures s.attempts[j].handler == NotStarted ==> s'.attempts[j].handler == NotStarted
  {
    hide Steps, Disciplined, Heartbeat, Poll, Claimed;
  }

  /**
   Once an answer is processed that refuses the lease, or that comes after it ended or gives no
   longer one, the loop of the attempt has ended for good and its handler never starts.
   */
  lemma {:induction false} RefusalEnds(env: Env, states: seq<System>, actions: seq<Action>, i: nat, k: nat, j: Id, delay: nat)
    requires IsSystemRun(env, states, actions) && i < k < |states| && actions[i] == Result(j, delay)
    requires j in states[i].attempts && states[i].attempts[j].wire.Answered?
    requires Refuses(states[i].attempts[j].loop.expiry, states[i].db.now, states[i].attempts[j].wire.reply)
    ensures j in states[k].attempts && states[k].attempts[j].loop.ended
    ensures states[i].attempts[j].loop.ready == None ==> states[k].attempts[j].loop.ready == Some(false)
    ensures states[i].attempts[j].handler == NotStarted ==> states[k].attempts[j].handler == NotStarted
    decreases k - i
  {
    hide Moves, Responds;
    assert Moves(env, states[k - 1], actions[k - 1], states[k]);
    if k == i + 1 {
      ResultMoves(env, states[i], j, delay, states[k]);
      var a := states[i].attempts[j];
      RespondsAs(a.loop, states[i].db.now, a.wire.reply, a.cfg, delay);
    } else {
      RefusalEnds(env, states, actions, i, k - 1, j, delay);
      OverStays(env, states[k - 1], actions[k - 1], states[k], j);
    }
  }

  lemma ResultMoves(env: Env, s: System, j: Id, delay: nat, s': System)
    requires Moves(env, s, Result(j, delay), s')
    ensures j in s.attempts && !s.attempts[j].loop.ended && s.attempts[j].wire.Answered? && j in s'.attempts
    ensures var a := s.attempts[j];
            s'.attempts[j] == a.(loop := Responds(a.loop, s.db.now, a.wire.reply, a.cfg, delay), wire := NoCall)
  {
  }

  lemma LoopOf(s: System, j: Id)
    requires LeaseInv(s) && j in s.attempts
    ensures SingleFlight(s.attempts[j].loop)
  {
    hide Inv, OfferOk, Held;
    assert AttemptOk(s.db, j, s.attempts[j]);
  }
}
