/**
 The lease loop of the worker SDK (workflow-sdk-go/runner/heartbeat.go): one owner loop per
 delivery attempt renews the lease and stops the attempt once the lease can no longer be
 trusted. Times are in milliseconds.
 */
module LeaseLoop {
  import opened Values

  const ATTEMPT_TIMEOUT: int := 5000

  /** What came back from ExtendJobLease. */
  datatype Reply = Accepted(until: int) | LeaseLost | Rejected | Retryable

  /** `interval` zero means a third of the lease. */
  datatype Config = Config(leaseMillis: nat, interval: nat)

  /**
   The loop's variables. `leaseAt` is the lease timer, `next` the renewal timer while it is
   armed, `call` the deadline of the renewal in flight, `ready` what was sent on the channel
   the handler waits for.
   */
  datatype Loop = Loop(
    expiry: int,
    leaseAt: int,
    next: Option<int>,
    call: Option<int>,
    attempt: nat,
    ready: Option<bool>,
    ended: bool)

  function MinTime(a: int, b: int): int {
    if a < b then a else b
  }

  /** The loop as it starts with the expiry the poll returned. */
  function Opened(expiry: int, now: int): Loop {
    Loop(expiry, if expiry < now then now else expiry, Some(now), None, 0, None, false)
  }

  /** The attempt's context is cancelled: timers and the call are stopped. */
  function Stopped(l: Loop): Loop {
    l.(ended := true, next := None, call := None)
  }

  /** The lease can no longer be trusted; a handler that is still waiting never starts. */
  function Fails(l: Loop): Loop {
    Stopped(l).(ready := if l.ready.None? then Some(false) else l.ready)
  }

  /** The renewal timer fires. */
  function Renews(l: Loop, now: int): Loop {
    if now >= l.expiry then Fails(l)
    else l.(next := None, call := Some(MinTime(l.expiry, now + ATTEMPT_TIMEOUT)))
  }

  function Interval(cfg: Config): nat {
    if cfg.interval == 0 then cfg.leaseMillis / 3 else cfg.interval
  }

  /** The renewal returns; `delay` is the back-off drawn for a retry. */
  function Responds(l: Loop, now: int, reply: Reply, cfg: Config, delay: nat): Loop {
    if now >= l.expiry then Fails(l)
    else match reply
      case Accepted(until) =>
        if until <= now || until < l.expiry then Fails(l)
        else l.(expiry := until, leaseAt := until, attempt := 0, ready := if l.ready.None? then Some(true) else l.ready,
                call := None, next := Some(now + MinTime(Interval(cfg), (until - now) / 3)))
      case LeaseLost => Fails(l)
      case Rejected => Fails(l)
      case Retryable => l.(attempt := l.attempt + 1, call := None, next := Some(now + MinTime(delay, l.expiry - now)))
  }

  /** While the loop runs, exactly one of its renewal timer and its renewal call is pending. */
  ghost predicate SingleFlight(l: Loop) {
    !l.ended ==>
      && (l.next.Some? <==> l.call.None?)
      && l.expiry <= l.leaseAt
      && (l.call.Some? ==> l.call.value <= l.expiry)
  }

  lemma OpenedSingle(expiry: int, now: int)
    ensures SingleFlight(Opened(expiry, now))
  {
  }

  /** A renewal starts only when none is in flight, and its deadline lies within the lease. */
  lemma RenewsSingle(l: Loop, now: int)
    requires SingleFlight(l) && !l.ended && l.next.Some?
    ensures l.call.None? && SingleFlight(Renews(l, now)) && Renews(l, now).expiry == l.expiry
    ensures !Renews(l, now).ended <==> now < l.expiry
  {
  }

  /**
   A response never moves the known expiry back, and goes on only under an unexpired lease; a
   renewed lease is renewed again before it ends, and a retry is due no later than its end.
   */
  lemma RespondsSingle(l: Loop, now: int, reply: Reply, cfg: Config, delay: nat)
    requires SingleFlight(l) && !l.ended && l.call.Some?
    ensures var l' := Responds(l, now, reply, cfg, delay);
            && SingleFlight(l') && l.expiry <= l'.expiry
            && (!l'.ended ==> now < l.expiry && l'.next.Some? && now <= l'.next.value <= l'.expiry)
            && (!l'.ended && reply.Accepted? ==> l'.expiry == reply.until && l'.next.value < l'.expiry)
            && (!l'.ended && !reply.Accepted? ==> l'.expiry == l.expiry)
            && (l'.expiry != l.expiry ==> reply == Accepted(l'.expiry) && now < l.expiry)
            && (l'.ready == Some(true) && l.ready != Some(true) ==> reply.Accepted? && !l'.ended)
  {
  }

  // ---- what each case of the loop does, by its variables ----

  ghost predicate Least(m: int, a: int, b: int) {
    (m == a || m == b) && m <= a && m <= b
  }

  /** The renewal timer is armed for the nearer of two delays. */
  ghost predicate Armed(next: Option<int>, now: int, a: int, b: int) {
    next.Some? && Least(next.value - now, a, b)
  }

  /** Answers, or arrival times, after which the lease cannot be trusted. */
  predicate Refuses(expiry: int, now: int, reply: Reply) {
    || expiry <= now || reply == LeaseLost || reply == Rejected
    || (reply.Accepted? && (reply.until <= now || reply.until < expiry))
  }

  /** The attempt is over: nothing is pending, and a handler that had not been let in never is. */
  ghost predicate GivesUp(l: Loop, l': Loop) {
    && l'.ended && l'.next == None && l'.call == None && l'.expiry == l.expiry && l'.leaseAt == l.leaseAt && l'.attempt == l.attempt
    && l'.ready == if l.ready == None then Some(false) else l.ready
  }

  /** What one answer does to a running loop. */
  ghost predicate Responded(l: Loop, l': Loop, now: int, reply: Reply, cfg: Config, delay: nat) {
    if Refuses(l.expiry, now, reply) then GivesUp(l, l')
    else
      && !l'.ended && l'.call == None
      && match reply
         case Accepted(until) =>
           && l'.expiry == until && l'.leaseAt == until && l'.attempt == 0
           && l'.ready == (if l.ready == None then Some(true) else l.ready)
           && Armed(l'.next, now, if cfg.interval != 0 then cfg.interval else cfg.leaseMillis / 3, (until - now) / 3)
         case _ =>
           && l'.expiry == l.expiry && l'.leaseAt == l.leaseAt && l'.ready == l.ready && l'.attempt == l.attempt + 1
           && Armed(l'.next, now, delay, l.expiry - now)
  }

  lemma RespondsAs(l: Loop, now: int, reply: Reply, cfg: Config, delay: nat)
    requires !l.ended
    ensures Responded(l, Responds(l, now, reply, cfg, delay), now, reply, cfg, delay)
  {
  }

  /** maintainLease's select loop: each case changes the loop's variables in place. */
  class Maintainer {
    const cfg: Config
    var expiry: int
    var leaseAt: int
    var next: Option<int>
    var call: Option<int>
    var attempt: nat
    var ready: Option<bool>
    var ended: bool

    function State(): Loop
      reads this
    {
      Loop(expiry, leaseAt, next, call, attempt, ready, ended)
    }

    constructor (cfg: Config, lockExpiresAt: int, now: int)
      ensures State() == Opened(lockExpiresAt, now) && this.cfg == cfg
      ensures expiry == lockExpiresAt && now <= leaseAt && expiry <= leaseAt && (leaseAt == now || leaseAt == expiry)
      ensures next == Some(now) && call == None && ready == None && attempt == 0 && !ended
    {
      this.cfg := cfg;
      expiry := lockExpiresAt;
      leaseAt := if lockExpiresAt < now then now else lockExpiresAt;
      next := Some(now);
      call := None;
      attempt := 0;
      ready := None;
      ended := false;
    }

    method Fail()
      modifies this
      ensures State() == Fails(old(State())) && GivesUp(old(State()), State())
    {
      if ready.None? {
        ready := Some(false);
      }
      next := None;
      call := None;
      ended := true;
    }

    method OnNext(now: int)
      requires SingleFlight(State()) && !ended && next.Some?
      modifies this
      ensures State() == Renews(old(State()), now) && SingleFlight(State()) && expiry == old(expiry)
      ensures if old(expiry) <= now then GivesUp(old(State()), State())
              else !ended && next == None && call.Some? && Least(call.value, expiry, now + 5000) && ready == old(ready) && leaseAt == old(leaseAt)
    {
      RenewsSingle(State(), now);
      if now >= expiry {
        Fail();
      } else {
        next := None;
        call := Some(MinTime(expiry, now + ATTEMPT_TIMEOUT));
      }
    }

    method OnResult(now: int, reply: Reply, delay: nat)
      requires SingleFlight(State()) && !ended && call.Some?
      modifies this
      ensures State() == Responds(old(State()), now, reply, cfg, delay) && SingleFlight(State()) && old(expiry) <= expiry
      ensures Responded(old(State()), State(), now, reply, cfg, delay)
    {
      RespondsAs(State(), now, reply, cfg, delay);
      RespondsSingle(State(), now, reply, cfg, delay);
      if now >= expiry {
        Fail();
        return;
      }
      match reply
      case Accepted(until) =>
        if until <= now || until < expiry {
          Fail();
        } else {
          call := None;
          expiry := until;
          leaseAt := until;
          attempt := 0;
          if ready.None? {
            ready := Some(true);
          }
          next := Some(now + MinTime(Interval(cfg), (expiry - now) / 3));
        }
      case LeaseLost =>
        Fail();
      case Rejected =>
        Fail();
      case Retryable =>
        call := None;
        attempt := attempt + 1;
        next := Some(now + MinTime(delay, expiry - now));
    }
  }
}
