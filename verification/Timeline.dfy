/**
 Whole runs again: when timers may be consumed, and how the executions of a step are numbered.
 */
module Timeline {
  import opened Values
  import opened Definitions
  import opened Database
  import opened Interpreter
  import opened Transactions
  import opened Invariants
  import opened Evolution
  import opened Plans
  import opened Effects
  import EngineTheorems
  import EventProofs
  import Joins
  import Resolution

  // ---- timers ----

  /** The timer belongs to `event` of the step its execution was entered for, and was set at `now`. */
  ghost predicate SetFor(env: Env, db: Db, row: Timer, now: int, event: BoundaryEvent) {
    && row.inst in db.instances && row.exec in db.execs && db.execs[row.exec].inst == row.inst
    && FindStep(db.instances[row.inst].def, db.execs[row.exec].stepId).Some?
    && event in FindStep(db.instances[row.inst].def, db.execs[row.exec].stepId).value.boundaryEvents && event.kind == "TIMER"
    && row.target == event.target && row.interrupting == event.interrupting
    && env.duration(event.duration).Some? && row.fireAt == now + env.duration(event.duration).value
  }

  /** New timers are set now, for an event; old ones keep their time and are consumed when it has come. */
  ghost predicate TimersEvolve(env: Env, a: Db, b: Db) {
    forall t :: t in b.timers ==>
      if t in a.timers then
        && b.timers[t] == a.timers[t].(fired := b.timers[t].fired)
        && (b.timers[t].fired && !a.timers[t].fired ==> a.timers[t].fireAt <= a.now)
      else a.nextId <= t && !b.timers[t].fired && exists event :: SetFor(env, b, b.timers[t], a.now, event)
  }

  lemma TicketSet(env: Env, db: Db, iid: Id, row: Timer, now: int)
    requires iid in db.instances && Ticket(env, db.instances[iid].def, iid, now, db.execs, row)
    ensures !row.fired && exists event :: SetFor(env, db, row, now, event)
  {
    hide FindStep;
    var def := db.instances[iid].def;
    var event :| event in FindStep(def, db.execs[row.exec].stepId).value.boundaryEvents
                 && event.kind == "TIMER" && Alarm(env, now, iid, row.exec, event, row);
    assert SetFor(env, db, row, now, event);
  }

  /** One dispatch after a first stage that sets no timer. */
  lemma LaunchTimers(env: Env, a: Db, db: Db, iid: Id, mem: Instance, d: Db)
    requires Below(a.timers, a.nextId) && a.nextId <= db.nextId && db.now == a.now && Resolution.TimersFrom(a.now, a.timers, db.timers)
    requires iid in db.instances && mem.def == db.instances[iid].def && Adds(env, mem.def, iid, db, d)
    ensures TimersEvolve(env, a, d)
  {
    hide Ticket, SetFor, ExecsStay, Kept;
    forall t | t in d.timers && t !in a.timers
      ensures a.nextId <= t && !d.timers[t].fired && exists event :: SetFor(env, d, d.timers[t], a.now, event)
    {
      TicketSet(env, d, iid, d.timers[t], d.now);
    }
  }

  lemma StageTimers(env: Env, a: Db, b: Db)
    requires Resolution.TimersFrom(a.now, a.timers, b.timers)
    ensures TimersEvolve(env, a, b)
  {
    hide SetFor;
  }

  lemma AckTimers(env: Env, a: Db, d: Db, source: Id, child: Id)
    requires TimersEvolve(env, a, d)
    ensures TimersEvolve(env, a, Acknowledged(d, source, child))
  {
    hide FindStep;
    var b := Acknowledged(d, source, child);
    forall t | t in b.timers && t !in a.timers ensures exists event :: SetFor(env, b, b.timers[t], a.now, event) {
      var event :| SetFor(env, d, d.timers[t], a.now, event);
      assert SetFor(env, b, b.timers[t], a.now, event);
    }
  }

  lemma InvTimers(db: Db)
    requires Inv(db)
    ensures Below(db.timers, db.nextId)
  {
    hide Typed, Attempts, Budget, Chained, MergedOnce, Currents, Requested, KeysDistinct, JobRefs, TaskRefs, TimerRefs, ChainRefs, ExecRefs;
  }

  lemma NextTimers(env: Env, depth: nat, db: Db, ev: Event)
    requires Inv(db) && Next(env, depth, db, ev).Commit?
    ensures TimersEvolve(env, db, Next(env, depth, db, ev).db)
  {
    hide Inv, Next, BodyOf, Dispatch, TimersEvolve, Acknowledged, Adds, Tracks, Resolution.TimersFrom, Resolution.DefsFrom, Resolution.Resolved,
         Resolution.BringsResolvable, Resolution.Resolvable, FindStep, EventProofs.ClosedExecs, Below;
    NextPerforms(env, depth, db, ev);
    Resolution.BodyTidy(env, db, ev);
    Joins.BodyStaged(env, db, ev);
    InvTimers(db);
    match BodyOf(env, db, ev)
    case Settle(r) => StageTimers(env, db, r.db);
    case Launch(db1, iid, mem, stepId, ack) =>
      var o := Dispatch(env, depth, db1, iid, mem, stepId);
      SelfTracks(db1, iid, mem.current);
      DispatchEffects(env, depth, db1, iid, mem, stepId, db1.nextId, mem.current);
      LaunchTimers(env, db, db1, iid, mem, o.db);
      AckTimers(env, db, o.db, if ack.Some? then ack.value else 0, iid);
  }

  lemma SelfTracks(db: Db, iid: Id, ids: seq<string>)
    ensures Tracks(db, db.nextId, iid, ids, ids)
  {
  }

  /** A timer that was set stays set for its event. */
  lemma SetForStays(env: Env, a: Db, b: Db, row: Timer, row': Timer, now: int, event: BoundaryEvent)
    requires Evolves(a, b) && SetFor(env, a, row, now, event) && row' == row.(fired := row'.fired)
    ensures SetFor(env, b, row', now, event)
  {
    hide JobsEvolve, ChainsEvolve, FindStep;
  }

  /**
   In every run: each timer was set, for a TIMER event of its step, at the time its execution was
   entered, to come due one duration later; and a timer that is consumed has come due.
   */
  lemma {:induction false} NoEarlyTimer(env: Env, states: seq<Db>, events: seq<Event>, k: nat, t: Id) returns (i: nat, event: BoundaryEvent)
    requires IsRun(env, states, events) && k < |states| && t in states[k].timers
    ensures i < k && t !in states[i].timers && t in states[i + 1].timers
    ensures SetFor(env, states[k], states[k].timers[t], states[i].now, event)
    ensures states[k].timers[t].fired ==> states[i].now + env.duration(event.duration).value <= states[k].now
  {
    hide Inv, Next, SetFor, TimersEvolve;
    var a, b := states[k - 1], states[k];
    if a == b {
      i, event := NoEarlyTimer(env, states, events, k - 1, t);
      SetForMeans(env, b, b.timers[t], states[i].now, event);
    } else {
      EngineTheorems.RunInv(env, states, events, k - 1);
      var depth :| Next(env, depth, a, events[k - 1]) == Commit(b);
      NextTimers(env, depth, a, events[k - 1]);
      hide IsRun;
      EventProofs.NextKept(env, depth, a, events[k - 1]);
      assert Evolves(a, b);
      if t in a.timers {
        i, event := NoEarlyTimer(env, states, events, k - 1, t);
        OldTimer(env, a, b, t);
        SetForStays(env, a, b, a.timers[t], b.timers[t], states[i].now, event);
      } else {
        i := k - 1;
        event := NewTimer(env, a, b, t);
      }
      SetForMeans(env, b, b.timers[t], states[i].now, event);
    }
  }

  lemma SetForMeans(env: Env, db: Db, row: Timer, now: int, event: BoundaryEvent)
    requires SetFor(env, db, row, now, event)
    ensures env.duration(event.duration).Some? && row.fireAt == now + env.duration(event.duration).value
  {
  }

  lemma OldTimer(env: Env, a: Db, b: Db, t: Id)
    requires TimersEvolve(env, a, b) && t in b.timers && t in a.timers
    ensures b.timers[t] == a.timers[t].(fired := b.timers[t].fired)
    ensures b.timers[t].fired && !a.timers[t].fired ==> a.timers[t].fireAt <= a.now
  {
    hide SetFor;
  }

  lemma NewTimer(env: Env, a: Db, b: Db, t: Id) returns (event: BoundaryEvent)
    requires TimersEvolve(env, a, b) && t in b.timers && t !in a.timers
    ensures !b.timers[t].fired && SetFor(env, b, b.timers[t], a.now, event)
  {
    hide SetFor;
    event :| SetFor(env, b, b.timers[t], a.now, event);
  }

  // ---- numbering ----

  /** The executions of the same step of the same instance up to this one. */
  function UpTo(execs: Execs, e: Id): set<Id>
    requires e in execs
  {
    set f | f in execs && f <= e && execs[f].inst == execs[e].inst && execs[f].stepId == execs[e].stepId
  }

  ghost predicate Numbered(execs: Execs) {
    forall e :: e in execs ==> execs[e].attempt == |UpTo(execs, e)|
  }

  lemma SameUpTo(a: Execs, b: Execs, e: Id)
    requires EventProofs.ClosedExecs(a, b) && e in a
    ensures UpTo(b, e) == UpTo(a, e)
  {
  }

  lemma ClosedNumbered(a: Execs, b: Execs)
    requires EventProofs.ClosedExecs(a, b) && Numbered(a)
    ensures Numbered(b)
  {
    hide UpTo;
    forall e | e in b ensures b[e].attempt == |UpTo(b, e)| {
      SameUpTo(a, b, e);
    }
  }

  /** The next execution of a step gets the next number. */
  lemma EnteredNumbered(db: Db, iid: Id, step: Step)
    requires Numbered(db.execs) && Below(db.execs, db.nextId)
    ensures Numbered(db.execs[db.nextId := Joins.NewRow(db, iid, step, Running)])
  {
    var n, b := db.nextId, db.execs[db.nextId := Joins.NewRow(db, iid, step, Running)];
    forall e | e in b ensures b[e].attempt == |UpTo(b, e)| {
      if e == n {
        assert UpTo(b, n) == ExecsOf(db, iid, step.id) + {n};
      } else {
        assert UpTo(b, e) == UpTo(db.execs, e);
      }
    }
  }

  ghost predicate Counted(db: Db) {
    Numbered(db.execs) && Below(db.execs, db.nextId)
  }

  lemma CountedFresh(db: Db)
    requires Counted(db)
    ensures db.nextId !in db.execs
  {
  }

  lemma EffectCounted(db: Db, d: Db, def: Definition, iid: Id, step: Step)
    requires Joins.Effect(db, d, def, iid, step) && Counted(db)
    ensures Counted(d)
  {
    hide Numbered, UpTo, Joins.TasksBy, Joins.TimersBy, Joins.PassedBy;
    EnteredNumbered(db, iid, step);
    ClosedNumbered(db.execs[db.nextId := Joins.NewRow(db, iid, step, Running)], d.execs);
  }

  lemma {:induction false} DispatchCounted(env: Env, n: nat, db: Db, iid: Id, mem: Instance, stepId: string)
    requires Counted(db)
    ensures var o := Dispatch(env, n, db, iid, mem, stepId); o.Ok? ==> Counted(o.db)
    decreases n, 1
  {
    hide Route, PlanOf, Enter, Fork, Joins.Effect, Counted;
    if n > 0 && FindStep(mem.def, stepId).Some? {
      var step := FindStep(mem.def, stepId).value;
      EnterHasExec(db, iid, mem, step);
      CountedFresh(db);
      var db1, mem1 := Enter(db, iid, mem, step), Entered(mem, step);
      RouteFollowsPlan(env, n, db1, iid, mem1, step, db.nextId);
      Joins.PlanHasEffect(env, db, iid, mem, step);
      match PlanOf(env, db1, iid, mem1, step, db.nextId)
      case Stop(o) =>
        if o.Ok? {
          EffectCounted(db, o.db, mem.def, iid, step);
        }
      case Go(db2, mem2, next) =>
        EffectCounted(db, db2, mem.def, iid, step);
        DispatchCounted(env, n - 1, db2, iid, mem2, next);
      case Split(db2, mem2, branches) =>
        EffectCounted(db, db2, mem.def, iid, step);
        ForkCounted(env, n, db2, iid, mem2, branches);
    }
  }

  lemma {:induction false} ForkCounted(env: Env, n: nat, db: Db, iid: Id, mem: Instance, branches: seq<string>)
    requires n > 0 && Counted(db)
    ensures var o := Fork(env, n, db, iid, mem, branches); o.Ok? ==> Counted(o.db)
    decreases n, 0, |branches|
  {
    hide Dispatch, Counted;
    if branches != [] {
      DispatchCounted(env, n - 1, db, iid, mem, branches[0]);
      var o := Dispatch(env, n - 1, db, iid, mem, branches[0]);
      if o.Ok? {
        ForkCounted(env, n, o.db, iid, o.mem, branches[1..]);
      }
    }
  }

  lemma NextNumbered(env: Env, depth: nat, db: Db, ev: Event)
    requires Inv(db) && Numbered(db.execs) && Next(env, depth, db, ev).Commit?
    ensures Numbered(Next(env, depth, db, ev).db.execs)
  {
    hide Inv, Next, BodyOf, Dispatch, Numbered, EventProofs.ClosedExecs, Below;
    NextPerforms(env, depth, db, ev);
    Joins.BodyStaged(env, db, ev);
    match BodyOf(env, db, ev)
    case Settle(r) => ClosedNumbered(db.execs, r.db.execs);
    case Launch(db1, iid, mem, stepId, ack) =>
      ClosedNumbered(db.execs, db1.execs);
      Joins.BelowStaged(db, db1);
      DispatchCounted(env, depth, db1, iid, mem, stepId);
  }

  lemma {:induction false} RunNumbered(env: Env, states: seq<Db>, events: seq<Event>, i: nat)
    requires IsRun(env, states, events) && i < |states|
    ensures Numbered(states[i].execs)
  {
    hide Inv, Next, UpTo;
    if i > 0 {
      RunNumbered(env, states, events, i - 1);
      EngineTheorems.RunInv(env, states, events, i - 1);
      if states[i] != states[i - 1] {
        var depth :| Next(env, depth, states[i - 1], events[i - 1]) == Commit(states[i]);
        NextNumbered(env, depth, states[i - 1], events[i - 1]);
      }
    }
  }

  /**
   In every run the executions of one step of one instance carry the numbers 1, 2, 3 and so on in
   the order in which they were entered, so the highest number is the newest execution.
   */
  lemma AttemptsNumbered(env: Env, states: seq<Db>, events: seq<Event>, i: nat, e: Id, f: Id)
    requires IsRun(env, states, events) && i < |states| && e in states[i].execs && f in states[i].execs && e < f
    requires states[i].execs[e].inst == states[i].execs[f].inst && states[i].execs[e].stepId == states[i].execs[f].stepId
    ensures 1 <= states[i].execs[e].attempt < states[i].execs[f].attempt <= |ExecsOf(states[i], states[i].execs[f].inst, states[i].execs[f].stepId)|
  {
    hide IsRun;
    RunNumbered(env, states, events, i);
    var db := states[i];
    var x, y, all := UpTo(db.execs, e), UpTo(db.execs, f), ExecsOf(db, db.execs[f].inst, db.execs[f].stepId);
    assert e in x && f in y && f !in x && x <= y <= all;
    Smaller(x, y);
    Smaller({}, x);
    assert all == y + (all - y);
  }

  lemma Smaller(a: set<Id>, b: set<Id>)
    requires a < b
    ensures |a| < |b|
  {
    assert b == a + (b - a);
  }
}
