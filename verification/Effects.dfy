/**
 What one dispatch leaves behind, by names and values: which rows appear and what is in them,
 which rows stay, which variables keep their values and which steps become current. Nothing here
 depends on the table invariant, so the handlers can promise it as it stands.
 */
module Effects {
  import opened Values
  import opened Definitions
  import opened Database
  import opened Interpreter
  import opened Invariants
  import opened Graphs
  import opened Plans
  import opened Termination
  import Transformations
  import DecisionTables
  import TableLaws

  // ---- variables ----

  /** Two maps give the same answer for `x`, including absence. */
  predicate SameAt(a: Vars, b: Vars, x: string) {
    (x in a <==> x in b) && (x in a ==> a[x] == b[x])
  }

  /** `b` holds every value of `patch`, and the value of `a` for every other name. */
  ghost predicate Overlaid(a: Vars, patch: Vars, b: Vars) {
    forall x :: if x in patch then x in b && b[x] == patch[x] else SameAt(a, b, x)
  }

  lemma OverlaidUnique(a: Vars, patch: Vars, b: Vars)
    requires Overlaid(a, patch, b)
    ensures b == a + patch
  {
    assert forall x :: SameAt(b, a + patch, x);
  }

  function OutputColumns(rules: seq<DecisionTables.Rule>): set<string> {
    set i, c | 0 <= i < |rules| && c in rules[i].outputs :: c
  }

  /** The variables a step may write. */
  function Writes(step: Step): set<string> {
    match step.typ
    case Transformation => step.transformations.Keys
    case DecisionTable => if step.rules.Some? then OutputColumns(step.rules.value) else {}
    case _ => {}
  }

  /** No step that a dispatch of `id` can run through writes `x`. */
  ghost predicate Untouched(def: Definition, id: string, x: string) {
    forall m :: Reaches(Immediate(def), id, m) && FindStep(def, m).Some? ==> x !in Writes(FindStep(def, m).value)
  }

  lemma UntouchedHere(def: Definition, id: string, x: string)
    requires Untouched(def, id, x) && FindStep(def, id).Some?
    ensures x !in Writes(FindStep(def, id).value)
    ensures forall next :: next in Handovers(FindStep(def, id).value) ==> Untouched(def, next, x)
  {
    hide Reaches, Handovers, Writes, FindStep;
    ReachesSelf(Immediate(def), id);
    forall next | next in Handovers(FindStep(def, id).value) ensures Untouched(def, next, x) {
      forall m | Reaches(Immediate(def), next, m) && FindStep(def, m).Some? ensures x !in Writes(FindStep(def, m).value) {
        ReachesStep(Immediate(def), id, next, m);
      }
    }
  }

  /** A step at which a dispatch stops leaves every variable alone. */
  lemma RestingUntouched(def: Definition, id: string, x: string)
    requires FindStep(def, id).Some? ==> Handovers(FindStep(def, id).value) == [] && Writes(FindStep(def, id).value) == {}
    ensures Untouched(def, id, x)
  {
    hide Handovers, Writes, FindStep;
    var g := Immediate(def);
    forall m | Reaches(g, id, m) ensures m == id {
      var n: nat :| Within(g, id, m, n);
      assert g(id) == [];
    }
  }

  // ---- timers ----

  /** How many TIMER events there are. */
  function TimersIn(events: seq<BoundaryEvent>): nat {
    if events == [] then 0
    else
      var n := |events| - 1;
      TimersIn(events[..n]) + if events[n].kind == "TIMER" then 1 else 0
  }

  /** The row of one TIMER event that is entered at `now`. */
  ghost predicate Alarm(env: Env, now: int, iid: Id, exec: Id, event: BoundaryEvent, row: Timer) {
    && row.inst == iid && row.exec == exec && !row.fired
    && row.target == event.target && row.interrupting == event.interrupting
    && env.duration(event.duration).Some? && row.fireAt == now + env.duration(event.duration).value
  }

  /** One new row per TIMER event, in order, and nothing else. */
  ghost predicate Alarms(env: Env, a: Db, b: Db, iid: Id, exec: Id, events: seq<BoundaryEvent>) {
    && b == a.(timers := b.timers, nextId := a.nextId + TimersIn(events))
    && (forall t :: t in b.timers <==> t in a.timers || a.nextId <= t < b.nextId)
    && (forall t :: t in a.timers && !(a.nextId <= t < b.nextId) ==> b.timers[t] == a.timers[t])
    && (forall i :: 0 <= i < |events| && events[i].kind == "TIMER" ==>
          var t := a.nextId + TimersIn(events[..i]);
          t in b.timers && Alarm(env, a.now, iid, exec, events[i], b.timers[t]))
  }

  lemma {:induction false} RankBelow(events: seq<BoundaryEvent>, i: nat)
    requires i <= |events|
    ensures TimersIn(events[..i]) <= TimersIn(events)
    ensures i < |events| && events[i].kind == "TIMER" ==> TimersIn(events[..i]) < TimersIn(events)
    decreases |events|
  {
    if i < |events| {
      var n := |events| - 1;
      RankBelow(events[..n], i);
      assert events[..n][..i] == events[..i];
    } else {
      assert events[..i] == events;
    }
  }

  lemma AlarmsBegin(env: Env, db: Db, iid: Id, exec: Id)
    ensures Alarms(env, db, db, iid, exec, [])
  {
  }

  lemma RanksStay(events: seq<BoundaryEvent>, event: BoundaryEvent)
    ensures var more := events + [event];
            && TimersIn(more) == TimersIn(events) + (if event.kind == "TIMER" then 1 else 0)
            && more[..|events|] == events
            && (forall i :: 0 <= i < |events| ==> more[..i] == events[..i])
            && (forall i :: 0 <= i < |events| && events[i].kind == "TIMER" ==> TimersIn(events[..i]) < TimersIn(events))
  {
    var more := events + [event];
    assert more[..|events|] == events;
    forall i | 0 <= i < |events| ensures more[..i] == events[..i] && (events[i].kind == "TIMER" ==> TimersIn(events[..i]) < TimersIn(events)) {
      RankBelow(events, i);
    }
  }

  /** One more event that is no timer. */
  lemma AlarmsSkip(env: Env, a: Db, b: Db, iid: Id, exec: Id, events: seq<BoundaryEvent>, event: BoundaryEvent)
    requires Alarms(env, a, b, iid, exec, events) && event.kind != "TIMER"
    ensures Alarms(env, a, b, iid, exec, events + [event])
  {
    RanksStay(events, event);
    hide Alarm, TimersIn;
  }

  /** One more timer. */
  lemma AlarmsRing(env: Env, a: Db, b: Db, iid: Id, exec: Id, events: seq<BoundaryEvent>, event: BoundaryEvent, row: Timer)
    requires Alarms(env, a, b, iid, exec, events) && event.kind == "TIMER" && Alarm(env, a.now, iid, exec, event, row)
    ensures Alarms(env, a, InsertTimer(b, row), iid, exec, events + [event])
  {
    RanksStay(events, event);
    hide Alarm, TimersIn;
    var more := events + [event];
    var c := InsertTimer(b, row);
    forall i | 0 <= i < |more| && more[i].kind == "TIMER"
      ensures var t := a.nextId + TimersIn(more[..i]); t in c.timers && Alarm(env, a.now, iid, exec, more[i], c.timers[t])
    {
      if i < |events| {
        assert more[i] == events[i];
      }
    }
  }

  /** A TIMER event whose duration cannot be parsed. */
  ghost predicate BadTimer(env: Env, events: seq<BoundaryEvent>) {
    exists i :: 0 <= i < |events| && events[i].kind == "TIMER" && env.duration(events[i].duration).None?
  }

  lemma {:induction false} ScheduleFrom(env: Env, db0: Db, db: Db, iid: Id, exec: Id, events: seq<BoundaryEvent>, i: nat)
    requires i <= |events| && Alarms(env, db0, db, iid, exec, events[..i])
    requires forall k :: 0 <= k < i && events[k].kind == "TIMER" ==> env.duration(events[k].duration).Some?
    ensures var s := Schedule(env, db, iid, exec, events[i..]);
            (s.None? <==> BadTimer(env, events)) && (s.Some? ==> Alarms(env, db0, s.value, iid, exec, events))
    decreases |events| - i
  {
    hide Alarms;
    if i == |events| {
      assert events[..i] == events;
    } else {
      assert events[..i + 1] == events[..i] + [events[i]];
      assert events[i..][1..] == events[i + 1..];
      if events[i].kind != "TIMER" {
        AlarmsSkip(env, db0, db, iid, exec, events[..i], events[i]);
        ScheduleFrom(env, db0, db, iid, exec, events, i + 1);
      } else if env.duration(events[i].duration).Some? {
        var row := Timer(iid, exec, events[i].target, db.now + env.duration(events[i].duration).value, events[i].interrupting, false);
        SameClock(env, db0, db, iid, exec, events[..i]);
        AlarmsRing(env, db0, db, iid, exec, events[..i], events[i], row);
        ScheduleFrom(env, db0, InsertTimer(db, row), iid, exec, events, i + 1);
      }
    }
  }

  lemma SameClock(env: Env, a: Db, b: Db, iid: Id, exec: Id, events: seq<BoundaryEvent>)
    requires Alarms(env, a, b, iid, exec, events)
    ensures b.now == a.now
  {
  }

  /** Scheduling succeeds exactly when all durations parse, and then the events have their rows. */
  lemma ScheduleMeans(env: Env, db: Db, iid: Id, exec: Id, events: seq<BoundaryEvent>)
    ensures var s := Schedule(env, db, iid, exec, events);
            (s.None? <==> BadTimer(env, events)) && (s.Some? ==> Alarms(env, db, s.value, iid, exec, events))
  {
    hide Alarms, Schedule;
    AlarmsBegin(env, db, iid, exec);
    assert events[..0] == [] && events[0..] == events;
    ScheduleFrom(env, db, db, iid, exec, events, 0);
  }

  // ---- rows ----

  ghost predicate SameExec(a: Exec, b: Exec) {
    b == a.(status := b.status)
  }

  /** Rows with ids below `n` are as they were. */
  ghost predicate Kept<V>(n: Id, a: map<Id, V>, b: map<Id, V>) {
    forall k :: k in a && k < n ==> k in b && b[k] == a[k]
  }

  /** Executions below `n` stay, and those that are closed do not change. */
  ghost predicate ExecsStay(n: Id, a: Execs, b: Execs) {
    forall e :: e in a && e < n ==> e in b && SameExec(a[e], b[e]) && (a[e].status != Running ==> b[e] == a[e])
  }

  /** The timer belongs to a TIMER event of the step its execution was entered for. */
  ghost predicate Ticket(env: Env, def: Definition, iid: Id, now: int, execs: Execs, row: Timer) {
    && row.exec in execs && execs[row.exec].inst == iid && FindStep(def, execs[row.exec].stepId).Some?
    && exists event :: event in FindStep(def, execs[row.exec].stepId).value.boundaryEvents
                       && event.kind == "TIMER" && Alarm(env, now, iid, row.exec, event, row)
  }

  /** New timers belong to events of new executions and are due one duration from now. */
  ghost predicate TimersAdded(env: Env, def: Definition, iid: Id, a: Db, b: Db) {
    && Kept(a.nextId, a.timers, b.timers)
    && (forall t :: t in b.timers ==>
          || (t in a.timers && b.timers[t] == a.timers[t])
          || (a.nextId <= t < b.nextId && b.timers[t].exec < b.nextId && Ticket(env, def, iid, b.now, b.execs, b.timers[t])))
  }

  /** From `a` to `b` a dispatch only adds rows, closes executions and rewrites its instance. */
  ghost predicate Adds(env: Env, def: Definition, iid: Id, a: Db, b: Db) {
    && b.now == a.now && a.nextId <= b.nextId
    && OneRow(a.instances, b.instances, iid)
    && ExecsStay(a.nextId, a.execs, b.execs)
    && Kept(a.nextId, a.jobs, b.jobs) && Kept(a.nextId, a.tasks, b.tasks)
    && TimersAdded(env, def, iid, a, b)
  }

  lemma TicketStays(env: Env, def: Definition, iid: Id, now: int, n: Id, a: Execs, b: Execs, row: Timer)
    requires ExecsStay(n, a, b) && row.exec < n && Ticket(env, def, iid, now, a, row)
    ensures Ticket(env, def, iid, now, b, row)
  {
    hide Alarm, FindStep;
  }

  lemma TimersAddedTransitive(env: Env, def: Definition, iid: Id, a: Db, b: Db, c: Db)
    requires TimersAdded(env, def, iid, a, b) && TimersAdded(env, def, iid, b, c) && ExecsStay(b.nextId, b.execs, c.execs)
    requires a.nextId <= b.nextId <= c.nextId && c.now == b.now
    ensures TimersAdded(env, def, iid, a, c)
  {
    hide Ticket, ExecsStay;
    forall t | t in c.timers && !(t in a.timers && c.timers[t] == a.timers[t])
      ensures a.nextId <= t < c.nextId && c.timers[t].exec < c.nextId && Ticket(env, def, iid, c.now, c.execs, c.timers[t])
    {
      if t in b.timers && c.timers[t] == b.timers[t] {
        TicketStays(env, def, iid, c.now, b.nextId, b.execs, c.execs, c.timers[t]);
      }
    }
  }

  lemma AddsReflexive(env: Env, def: Definition, iid: Id, db: Db)
    ensures Adds(env, def, iid, db, db)
  {
    hide Ticket;
  }

  lemma AddsTransitive(env: Env, def: Definition, iid: Id, a: Db, b: Db, c: Db)
    requires Adds(env, def, iid, a, b) && Adds(env, def, iid, b, c)
    ensures Adds(env, def, iid, a, c)
  {
    hide Ticket, TimersAdded;
    TimersAddedTransitive(env, def, iid, a, b, c);
  }

  /** The event of each new row. */
  lemma {:induction false} RankOf(events: seq<BoundaryEvent>, r: nat) returns (i: nat)
    requires r < TimersIn(events)
    ensures i < |events| && events[i].kind == "TIMER" && TimersIn(events[..i]) == r
  {
    var n := |events| - 1;
    if r < TimersIn(events[..n]) {
      i := RankOf(events[..n], r);
      assert events[..n][..i] == events[..i];
    } else {
      i := n;
    }
  }

  lemma AlarmsAdd(env: Env, def: Definition, a: Db, b: Db, iid: Id, exec: Id, step: Step)
    requires Alarms(env, a, b, iid, exec, step.boundaryEvents)
    requires exec in a.execs && exec < a.nextId && a.execs[exec].inst == iid && FindStep(def, a.execs[exec].stepId) == Some(step)
    ensures Adds(env, def, iid, a, b)
  {
    hide Alarm, FindStep, TimersIn;
    forall t | t in b.timers && !(t in a.timers && b.timers[t] == a.timers[t])
      ensures a.nextId <= t < b.nextId && b.timers[t].exec < b.nextId && Ticket(env, def, iid, b.now, b.execs, b.timers[t])
    {
      var i := RankOf(step.boundaryEvents, t - a.nextId);
      AlarmMeans(env, a.now, iid, exec, step.boundaryEvents[i], b.timers[t]);
      assert step.boundaryEvents[i] in step.boundaryEvents;
    }
  }

  lemma AlarmMeans(env: Env, now: int, iid: Id, exec: Id, event: BoundaryEvent, row: Timer)
    requires Alarm(env, now, iid, exec, event, row)
    ensures row.exec == exec
  {
  }

  /** Changes to the instance, to chain requests and to open executions alone. */
  lemma QuietAdds(env: Env, def: Definition, iid: Id, a: Db, b: Db)
    requires b.now == a.now && b.nextId == a.nextId && b.jobs == a.jobs && b.tasks == a.tasks && b.timers == a.timers
    requires OneRow(a.instances, b.instances, iid) && ExecsStay(a.nextId, a.execs, b.execs)
    ensures Adds(env, def, iid, a, b)
  {
    hide Ticket;
  }

  // ---- entering a step ----

  /** The step has been entered: its execution is open and its instance's row is up to date. */
  ghost predicate Entering(db: Db, iid: Id, mem: Instance, step: Step, exec: Id) {
    && exec in db.execs && exec < db.nextId
    && db.execs[exec].inst == iid && db.execs[exec].stepId == step.id && db.execs[exec].status == Running
    && FindStep(mem.def, step.id) == Some(step)
    && (iid in db.instances ==> db.instances[iid].current == mem.current)
  }

  ghost predicate EnteredRows(db: Db, d: Db, iid: Id, mem: Instance, step: Step) {
    && d == db.(nextId := db.nextId + 1, execs := d.execs, instances := d.instances)
    && d.execs == db.execs[db.nextId := Exec(iid, step.id, step.typ, |ExecsOf(db, iid, step.id)| + 1, Running)]
    && OneRow(db.instances, d.instances, iid)
    && d.instances.Keys == db.instances.Keys
    && (iid in db.instances ==> d.instances[iid] == db.instances[iid].(current := Entered(mem, step).current))
  }

  lemma EnterRows(db: Db, iid: Id, mem: Instance, step: Step)
    ensures EnteredRows(db, Enter(db, iid, mem, step), iid, mem, step)
  {
    hide ExecsOf;
  }

  lemma EnterAdds(env: Env, db: Db, iid: Id, mem: Instance, step: Step)
    requires FindStep(mem.def, step.id) == Some(step)
    ensures var d := Enter(db, iid, mem, step); Adds(env, mem.def, iid, db, d) && Entering(d, iid, Entered(mem, step), step, db.nextId)
  {
    hide Ticket, FindStep, ExecsOf, Enter, OneRow;
    EnterRows(db, iid, mem, step);
  }

  // ---- what a handler leaves to the steps it hands over to ----

  ghost predicate Leaves(plan: Plan, d: Db, m: Instance) {
    match plan
    case Stop(o) => o == Ok(d, m)
    case Go(d1, m1, _) => d1 == d && m1 == m
    case Split(d1, m1, _) => d1 == d && m1 == m
  }

  lemma ClosingStays(db: Db, iid: Id, stepId: string, status: ExecStatus)
    ensures var d := SetRunning(db, iid, stepId, status); ExecsStay(db.nextId, db.execs, d.execs) && d == db.(execs := d.execs)
  {
  }

  lemma ClosingOneStays(db: Db, e: Id, status: ExecStatus)
    requires e in db.execs && db.execs[e].status == Running
    ensures var d := SetExec(db, e, status); ExecsStay(db.nextId, db.execs, d.execs) && d == db.(execs := d.execs)
  {
  }

  lemma RowOpsStay(db: Db, iid: Id, status: InstanceStatus, ids: seq<string>, patch: Vars)
    ensures var d := SetStatus(db, iid, status); OneRow(db.instances, d.instances, iid) && d == db.(instances := d.instances)
    ensures var d := SetCurrent(db, iid, ids); OneRow(db.instances, d.instances, iid) && d == db.(instances := d.instances)
    ensures var d := PatchVars(db, iid, patch); OneRow(db.instances, d.instances, iid) && d == db.(instances := d.instances)
  {
  }

  lemma FailAdds(env: Env, def: Definition, db: Db, iid: Id, mem: Instance, stepId: string)
    ensures var o := FailStep(db, iid, mem, stepId); o.Ok? && Adds(env, def, iid, db, o.db) && o.mem == mem.(status := Failed)
  {
    hide Adds, SetRunning, SetStatus, ExecsStay;
    ClosingStays(db, iid, stepId, Faulted);
    var d := SetRunning(db, iid, stepId, Faulted);
    RowOpsStay(d, iid, Failed, [], map[]);
    QuietAdds(env, def, iid, db, SetStatus(d, iid, Failed));
  }

  lemma ScheduledAdds(env: Env, db: Db, d: Db, iid: Id, mem: Instance, step: Step, exec: Id)
    requires Entering(db, iid, mem, step, exec) && Adds(env, mem.def, iid, db, d) && d.execs == db.execs
    ensures var s := Schedule(env, d, iid, exec, step.boundaryEvents); s.Some? ==> Adds(env, mem.def, iid, db, s.value)
  {
    hide FindStep, Schedule, Alarms;
    var s := Schedule(env, d, iid, exec, step.boundaryEvents);
    if s.Some? {
      ScheduleMeans(env, d, iid, exec, step.boundaryEvents);
      assert d.nextId >= db.nextId;
      hide Adds;
      AlarmsAdd(env, mem.def, d, s.value, iid, exec, step);
      AddsTransitive(env, mem.def, iid, db, d, s.value);
    }
  }

  /** The rows a parked step writes before its timers. */
  function ParkRows(db: Db, iid: Id, mem: Instance, step: Step, exec: Id): Db
    requires Parked(step.typ)
  {
    match step.typ
    case ServiceTask => InsertJob(db, iid, exec, if step.jobType == "" then step.id else step.jobType, step.retryCount, mem.vars)
    case UserTask => SetStatus(InsertTask(db, iid, exec, step.id), iid, Waiting)
    case Wait => SetStatus(db, iid, Waiting)
  }

  lemma RouteParks(env: Env, depth: nat, db: Db, iid: Id, mem: Instance, step: Step, exec: Id)
    requires depth > 0 && exec in db.execs && Parked(step.typ)
    ensures Route(env, depth, db, iid, mem, step, exec) ==
            Scheduled(env, ParkRows(db, iid, mem, step, exec), iid, if step.typ == ServiceTask then mem else mem.(status := Waiting), exec, step)
  {
    hide Scheduled, InsertJob, InsertTask, SetStatus;
  }

  /** The job or the task of a parked step, and its instance's status. */
  ghost predicate ParkedRows(a: Db, b: Db, iid: Id, mem: Instance, step: Step, exec: Id) {
    && b == a.(nextId := b.nextId, jobs := b.jobs, tasks := b.tasks, instances := b.instances, latest := b.latest, enqueued := b.enqueued)
    && b.nextId == a.nextId + (if step.typ == Wait then 0 else 1)
    && OneRow(a.instances, b.instances, iid)
    && (iid in a.instances ==>
          b.instances[iid] == if step.typ == ServiceTask then a.instances[iid] else a.instances[iid].(status := Waiting))
    && b.jobs == (if step.typ != ServiceTask then a.jobs
                  else a.jobs[a.nextId := Job(iid, exec, if step.jobType != "" then step.jobType else step.id, Unlocked, "", None,
                                              step.retryCount, mem.vars)])
    && b.tasks == (if step.typ != UserTask then a.tasks else a.tasks[a.nextId := UserTaskRow(iid, exec, step.id, Open)])
    && b.chains == a.chains
  }

  lemma ParksAs(db: Db, iid: Id, mem: Instance, step: Step, exec: Id)
    requires Parked(step.typ)
    ensures ParkedRows(db, ParkRows(db, iid, mem, step, exec), iid, mem, step, exec)
  {
    hide ParkedRows;
    match step.typ {
      case ServiceTask => JobParks(db, iid, mem, step, exec);
      case UserTask => TaskParks(db, iid, mem, step, exec);
      case Wait => WaitParks(db, iid, mem, step, exec);
    }
  }

  lemma JobParks(db: Db, iid: Id, mem: Instance, step: Step, exec: Id)
    requires step.typ == ServiceTask
    ensures ParkedRows(db, ParkRows(db, iid, mem, step, exec), iid, mem, step, exec)
  {
  }

  lemma TaskParks(db: Db, iid: Id, mem: Instance, step: Step, exec: Id)
    requires step.typ == UserTask
    ensures ParkedRows(db, ParkRows(db, iid, mem, step, exec), iid, mem, step, exec)
  {
    hide SetStatus;
    StatusSets(InsertTask(db, iid, exec, step.id), iid, Waiting);
  }

  lemma WaitParks(db: Db, iid: Id, mem: Instance, step: Step, exec: Id)
    requires step.typ == Wait
    ensures ParkedRows(db, ParkRows(db, iid, mem, step, exec), iid, mem, step, exec)
  {
    hide SetStatus;
    StatusSets(db, iid, Waiting);
  }

  lemma StatusSets(db: Db, iid: Id, status: InstanceStatus)
    ensures var d := SetStatus(db, iid, status);
            && d == db.(instances := d.instances) && OneRow(db.instances, d.instances, iid)
            && (iid in db.instances ==> d.instances[iid] == db.instances[iid].(status := status))
  {
  }

  lemma ParkAdds(env: Env, db: Db, iid: Id, mem: Instance, step: Step, exec: Id)
    requires Entering(db, iid, mem, step, exec) && Parked(step.typ)
    ensures var o := Route(env, 1, db, iid, mem, step, exec); o.Ok? ==> Adds(env, mem.def, iid, db, o.db) && o.mem.def == mem.def
  {
    hide Adds, FindStep, Schedule, Route, ParkRows;
    RouteParks(env, 1, db, iid, mem, step, exec);
    ParksAs(db, iid, mem, step, exec);
    var d := ParkRows(db, iid, mem, step, exec);
    InsertedAdds(env, mem.def, db, d, iid);
    ScheduledAdds(env, db, d, iid, mem, step, exec);
  }

  /** One row more in the table of jobs or tasks. */
  lemma InsertedAdds(env: Env, def: Definition, a: Db, b: Db, iid: Id)
    requires b.now == a.now && a.nextId <= b.nextId && b.execs == a.execs && b.timers == a.timers
    requires OneRow(a.instances, b.instances, iid) && Kept(a.nextId, a.jobs, b.jobs) && Kept(a.nextId, a.tasks, b.tasks)
    ensures Adds(env, def, iid, a, b)
  {
    hide Ticket;
  }

  /** The rows handleEnd writes. */
  function EndRows(db: Db, iid: Id, mem: Instance, step: Step, exec: Id): Db
    requires exec in db.execs
  {
    var done := SetStatus(SetCurrent(SetExec(db, exec, Succeeded), iid, WithoutStep(mem.current, step.id)), iid, Completed);
    if ChainsOn(mem.def) then InsertChain(done, iid, Chain(mem.def.nextWorkflowId, mem.vars, mem.businessKey, None)) else done
  }

  lemma EndIsRoute(env: Env, depth: nat, db: Db, iid: Id, mem: Instance, step: Step, exec: Id)
    requires depth > 0 && exec in db.execs && step.typ == End
    ensures Route(env, depth, db, iid, mem, step, exec) == Ok(EndRows(db, iid, mem, step, exec), Left(mem, step).(status := Completed))
  {
    hide SetStatus, SetCurrent, SetExec, InsertChain, WithoutStep;
  }

  lemma ClosedRow(db: Db, exec: Id)
    requires exec in db.execs
    ensures var d := SetExec(db, exec, Succeeded);
            d == db.(execs := d.execs) && d.execs == db.execs[exec := db.execs[exec].(status := Succeeded)]
  {
  }

  /** An existing request stays; otherwise there is this one. */
  lemma ChainRow(db: Db, iid: Id, chain: Chain)
    ensures var d := InsertChain(db, iid, chain);
            && d == db.(chains := d.chains) && Sub(db.chains, d.chains) && d.chains.Keys == db.chains.Keys + {iid}
            && (iid !in db.chains ==> d.chains[iid] == chain)
  {
  }

  lemma CompletedRow(db: Db, iid: Id, ids: seq<string>)
    ensures var d := SetStatus(SetCurrent(db, iid, ids), iid, Completed);
            && d == db.(instances := d.instances) && OneRow(db.instances, d.instances, iid)
            && (iid in d.instances ==> d.instances[iid] == db.instances[iid].(status := Completed, current := ids))
  {
  }

  /** What handleEnd leaves; a chaining definition has a request with the instance's data. */
  ghost predicate Finished(a: Db, b: Db, iid: Id, exec: Id, inst: Instance) {
    && inst.status == Completed
    && exec in a.execs && b.execs == a.execs[exec := a.execs[exec].(status := Succeeded)]
    && b == a.(execs := b.execs, instances := b.instances, chains := b.chains)
    && OneRow(a.instances, b.instances, iid)
    && (iid in b.instances ==> b.instances[iid] == a.instances[iid].(status := Completed, current := inst.current))
    && Sub(a.chains, b.chains)
    && b.chains.Keys == a.chains.Keys + (if inst.def.autoStartNextWorkflow && inst.def.nextWorkflowId != "" then {iid} else {})
    && (iid in b.chains && iid !in a.chains ==>
          b.chains[iid].target == inst.def.nextWorkflowId && b.chains[iid].vars == inst.vars
          && b.chains[iid].businessKey == inst.businessKey && b.chains[iid].child == None)
  }

  lemma EndFinishes(db: Db, iid: Id, mem: Instance, step: Step, exec: Id)
    requires exec in db.execs
    ensures Finished(db, EndRows(db, iid, mem, step, exec), iid, exec, Left(mem, step).(status := Completed))
  {
    hide WithoutStep, SetStatus, SetCurrent, SetExec, InsertChain;
    var ids, closed := WithoutStep(mem.current, step.id), SetExec(db, exec, Succeeded);
    ClosedRow(db, exec);
    CompletedRow(closed, iid, ids);
    var done := SetStatus(SetCurrent(closed, iid, ids), iid, Completed);
    assert done == db.(execs := done.execs, instances := done.instances);
    ChainRow(done, iid, Chain(mem.def.nextWorkflowId, mem.vars, mem.businessKey, None));
  }

  lemma EndAdds(env: Env, db: Db, iid: Id, mem: Instance, step: Step, exec: Id)
    requires Entering(db, iid, mem, step, exec) && step.typ == End
    ensures var o := Route(env, 1, db, iid, mem, step, exec); o.Ok? && Adds(env, mem.def, iid, db, o.db) && o.mem.def == mem.def
  {
    hide Adds, Route, EndRows, FindStep;
    EndIsRoute(env, 1, db, iid, mem, step, exec);
    EndFinishes(db, iid, mem, step, exec);
    QuietAdds(env, mem.def, iid, db, EndRows(db, iid, mem, step, exec));
  }

  /** A handler that closes its execution by step or by id, perhaps after storing variables. */
  lemma CloseAdds(env: Env, def: Definition, db: Db, iid: Id, patch: Vars, stepId: string, exec: Id)
    requires exec in db.execs && db.execs[exec].status == Running
    ensures Adds(env, def, iid, db, SetRunning(db, iid, stepId, Succeeded))
    ensures Adds(env, def, iid, db, SetRunning(PatchVars(db, iid, patch), iid, stepId, Succeeded))
    ensures exec in PatchVars(db, iid, patch).execs && Adds(env, def, iid, db, SetExec(PatchVars(db, iid, patch), exec, Succeeded))
    ensures Adds(env, def, iid, db, SetExec(db, exec, Succeeded))
    ensures Adds(env, def, iid, db, PassJoin(SetExec(db, exec, Succeeded), exec))
  {
    hide Adds, SetRunning, PatchVars, SetExec, ExecsStay;
    RowOpsStay(db, iid, Active, [], patch);
    var d := PatchVars(db, iid, patch);
    ClosingStays(db, iid, stepId, Succeeded);
    ClosingStays(d, iid, stepId, Succeeded);
    ClosingOneStays(d, exec, Succeeded);
    ClosingOneStays(db, exec, Succeeded);
    QuietAdds(env, def, iid, db, SetRunning(db, iid, stepId, Succeeded));
    QuietAdds(env, def, iid, db, SetRunning(d, iid, stepId, Succeeded));
    QuietAdds(env, def, iid, db, SetExec(d, exec, Succeeded));
    QuietAdds(env, def, iid, db, SetExec(db, exec, Succeeded));
    QuietAdds(env, def, iid, db, PassJoin(SetExec(db, exec, Succeeded), exec));
  }

  lemma StageAdds(env: Env, db: Db, iid: Id, mem: Instance, step: Step, exec: Id, d: Db, m: Instance)
    requires Entering(db, iid, mem, step, exec) && Leaves(PlanOf(env, db, iid, mem, step, exec), d, m)
    ensures Adds(env, mem.def, iid, db, d) && m.def == mem.def
  {
    hide Adds, Entering, TableOutcome, Transformations.Run, CompletedLeafs, Dispatch, Fork, Scheduled, FindStep, GatewayFor, Choose,
         SetRunning, SetExec, PatchVars, SetStatus, SetCurrent, InsertJob, InsertTask, WithoutStep, FailStep;
    assert exec in db.execs && db.execs[exec].status == Running by { EnteringExec(db, iid, mem, step, exec); }
    FailAdds(env, mem.def, db, iid, mem, step.id);
    CloseAdds(env, mem.def, db, iid, map[], step.id, exec);
    match step.typ
    case Transformation =>
      var r := Transformations.Run(step.transformations, env.eval, env.clockText(db.now),
                                   env.order(exec, 0, step.transformations.Keys), mem.vars, map[]);
      if r.Done? {
        CloseAdds(env, mem.def, db, iid, r.delta, step.id, exec);
      }
    case DecisionTable =>
      var o := TableOutcome(env, exec, db.now, step, mem.vars);
      if o.Outputs? {
        CloseAdds(env, mem.def, db, iid, o.row, step.id, exec);
      }
    case End => EndAdds(env, db, iid, mem, step, exec);
    case Decision =>
    case ParallelGateway =>
    case JoinGateway =>
    case Unsupported(_) =>
    case _ => ParkAdds(env, db, iid, mem, step, exec);
  }

  lemma EnteringExec(db: Db, iid: Id, mem: Instance, step: Step, exec: Id)
    requires Entering(db, iid, mem, step, exec)
    ensures exec in db.execs && db.execs[exec].status == Running
  {
  }

  // ---- variables through a handler ----

  /** A table writes only output columns of its rules. */
  lemma TableWrites(env: Env, exec: Id, now: int, step: Step, vars: Vars)
    ensures var o := TableOutcome(env, exec, now, step, vars);
            o.Outputs? ==> step.rules.Some? && o.row.Keys <= OutputColumns(step.rules.value)
  {
    hide DecisionTables.Decides, Decided, TableOrders, PolicyOf, OutputColumns;
    var o := TableOutcome(env, exec, now, step, vars);
    if o.Outputs? {
      var rules, p := step.rules.value, PolicyOf(step.hitPolicy);
      var orders := TableOrders(env, exec, rules);
      var policy := if p.Some? then p.value else DecisionTables.F;
      var d := Decided(env, exec, now, rules, policy, orders, vars);
      TableLaws.DecidedDecides(env, exec, now, rules, policy, orders, vars, d.row);
      DecidesWrites(rules, policy, orders, env.eval, env.clockText(now), vars, d.row);
    }
  }

  lemma DecidesWrites(rules: seq<DecisionTables.Rule>, policy: DecisionTables.Policy, orders: nat -> seq<string>, eval: Evaluator, now: Value,
                      vars: Vars, row: DecisionTables.Row)
    requires DecisionTables.Decides(rules, policy, orders, eval, now, vars, DecisionTables.Outputs(row))
    ensures row.Keys <= OutputColumns(rules)
  {
    hide DecisionTables.CellsInOrder;
    var m := DecisionTables.Collect(rules, orders, eval, vars, |rules|);
    assert forall k :: 0 <= k < |m.idx| ==> m.idx[k] in m.idx;
    var rows := DecisionTables.RuleRows(rules, m.idx, eval, now, vars).rows;
    forall k, c | 0 <= k < |rows| && c in rows[k] ensures c in OutputColumns(rules) {
      TableLaws.RowMeans(rules[m.idx[k]], eval, now, vars, rows[k]);
      assert c in rules[m.idx[k]].outputs;
    }
    CollapsesColumns(policy, rows, row);
  }

  lemma CollapsesColumns(policy: DecisionTables.Policy, rows: seq<DecisionTables.Row>, row: DecisionTables.Row)
    requires rows != [] && DecisionTables.Collapses(policy, rows, DecisionTables.Outputs(row))
    ensures forall c :: c in row ==> exists k :: 0 <= k < |rows| && c in rows[k]
  {
  }

  ghost predicate JobsCarry(x: string, iid: Id, vars: Vars, a: Jobs, b: Jobs) {
    forall j :: j in b ==> (j in a && b[j] == a[j]) || (b[j].inst == iid && SameAt(vars, b[j].payload, x))
  }

  ghost predicate ChainsCarry(x: string, iid: Id, mem: Instance, a: map<Id, Chain>, b: map<Id, Chain>) {
    forall c :: c in b ==>
      || (c in a && b[c] == a[c])
      || (c == iid && b[c].target == mem.def.nextWorkflowId && b[c].businessKey == mem.businessKey && SameAt(mem.vars, b[c].vars, x))
  }

  /** The value of `x` is the same in memory, in the row, in new jobs and in new chain requests. */
  ghost predicate Carries(x: string, iid: Id, a: Db, mem: Instance, b: Db, m: Instance) {
    && SameAt(mem.vars, m.vars, x) && m.def == mem.def && m.businessKey == mem.businessKey
    && (iid in a.instances ==> iid in b.instances && SameAt(a.instances[iid].vars, b.instances[iid].vars, x))
    && JobsCarry(x, iid, mem.vars, a.jobs, b.jobs) && ChainsCarry(x, iid, mem, a.chains, b.chains)
  }

  lemma CarriesTransitive(x: string, iid: Id, a: Db, am: Instance, b: Db, bm: Instance, c: Db, cm: Instance)
    requires Carries(x, iid, a, am, b, bm) && Carries(x, iid, b, bm, c, cm)
    ensures Carries(x, iid, a, am, c, cm)
  {
  }

  /** Jobs and chain requests are untouched, and the row's other variables too. */
  lemma QuietCarries(x: string, iid: Id, a: Db, mem: Instance, b: Db, m: Instance)
    requires SameAt(mem.vars, m.vars, x) && m.def == mem.def && m.businessKey == mem.businessKey && b.jobs == a.jobs && b.chains == a.chains
    requires iid in a.instances ==> iid in b.instances && SameAt(a.instances[iid].vars, b.instances[iid].vars, x)
    ensures Carries(x, iid, a, mem, b, m)
  {
  }

  /** The row operations of the handlers leave the variables alone, or overlay a patch. */
  lemma RowVars(db: Db, iid: Id, status: InstanceStatus, stepId: string, exec: Id, closed: ExecStatus, patch: Vars)
    requires exec in db.execs && iid in db.instances
    ensures var d := SetStatus(SetRunning(db, iid, stepId, closed), iid, status);
            d.jobs == db.jobs && d.chains == db.chains && iid in d.instances && d.instances[iid] == db.instances[iid].(status := status)
    ensures var d := SetRunning(PatchVars(db, iid, patch), iid, stepId, closed);
            d.jobs == db.jobs && d.chains == db.chains && iid in d.instances && d.instances[iid] == db.instances[iid].(vars := db.instances[iid].vars + patch)
    ensures exec in PatchVars(db, iid, patch).execs
    ensures var d := SetExec(PatchVars(db, iid, patch), exec, closed);
            d.jobs == db.jobs && d.chains == db.chains && iid in d.instances && d.instances[iid] == db.instances[iid].(vars := db.instances[iid].vars + patch)
  {
    hide RunningOf;
  }

  lemma CloseVars(db: Db, iid: Id, stepId: string, exec: Id, closed: ExecStatus)
    requires exec in db.execs
    ensures var d := SetRunning(db, iid, stepId, closed); d.jobs == db.jobs && d.chains == db.chains && d.instances == db.instances
    ensures var d := SetExec(db, exec, closed); d.jobs == db.jobs && d.chains == db.chains && d.instances == db.instances
    ensures var d := PassJoin(SetExec(db, exec, closed), exec); d.jobs == db.jobs && d.chains == db.chains && d.instances == db.instances
  {
    hide RunningOf;
  }

  lemma ParkCarries(env: Env, x: string, db: Db, iid: Id, mem: Instance, step: Step, exec: Id)
    requires exec in db.execs && iid in db.instances && Parked(step.typ)
    ensures var o := Route(env, 1, db, iid, mem, step, exec); o.Ok? ==> Carries(x, iid, db, mem, o.db, o.mem)
  {
    hide Route, ParkRows, Schedule, Alarms;
    RouteParks(env, 1, db, iid, mem, step, exec);
    ParksAs(db, iid, mem, step, exec);
    var d := ParkRows(db, iid, mem, step, exec);
    ScheduleMeans(env, d, iid, exec, step.boundaryEvents);
    if Route(env, 1, db, iid, mem, step, exec).Ok? {
      AlarmsElse(env, d, Schedule(env, d, iid, exec, step.boundaryEvents).value, iid, exec, step.boundaryEvents);
    }
  }

  lemma AlarmsElse(env: Env, a: Db, b: Db, iid: Id, exec: Id, events: seq<BoundaryEvent>)
    requires Alarms(env, a, b, iid, exec, events)
    ensures b == a.(timers := b.timers, nextId := b.nextId) && a.nextId <= b.nextId
  {
  }

  lemma EndCarries(env: Env, x: string, db: Db, iid: Id, mem: Instance, step: Step, exec: Id)
    requires exec in db.execs && iid in db.instances && step.typ == End
    ensures var o := Route(env, 1, db, iid, mem, step, exec); o.Ok? && Carries(x, iid, db, mem, o.db, o.mem)
  {
    hide Route, EndRows;
    EndIsRoute(env, 1, db, iid, mem, step, exec);
    EndFinishes(db, iid, mem, step, exec);
  }

  /** The data steps, for a variable they do not write. */
  lemma TransformationCarries(env: Env, x: string, db: Db, iid: Id, mem: Instance, step: Step, exec: Id, d: Db, m: Instance)
    requires exec in db.execs && iid in db.instances && x !in Writes(step) && step.typ == Transformation
    requires Leaves(PlanOf(env, db, iid, mem, step, exec), d, m)
    ensures Carries(x, iid, db, mem, d, m)
  {
    hide Carries, Transformations.Run, Route, SetRunning, SetExec, PatchVars, SetStatus, WithoutStep;
    RowVars(db, iid, Failed, step.id, exec, Faulted, map[]);
    var order := env.order(exec, 0, step.transformations.Keys);
    var r := Transformations.Run(step.transformations, env.eval, env.clockText(db.now), order, mem.vars, map[]);
    if r.Done? {
      Transformations.RunWrites(step.transformations, env.eval, env.clockText(db.now), order, mem.vars, map[]);
      RowVars(db, iid, Active, step.id, exec, Succeeded, r.delta);
    }
    QuietCarries(x, iid, db, mem, d, m);
  }

  lemma TableCarries(env: Env, x: string, db: Db, iid: Id, mem: Instance, step: Step, exec: Id, d: Db, m: Instance)
    requires exec in db.execs && iid in db.instances && x !in Writes(step) && step.typ == DecisionTable
    requires Leaves(PlanOf(env, db, iid, mem, step, exec), d, m)
    ensures Carries(x, iid, db, mem, d, m)
  {
    hide Carries, TableOutcome, Route, SetRunning, SetExec, PatchVars, SetStatus, WithoutStep, OutputColumns;
    RowVars(db, iid, Failed, step.id, exec, Faulted, map[]);
    var o := TableOutcome(env, exec, db.now, step, mem.vars);
    if o.Outputs? {
      TableWrites(env, exec, db.now, step, mem.vars);
      RowVars(db, iid, Active, step.id, exec, Succeeded, o.row);
    }
    QuietCarries(x, iid, db, mem, d, m);
  }

  lemma FlowCarries(env: Env, x: string, db: Db, iid: Id, mem: Instance, step: Step, exec: Id, d: Db, m: Instance)
    requires exec in db.execs && iid in db.instances && (step.typ == Decision || step.typ == ParallelGateway || step.typ == JoinGateway)
    requires Leaves(PlanOf(env, db, iid, mem, step, exec), d, m)
    ensures Carries(x, iid, db, mem, d, m)
  {
    hide Carries, CompletedLeafs, Dispatch, Fork, GatewayFor, Choose, SetRunning, SetExec, SetStatus, WithoutStep, PassJoin;
    CloseVars(db, iid, step.id, exec, Succeeded);
    RowVars(db, iid, Failed, step.id, exec, Faulted, map[]);
    QuietCarries(x, iid, db, mem, d, m);
  }

  /** A variable that the step does not write. */
  lemma StageCarries(env: Env, x: string, db: Db, iid: Id, mem: Instance, step: Step, exec: Id, d: Db, m: Instance)
    requires exec in db.execs && iid in db.instances && x !in Writes(step)
    requires Leaves(PlanOf(env, db, iid, mem, step, exec), d, m)
    ensures Carries(x, iid, db, mem, d, m)
  {
    hide Carries, Writes;
    match step.typ
    case Transformation => TransformationCarries(env, x, db, iid, mem, step, exec, d, m);
    case DecisionTable => TableCarries(env, x, db, iid, mem, step, exec, d, m);
    case Unsupported(_) => assert false;
    case End =>
      hide Route;
      EndCarries(env, x, db, iid, mem, step, exec);
    case ServiceTask =>
      hide Route;
      ParkCarries(env, x, db, iid, mem, step, exec);
    case UserTask =>
      hide Route;
      ParkCarries(env, x, db, iid, mem, step, exec);
    case Wait =>
      hide Route;
      ParkCarries(env, x, db, iid, mem, step, exec);
    case _ => FlowCarries(env, x, db, iid, mem, step, exec, d, m);
  }

  // ---- the current steps ----

  /** The dispatch has entered the step: an execution with an id from `n` on. */
  ghost predicate Anew(db: Db, n: Id, iid: Id, id: string) {
    exists e :: e in db.execs && n <= e < db.nextId && db.execs[e].inst == iid && db.execs[e].stepId == id
  }

  lemma AnewStays(env: Env, def: Definition, a: Db, b: Db, n: Id, iid: Id, id: string)
    requires Adds(env, def, iid, a, b) && Anew(a, n, iid, id)
    ensures Anew(b, n, iid, id)
  {
    hide TimersAdded, OneRow;
    var e :| e in a.execs && n <= e < a.nextId && a.execs[e].inst == iid && a.execs[e].stepId == id;
    assert e in b.execs;
  }

  /** Apart from steps entered since, `ids` are the steps of `ids0`. */
  ghost predicate Tracks(db: Db, n: Id, iid: Id, ids: seq<string>, ids0: seq<string>) {
    forall id :: !Anew(db, n, iid, id) ==> (id in ids <==> id in ids0)
  }

  lemma TracksStay(env: Env, def: Definition, a: Db, b: Db, n: Id, iid: Id, ids: seq<string>, ids0: seq<string>)
    requires Adds(env, def, iid, a, b) && Tracks(a, n, iid, ids, ids0)
    ensures Tracks(b, n, iid, ids, ids0)
  {
    hide Adds, Anew;
    forall id | !Anew(b, n, iid, id) ensures id in ids <==> id in ids0 {
      if Anew(a, n, iid, id) {
        AnewStays(env, def, a, b, n, iid, id);
      }
    }
  }

  /** A handler may take its own step off the list, in memory or in the row, and no other. */
  ghost predicate OwnStepOnly(step: Step, ids: seq<string>, ids0: seq<string>) {
    forall id :: id != step.id ==> (id in ids <==> id in ids0)
  }

  lemma ParkCurrent(env: Env, db: Db, iid: Id, mem: Instance, step: Step, exec: Id)
    requires exec in db.execs && iid in db.instances && Parked(step.typ)
    ensures var o := Route(env, 1, db, iid, mem, step, exec);
            o.Ok? ==> o.mem.current == mem.current && iid in o.db.instances && o.db.instances[iid].current == db.instances[iid].current
  {
    hide Route, ParkRows, Schedule, Alarms;
    RouteParks(env, 1, db, iid, mem, step, exec);
    ParksAs(db, iid, mem, step, exec);
    var d := ParkRows(db, iid, mem, step, exec);
    ScheduleMeans(env, d, iid, exec, step.boundaryEvents);
    if Route(env, 1, db, iid, mem, step, exec).Ok? {
      AlarmsElse(env, d, Schedule(env, d, iid, exec, step.boundaryEvents).value, iid, exec, step.boundaryEvents);
    }
  }

  lemma EndCurrent(env: Env, db: Db, iid: Id, mem: Instance, step: Step, exec: Id)
    requires exec in db.execs && iid in db.instances && step.typ == End
    ensures var o := Route(env, 1, db, iid, mem, step, exec);
            o.Ok? && o.mem.current == WithoutStep(mem.current, step.id) && iid in o.db.instances && o.db.instances[iid].current == o.mem.current
  {
    hide Route, EndRows, WithoutStep;
    EndIsRoute(env, 1, db, iid, mem, step, exec);
    EndFinishes(db, iid, mem, step, exec);
  }

  lemma GoCurrent(env: Env, db: Db, iid: Id, mem: Instance, step: Step, exec: Id, d: Db, m: Instance)
    requires exec in db.execs && iid in db.instances && !Parked(step.typ) && step.typ != End
    requires Leaves(PlanOf(env, db, iid, mem, step, exec), d, m)
    ensures (m.current == mem.current || m.current == WithoutStep(mem.current, step.id))
    ensures iid in d.instances && d.instances[iid].current == db.instances[iid].current
  {
    hide TableOutcome, Transformations.Run, CompletedLeafs, Dispatch, Fork, GatewayFor, Choose, WithoutStep, SetRunning, SetExec, PatchVars,
         SetStatus, PassJoin;
    CloseVars(db, iid, step.id, exec, Succeeded);
    RowVars(db, iid, Failed, step.id, exec, Faulted, map[]);
    if step.typ == Transformation {
      var r := Transformations.Run(step.transformations, env.eval, env.clockText(db.now),
                                   env.order(exec, 0, step.transformations.Keys), mem.vars, map[]);
      if r.Done? {
        RowVars(db, iid, Active, step.id, exec, Succeeded, r.delta);
      }
    } else if step.typ == DecisionTable {
      var o := TableOutcome(env, exec, db.now, step, mem.vars);
      if o.Outputs? {
        RowVars(db, iid, Active, step.id, exec, Succeeded, o.row);
      }
    }
  }

  lemma StageCurrent(env: Env, db: Db, iid: Id, mem: Instance, step: Step, exec: Id, d: Db, m: Instance)
    requires Entering(db, iid, mem, step, exec) && iid in db.instances && Leaves(PlanOf(env, db, iid, mem, step, exec), d, m)
    ensures OwnStepOnly(step, m.current, mem.current)
    ensures iid in d.instances && OwnStepOnly(step, d.instances[iid].current, mem.current)
  {
    assert exec in db.execs && db.instances[iid].current == mem.current;
    hide Entering;
    if Parked(step.typ) {
      hide Route;
      ParkCurrent(env, db, iid, mem, step, exec);
    } else if step.typ == End {
      hide Route;
      EndCurrent(env, db, iid, mem, step, exec);
    } else {
      hide PlanOf;
      GoCurrent(env, db, iid, mem, step, exec, d, m);
    }
  }

  // ---- the whole dispatch ----

  /** An execution of the step under this id. */
  ghost predicate ExecOf(execs: Execs, e: Id, iid: Id, step: Step) {
    e in execs && execs[e].inst == iid && execs[e].stepId == step.id && execs[e].typ == step.typ
  }

  /** After a dispatch of `stepId` that began in (db, mem): the rows, the entered step, the current steps. */
  ghost predicate Done(env: Env, db: Db, iid: Id, mem: Instance, n: Id, ids0: seq<string>, d: Db, m: Instance) {
    && Adds(env, mem.def, iid, db, d) && m.def == mem.def
    && Tracks(d, n, iid, m.current, ids0)
    && iid in d.instances && Tracks(d, n, iid, d.instances[iid].current, ids0)
  }

  lemma ExecStays(env: Env, def: Definition, a: Db, b: Db, e: Id, iid: Id, step: Step)
    requires Adds(env, def, iid, a, b) && ExecOf(a.execs, e, iid, step) && e < a.nextId
    ensures ExecOf(b.execs, e, iid, step) && e < b.nextId
  {
    hide TimersAdded, OneRow;
  }

  lemma EnterExecOf(db: Db, iid: Id, mem: Instance, step: Step)
    ensures var d := Enter(db, iid, mem, step); ExecOf(d.execs, db.nextId, iid, step) && d.nextId == db.nextId + 1
  {
    hide Enter, ExecsOf;
    EnterRows(db, iid, mem, step);
  }

  /** Entering the step and what its handler does by itself. */
  lemma StageTracks(env: Env, db: Db, iid: Id, mem: Instance, step: Step, n: Id, ids0: seq<string>, d: Db, m: Instance)
    requires iid in db.instances && n <= db.nextId && Tracks(db, n, iid, mem.current, ids0) && FindStep(mem.def, step.id) == Some(step)
    requires db.nextId in Enter(db, iid, mem, step).execs
    requires Leaves(PlanOf(env, Enter(db, iid, mem, step), iid, Entered(mem, step), step, db.nextId), d, m)
    ensures Done(env, db, iid, mem, n, ids0, d, m) && ExecOf(d.execs, db.nextId, iid, step) && db.nextId < d.nextId
  {
    hide Adds, Enter, PlanOf, FindStep, Entering, Anew, WithStep;
    var db1, mem1 := Enter(db, iid, mem, step), Entered(mem, step);
    EnterAdds(env, db, iid, mem, step);
    AddsMore(env, mem.def, iid, db, db1);
    EnterExecOf(db, iid, mem, step);
    StageAdds(env, db1, iid, mem1, step, db.nextId, d, m);
    StageCurrent(env, db1, iid, mem1, step, db.nextId, d, m);
    ExecStays(env, mem.def, db1, d, db.nextId, iid, step);
    AddsTransitive(env, mem.def, iid, db, db1, d);
    TracksStay(env, mem.def, db, d, n, iid, mem.current, ids0);
    FirstAnew(db, d, iid, step);
    AnewEarlier(d, n, db.nextId, iid, step.id);
  }

  lemma DoneAfter(env: Env, db: Db, iid: Id, mem: Instance, step: Step, n: Id, ids0: seq<string>, db2: Db, mem2: Instance, d: Db, m: Instance)
    requires Done(env, db, iid, mem, n, ids0, db2, mem2) && Done(env, db2, iid, mem2, n, ids0, d, m)
    requires ExecOf(db2.execs, db.nextId, iid, step) && db.nextId < db2.nextId
    ensures Done(env, db, iid, mem, n, ids0, d, m) && ExecOf(d.execs, db.nextId, iid, step) && db.nextId < d.nextId
  {
    hide Adds, Tracks;
    AddsTransitive(env, mem.def, iid, db, db2, d);
    ExecStays(env, mem.def, db2, d, db.nextId, iid, step);
  }

  lemma {:induction false} DispatchEffects(env: Env, depth: nat, db: Db, iid: Id, mem: Instance, stepId: string, n: Id, ids0: seq<string>)
    requires iid in db.instances && n <= db.nextId && Tracks(db, n, iid, mem.current, ids0)
    ensures var o := Dispatch(env, depth, db, iid, mem, stepId);
            o.Ok? ==> && FindStep(mem.def, stepId).Some? && ExecOf(o.db.execs, db.nextId, iid, FindStep(mem.def, stepId).value)
                      && Done(env, db, iid, mem, n, ids0, o.db, o.mem) && db.nextId < o.db.nextId
    decreases depth, 1
  {
    hide Route, PlanOf, Enter, Fork, Adds, Tracks, Anew;
    var found := FindStep(mem.def, stepId);
    if depth > 0 && found.Some? && Dispatch(env, depth, db, iid, mem, stepId).Ok? {
      var step := found.value;
      assert db.nextId in Enter(db, iid, mem, step).execs by { EnterHasExec(db, iid, mem, step); }
      var db1, mem1 := Enter(db, iid, mem, step), Entered(mem, step);
      RouteFollowsPlan(env, depth, db1, iid, mem1, step, db.nextId);
      hide FindStep;
      var plan := PlanOf(env, db1, iid, mem1, step, db.nextId);
      var o := Dispatch(env, depth, db, iid, mem, stepId);
      match plan {
        case Stop(o1) =>
          StageTracks(env, db, iid, mem, step, n, ids0, o.db, o.mem);
        case Go(db2, mem2, next) =>
          StageTracks(env, db, iid, mem, step, n, ids0, db2, mem2);
          DispatchEffects(env, depth - 1, db2, iid, mem2, next, n, ids0);
          DoneAfter(env, db, iid, mem, step, n, ids0, db2, mem2, o.db, o.mem);
        case Split(db2, mem2, branches) =>
          StageTracks(env, db, iid, mem, step, n, ids0, db2, mem2);
          ForkEffects(env, depth, db2, iid, mem2, branches, n, ids0);
          DoneAfter(env, db, iid, mem, step, n, ids0, db2, mem2, o.db, o.mem);
      }
    }
  }

  /** Every branch has an execution from `n` on, in the order of the list. */
  ghost predicate EnteredInTurn(db: Db, n: Id, iid: Id, branches: seq<string>) {
    exists es: seq<Id> :: InTurn(db, n, iid, branches, es)
  }

  ghost predicate InTurn(db: Db, n: Id, iid: Id, branches: seq<string>, es: seq<Id>) {
    && |es| == |branches| && (forall j, k :: 0 <= j < k < |es| ==> es[j] < es[k])
    && forall k :: 0 <= k < |es| ==>
         n <= es[k] < db.nextId && es[k] in db.execs && db.execs[es[k]].inst == iid && db.execs[es[k]].stepId == branches[k]
  }

  lemma NoneEntered(db: Db, n: Id, iid: Id)
    ensures EnteredInTurn(db, n, iid, [])
  {
    assert InTurn(db, n, iid, [], []);
  }

  lemma NextEntered(db: Db, n: Id, k: Id, iid: Id, branches: seq<string>)
    requires branches != [] && n < k <= db.nextId && EnteredInTurn(db, k, iid, branches[1..])
    requires n in db.execs && db.execs[n].inst == iid && db.execs[n].stepId == branches[0]
    ensures EnteredInTurn(db, n, iid, branches)
  {
    var es: seq<Id> :| InTurn(db, k, iid, branches[1..], es);
    assert InTurn(db, n, iid, branches, [n] + es);
  }

  lemma {:induction false} ForkEffects(env: Env, depth: nat, db: Db, iid: Id, mem: Instance, branches: seq<string>, n: Id, ids0: seq<string>)
    requires depth > 0 && iid in db.instances && n <= db.nextId
    requires Tracks(db, n, iid, mem.current, ids0) && Tracks(db, n, iid, db.instances[iid].current, ids0)
    ensures var o := Fork(env, depth, db, iid, mem, branches);
            o.Ok? ==> Done(env, db, iid, mem, n, ids0, o.db, o.mem) && EnteredInTurn(o.db, db.nextId, iid, branches)
    decreases depth, 0, |branches|
  {
    hide Dispatch, Adds, Tracks, FindStep, EnteredInTurn;
    var o := Fork(env, depth, db, iid, mem, branches);
    if branches == [] {
      AddsReflexive(env, mem.def, iid, db);
      NoneEntered(db, db.nextId, iid);
    } else if o.Ok? {
      DispatchEffects(env, depth - 1, db, iid, mem, branches[0], n, ids0);
      var o1 := Dispatch(env, depth - 1, db, iid, mem, branches[0]);
      AddsMore(env, mem.def, iid, db, o1.db);
      ForkEffects(env, depth, o1.db, iid, o1.mem, branches[1..], n, ids0);
      AddsTransitive(env, mem.def, iid, db, o1.db, o.db);
      ExecStays(env, mem.def, o1.db, o.db, db.nextId, iid, FindStep(mem.def, branches[0]).value);
      AddsMore(env, mem.def, iid, o1.db, o.db);
      NextEntered(o.db, db.nextId, o1.db.nextId, iid, branches);
    }
  }

  lemma AddsMore(env: Env, def: Definition, iid: Id, a: Db, b: Db)
    requires Adds(env, def, iid, a, b)
    ensures a.nextId <= b.nextId && a.instances.Keys == b.instances.Keys
  {
  }

  lemma FirstAnew(a: Db, b: Db, iid: Id, step: Step)
    requires ExecOf(b.execs, a.nextId, iid, step) && a.nextId < b.nextId
    ensures Anew(b, a.nextId, iid, step.id)
  {
  }

  lemma AnewEarlier(db: Db, n: Id, k: Id, iid: Id, id: string)
    requires n <= k && Anew(db, k, iid, id)
    ensures Anew(db, n, iid, id)
  {
  }

  lemma EnterCarries(x: string, db: Db, iid: Id, mem: Instance, step: Step)
    requires iid in db.instances
    ensures Carries(x, iid, db, mem, Enter(db, iid, mem, step), Entered(mem, step))
    ensures iid in Enter(db, iid, mem, step).instances
  {
    hide Enter, ExecsOf, WithStep;
    EnterRows(db, iid, mem, step);
  }

  lemma CarriesRow(x: string, iid: Id, a: Db, mem: Instance, b: Db, m: Instance)
    requires Carries(x, iid, a, mem, b, m) && iid in a.instances
    ensures iid in b.instances && m.def == mem.def
  {
  }

  /** What no step on the way writes keeps its value, in memory, in the row, in new jobs and requests. */
  lemma {:induction false} DispatchCarries(env: Env, x: string, depth: nat, db: Db, iid: Id, mem: Instance, stepId: string)
    requires iid in db.instances && Untouched(mem.def, stepId, x)
    ensures var o := Dispatch(env, depth, db, iid, mem, stepId); o.Ok? ==> Carries(x, iid, db, mem, o.db, o.mem)
    decreases depth, 1
  {
    hide Route, PlanOf, Enter, Fork, Carries, Untouched, Writes, Handovers;
    var found := FindStep(mem.def, stepId);
    if depth > 0 && found.Some? && Dispatch(env, depth, db, iid, mem, stepId).Ok? {
      var step, o := found.value, Dispatch(env, depth, db, iid, mem, stepId);
      assert db.nextId in Enter(db, iid, mem, step).execs by { EnterHasExec(db, iid, mem, step); }
      var db1, mem1 := Enter(db, iid, mem, step), Entered(mem, step);
      RouteFollowsPlan(env, depth, db1, iid, mem1, step, db.nextId);
      PlanHandsOver(env, db1, iid, mem1, step, db.nextId);
      UntouchedHere(mem.def, stepId, x);
      hide FindStep, WithStep;
      EnterCarries(x, db, iid, mem, step);
      match PlanOf(env, db1, iid, mem1, step, db.nextId) {
        case Stop(_) =>
          StageCarries(env, x, db1, iid, mem1, step, db.nextId, o.db, o.mem);
          CarriesTransitive(x, iid, db, mem, db1, mem1, o.db, o.mem);
        case Go(db2, mem2, next) =>
          StageCarries(env, x, db1, iid, mem1, step, db.nextId, db2, mem2);
          CarriesTransitive(x, iid, db, mem, db1, mem1, db2, mem2);
          CarriesRow(x, iid, db, mem, db2, mem2);
          DispatchCarries(env, x, depth - 1, db2, iid, mem2, next);
          CarriesTransitive(x, iid, db, mem, db2, mem2, o.db, o.mem);
        case Split(db2, mem2, branches) =>
          StageCarries(env, x, db1, iid, mem1, step, db.nextId, db2, mem2);
          CarriesTransitive(x, iid, db, mem, db1, mem1, db2, mem2);
          CarriesRow(x, iid, db, mem, db2, mem2);
          ForkCarries(env, x, depth, db2, iid, mem2, branches);
          CarriesTransitive(x, iid, db, mem, db2, mem2, o.db, o.mem);
      }
    }
  }

  lemma {:induction false} ForkCarries(env: Env, x: string, depth: nat, db: Db, iid: Id, mem: Instance, branches: seq<string>)
    requires depth > 0 && iid in db.instances && forall b :: b in branches ==> Untouched(mem.def, b, x)
    ensures var o := Fork(env, depth, db, iid, mem, branches); o.Ok? ==> Carries(x, iid, db, mem, o.db, o.mem)
    decreases depth, 0, |branches|
  {
    hide Dispatch, Carries, Untouched;
    var o := Fork(env, depth, db, iid, mem, branches);
    if branches == [] {
      QuietCarries(x, iid, db, mem, db, mem);
    } else if o.Ok? {
      assert branches[0] in branches;
      DispatchCarries(env, x, depth - 1, db, iid, mem, branches[0]);
      var o1 := Dispatch(env, depth - 1, db, iid, mem, branches[0]);
      CarriesRow(x, iid, db, mem, o1.db, o1.mem);
      ForkCarries(env, x, depth, o1.db, iid, o1.mem, branches[1..]);
      CarriesTransitive(x, iid, db, mem, o1.db, o1.mem, o.db, o.mem);
    }
  }
}
