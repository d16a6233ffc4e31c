/**
 A join goes on at most once: for one instance, a gateway that is entered once, its join, and
 distinct single-step branches entered only from the gateway and leading only to the join.
 */
module JoinOnce {
  import opened Values
  import opened Definitions
  import opened Database
  import opened Interpreter
  import opened Transactions
  import opened Invariants
  import opened Evolution
  import opened EventProofs
  import opened Plans
  import opened Joins
  import EngineTheorems
  import Resolution
  import Transformations

  /** The instance, its definition, the gateway and the join it names. */
  datatype Shape = Shape(iid: Id, def: Definition, gateway: Step, join: string)
  {
    function Entries(): seq<string> { gateway.parallelNextSteps }

    predicate Guarded(id: string) { id == join || id in Entries() }
  }

  /** Everything a step may be followed by, timers aside. */
  function Refs(step: Step): seq<string> {
    Handovers(step) + if Parked(step.typ) then Resolution.Followers(step) else []
  }

  predicate Single(sh: Shape, step: Step) {
    step.typ != ParallelGateway && step.typ != JoinGateway && forall id :: id in Refs(step) ==> id == sh.join
  }

  ghost predicate WellShaped(sh: Shape) {
    && sh.def.steps != [] && !sh.Guarded(sh.def.steps[0].id)
    && FindStep(sh.def, sh.gateway.id) == Some(sh.gateway) && sh.gateway.typ == ParallelGateway
    && GatewayFor(sh.def, sh.join) == Some(sh.gateway)
    && NoDup(sh.Entries()) && sh.join !in sh.Entries()
    && (forall s :: s in sh.def.steps ==>
          && (s.id == sh.join ==> s.typ == JoinGateway)
          && (s.id in sh.Entries() ==> Single(sh, s))
          && (s.id !in sh.Entries() ==> sh.join !in Refs(s))
          && (s.id != sh.gateway.id ==> forall id :: id in Refs(s) ==> id !in sh.Entries())
          && (forall be :: be in s.boundaryEvents ==> !sh.Guarded(be.target)))
  }

  // ---- the state of one fork and join ----

  function Of(execs: Execs, iid: Id, id: string): set<Id> {
    set e | e in execs && execs[e].inst == iid && execs[e].stepId == id
  }

  /** Attempts are numbered, and only the newest execution can be other than FAILED. */
  ghost predicate Line(execs: Execs, iid: Id, b: string) {
    forall e :: e in Of(execs, iid, b) ==>
      && execs[e].attempt <= |Of(execs, iid, b)|
      && (execs[e].status != Faulted ==> forall x :: x in Of(execs, iid, b) && x != e ==> execs[x].attempt < execs[e].attempt)
  }

  ghost predicate Free(execs: Execs, iid: Id, b: string) {
    forall e :: e in Of(execs, iid, b) ==> execs[e].status == Faulted
  }

  ghost predicate AllDone(execs: Execs, iid: Id, id: string) {
    forall e :: e in Of(execs, iid, id) ==> execs[e].status == Succeeded
  }

  ghost predicate NoPass(sh: Shape, execs: Execs, passed: set<Id>) {
    forall e :: e in passed ==> e !in Of(execs, sh.iid, sh.join)
  }

  ghost predicate OnePass(sh: Shape, execs: Execs, passed: set<Id>) {
    forall e, f :: e in passed && f in passed && e in Of(execs, sh.iid, sh.join) && f in Of(execs, sh.iid, sh.join) ==> e == f
  }

  ghost predicate Fact(sh: Shape, execs: Execs, passed: set<Id>) {
    && (forall b :: b in sh.Entries() ==> Line(execs, sh.iid, b))
    && (Of(execs, sh.iid, sh.gateway.id) == {} ==> forall b :: b in sh.Entries() ==> Of(execs, sh.iid, b) == {})
    && AllDone(execs, sh.iid, sh.join)
    && (NoPass(sh, execs, passed) || forall b :: b in sh.Entries() ==> Done(execs, sh.iid, b))
    && OnePass(sh, execs, passed)
  }

  /** The number of times the gateway was entered. */
  function Entered(sh: Shape, execs: Execs): nat {
    |Of(execs, sh.iid, sh.gateway.id)|
  }

  ghost predicate JoinOk(sh: Shape, execs: Execs, passed: set<Id>) {
    Entered(sh, execs) <= 1 ==> Fact(sh, execs, passed)
  }

  /** What must hold when step `id` of instance `iid` is dispatched. */
  ghost predicate Allowed(sh: Shape, execs: Execs, passed: set<Id>, iid: Id, id: string) {
    iid == sh.iid && Entered(sh, execs) <= 1 ==>
      && (id == sh.join ==> NoPass(sh, execs, passed))
      && (id in sh.Entries() ==> Entered(sh, execs) == 1 && Free(execs, iid, id))
  }

  // ---- closing executions ----

  lemma OfClosed(a: Execs, b: Execs, iid: Id, id: string)
    requires ClosedExecs(a, b)
    ensures Of(b, iid, id) == Of(a, iid, id)
  {
  }

  lemma LineClosed(a: Execs, b: Execs, iid: Id, id: string)
    requires ClosedExecs(a, b) && Line(a, iid, id)
    ensures Line(b, iid, id)
  {
    OfClosed(a, b, iid, id);
    hide Of;
    forall e | e in Of(b, iid, id)
      ensures b[e].attempt <= |Of(b, iid, id)|
              && (b[e].status != Faulted ==> forall x :: x in Of(b, iid, id) && x != e ==> b[x].attempt < b[e].attempt)
    {
      InOf(a, iid, id, e);
      forall x | x in Of(b, iid, id) ensures x in a {
        InOf(a, iid, id, x);
      }
    }
  }

  lemma InOf(execs: Execs, iid: Id, id: string, e: Id)
    ensures e in Of(execs, iid, id) <==> e in execs && execs[e].inst == iid && execs[e].stepId == id
  {
  }

  lemma ClosedIsEvolved(a: Execs, b: Execs)
    requires ClosedExecs(a, b)
    ensures ExecsEvolve(a, b)
  {
  }

  lemma AllDoneClosed(a: Execs, b: Execs, iid: Id, id: string)
    requires ClosedExecs(a, b) && AllDone(a, iid, id)
    ensures AllDone(b, iid, id)
  {
    OfClosed(a, b, iid, id);
  }

  lemma FactClosed(sh: Shape, a: Execs, b: Execs, passed: set<Id>)
    requires ClosedExecs(a, b) && Fact(sh, a, passed)
    ensures Fact(sh, b, passed)
  {
    hide Of, Line, Done, ExecsEvolve, AllDone;
    OfClosed(a, b, sh.iid, sh.gateway.id);
    OfClosed(a, b, sh.iid, sh.join);
    ClosedIsEvolved(a, b);
    forall x | x in sh.Entries() ensures Line(b, sh.iid, x) && (Done(a, sh.iid, x) ==> Done(b, sh.iid, x)) && Of(b, sh.iid, x) == Of(a, sh.iid, x) {
      LineClosed(a, b, sh.iid, x);
      OfClosed(a, b, sh.iid, x);
      if Done(a, sh.iid, x) {
        DoneStays(a, b, sh.iid, x);
      }
    }
    AllDoneClosed(a, b, sh.iid, sh.join);
  }

  lemma JoinOkClosed(sh: Shape, a: Execs, b: Execs, passed: set<Id>)
    requires ClosedExecs(a, b) && JoinOk(sh, a, passed)
    ensures JoinOk(sh, b, passed) && Entered(sh, b) == Entered(sh, a)
  {
    hide Fact, Of, ClosedExecs;
    OfClosed(a, b, sh.iid, sh.gateway.id);
    if Entered(sh, b) <= 1 {
      FactClosed(sh, a, b, passed);
    }
  }

  // ---- entering a step ----

  lemma OfInserted(execs: Execs, n: Id, row: Exec, iid: Id, id: string)
    requires n !in execs
    ensures row.inst == iid && row.stepId == id ==> Of(execs[n := row], iid, id) == Of(execs, iid, id) + {n}
    ensures !(row.inst == iid && row.stepId == id) ==> Of(execs[n := row], iid, id) == Of(execs, iid, id)
    ensures n !in Of(execs, iid, id)
  {
  }

  lemma LineInserted(execs: Execs, n: Id, row: Exec, iid: Id, b: string)
    requires n !in execs && Line(execs, iid, b)
    requires row.inst == iid && row.stepId == b ==> Free(execs, iid, b) && row.attempt == |Of(execs, iid, b)| + 1
    ensures Line(execs[n := row], iid, b)
  {
    OfInserted(execs, n, row, iid, b);
    var now, was := Of(execs[n := row], iid, b), Of(execs, iid, b);
    forall e | e in now
      ensures execs[n := row][e].attempt <= |now|
              && (execs[n := row][e].status != Faulted ==> forall x :: x in now && x != e ==> execs[n := row][x].attempt < execs[n := row][e].attempt)
    {
      if e != n {
        assert e in was;
      }
    }
  }

  lemma DoneInserted(execs: Execs, n: Id, row: Exec, iid: Id, b: string)
    requires n !in execs && Done(execs, iid, b)
    ensures Done(execs[n := row], iid, b)
  {
    var e :| e in execs && execs[e].inst == iid && execs[e].stepId == b && execs[e].status == Succeeded;
    assert execs[n := row][e] == execs[e];
  }

  lemma AllDoneInserted(execs: Execs, n: Id, row: Exec, iid: Id, id: string)
    requires n !in execs && AllDone(execs, iid, id) && (row.inst == iid && row.stepId == id ==> row.status == Succeeded)
    ensures AllDone(execs[n := row], iid, id)
  {
    OfInserted(execs, n, row, iid, id);
    var e1 := execs[n := row];
    forall e | e in Of(e1, iid, id) ensures e1[e].status == Succeeded {
      assert e == n || e in Of(execs, iid, id);
    }
  }

  /** A new execution of a step other than the join keeps the facts. */
  lemma FactInserted(sh: Shape, execs: Execs, n: Id, row: Exec, passed: set<Id>)
    requires n !in execs && n !in passed && Fact(sh, execs, passed) && sh.gateway.id !in sh.Entries()
    requires row.inst == sh.iid && row.stepId == sh.join ==> row.status == Succeeded
    requires row.inst == sh.iid && row.stepId in sh.Entries() ==>
               Free(execs, sh.iid, row.stepId) && row.attempt == |Of(execs, sh.iid, row.stepId)| + 1 && Of(execs, sh.iid, sh.gateway.id) != {}
    ensures Fact(sh, execs[n := row], passed)
  {
    hide Of, Line, Done, Free, AllDone;
    OfInserted(execs, n, row, sh.iid, sh.gateway.id);
    OfInserted(execs, n, row, sh.iid, sh.join);
    forall x | x in sh.Entries() ensures Line(execs[n := row], sh.iid, x) && (Done(execs, sh.iid, x) ==> Done(execs[n := row], sh.iid, x)) {
      LineInserted(execs, n, row, sh.iid, x);
      if Done(execs, sh.iid, x) {
        DoneInserted(execs, n, row, sh.iid, x);
      }
    }
    forall x | x in sh.Entries() && Of(execs[n := row], sh.iid, sh.gateway.id) == {} ensures Of(execs[n := row], sh.iid, x) == {} {
      OfInserted(execs, n, row, sh.iid, x);
    }
    AllDoneInserted(execs, n, row, sh.iid, sh.join);
    PassesKept(sh, execs, n, row, passed);
  }

  lemma PassesKept(sh: Shape, execs: Execs, n: Id, row: Exec, passed: set<Id>)
    requires n !in execs && n !in passed
    ensures NoPass(sh, execs, passed) ==> NoPass(sh, execs[n := row], passed)
    ensures OnePass(sh, execs, passed) ==> OnePass(sh, execs[n := row], passed)
  {
    hide Of;
    OfInserted(execs, n, row, sh.iid, sh.join);
  }

  /** The new execution `n` goes on. */
  lemma FactPassed(sh: Shape, execs: Execs, n: Id, passed: set<Id>)
    requires Fact(sh, execs, passed) && n in execs
    requires n in Of(execs, sh.iid, sh.join) ==> NoPass(sh, execs, passed) && forall b :: b in sh.Entries() ==> Done(execs, sh.iid, b)
    ensures Fact(sh, execs, passed + {n})
  {
    hide Of, Line, Done;
  }

  // ---- the effect of one handler ----

  lemma Shaped(sh: Shape, step: Step)
    requires WellShaped(sh) && step in sh.def.steps
    ensures sh.gateway.id !in sh.Entries()
    ensures step.id == sh.join ==> step.typ == JoinGateway
    ensures step.id in sh.Entries() ==> Single(sh, step)
    ensures step.id !in sh.Entries() ==> sh.join !in Refs(step)
    ensures step.id != sh.gateway.id ==> forall id :: id in Refs(step) ==> id !in sh.Entries()
    ensures forall be :: be in step.boundaryEvents ==> !sh.Guarded(be.target)
  {
    hide Refs, GatewayFor;
    assert sh.gateway in sh.def.steps;
  }

  lemma FreeMeans(sh: Shape, execs: Execs, passed: set<Id>, b: string)
    requires Fact(sh, execs, passed) && b in sh.Entries() && Free(execs, sh.iid, b)
    ensures NoPass(sh, execs, passed)
  {
    hide Line, OnePass, AllDone;
  }

  /** No entry of this step, or an allowed one. */
  ghost predicate EntryOk(sh: Shape, db: Db, iid: Id, step: Step) {
    && (iid == sh.iid ==> FindStep(sh.def, step.id) == Some(step))
    && Allowed(sh, db.execs, db.passed, iid, step.id)
  }

  lemma GatewayOf(sh: Shape, execs: Execs)
    requires WellShaped(sh) && MayPass(sh.def, execs, sh.iid, sh.join)
    ensures forall b :: b in sh.Entries() ==> Done(execs, sh.iid, b)
  {
    hide Done, GatewayFor, Refs;
  }

  lemma ExecsByRow(db: Db, execs: Execs, iid: Id, step: Step)
    requires ExecsBy(db, execs, iid, step)
    ensures step.typ == JoinGateway ==> execs == db.execs[db.nextId := NewRow(db, iid, step, Succeeded)]
    ensures ClosedExecs(db.execs[db.nextId := NewRow(db, iid, step, Running)], execs)
    ensures db.nextId in execs && execs[db.nextId].inst == iid && execs[db.nextId].stepId == step.id
  {
    assert db.nextId in db.execs[db.nextId := NewRow(db, iid, step, Running)];
  }

  lemma ExecsOfIsOf(db: Db, iid: Id, id: string)
    ensures ExecsOf(db, iid, id) == Of(db.execs, iid, id)
  {
  }

  /** Executions after the handler, join history aside. */
  lemma EffectFact(sh: Shape, db: Db, execs: Execs, iid: Id, step: Step)
    requires WellShaped(sh) && ExecsBy(db, execs, iid, step) && EntryOk(sh, db, iid, step)
    requires db.nextId !in db.execs && db.nextId !in db.passed && JoinOk(sh, db.execs, db.passed)
    ensures JoinOk(sh, execs, db.passed)
    ensures iid == sh.iid && step.id == sh.gateway.id ==> Entered(sh, execs) == Entered(sh, db.execs) + 1
    ensures !(iid == sh.iid && step.id == sh.gateway.id) ==> Entered(sh, execs) == Entered(sh, db.execs)
  {
    hide Of, Fact, Free, NoPass, GatewayFor, ExecsBy, ClosedExecs, WellShaped, FindStep;
    var n := db.nextId;
    var row := NewRow(db, iid, step, if step.typ == JoinGateway then Succeeded else Running);
    ExecsByRow(db, execs, iid, step);
    ExecsOfIsOf(db, iid, step.id);
    OfInserted(db.execs, n, row, sh.iid, sh.gateway.id);
    if iid == sh.iid {
      StepIn(sh.def, step);
      Shaped(sh, step);
    } else {
      StepIn(sh.def, sh.gateway);
      GatewayIn(sh);
      Shaped(sh, sh.gateway);
    }
    if Entered(sh, db.execs[n := row]) <= 1 {
      EnteredOnce(sh, db.execs);
      FactInserted(sh, db.execs, n, row, db.passed);
    }
    if step.typ != JoinGateway {
      JoinOkClosed(sh, db.execs[n := row], execs, db.passed);
    }
  }

  lemma StepIn(def: Definition, step: Step)
    ensures FindStep(def, step.id) == Some(step) ==> step in def.steps
  {
  }

  lemma GatewayIn(sh: Shape)
    requires WellShaped(sh)
    ensures FindStep(sh.def, sh.gateway.id) == Some(sh.gateway)
  {
    hide Refs, GatewayFor;
  }

  lemma EnteredOnce(sh: Shape, execs: Execs)
    ensures Entered(sh, execs) == 1 ==> Of(execs, sh.iid, sh.gateway.id) != {}
  {
  }

  // ---- user tasks and timers ----

  predicate IsUserTask(def: Definition, id: string) {
    FindStep(def, id).Some? && FindStep(def, id).value.typ == UserTask
  }

  /** An open task of a branch step belongs to a RUNNING execution of that step. */
  ghost predicate TasksRun(sh: Shape, execs: Execs, tasks: map<Id, UserTaskRow>) {
    forall t :: t in tasks && tasks[t].inst == sh.iid && tasks[t].stepId in sh.Entries() ==>
      && IsUserTask(sh.def, tasks[t].stepId)
      && (tasks[t].status == Open ==> tasks[t].exec in Of(execs, sh.iid, tasks[t].stepId) && execs[tasks[t].exec].status == Running)
  }

  ghost predicate TimersAvoid(sh: Shape, timers: map<Id, Timer>) {
    forall t :: t in timers && timers[t].inst == sh.iid ==> !sh.Guarded(timers[t].target)
  }

  lemma TasksEffect(sh: Shape, db: Db, db2: Db, iid: Id, step: Step)
    requires TasksRun(sh, db.execs, db.tasks) && db.nextId !in db.execs && (iid == sh.iid ==> FindStep(sh.def, step.id) == Some(step))
    requires ExecsBy(db, db2.execs, iid, step) && TasksBy(db.tasks, db2.tasks, iid, step, db.nextId, db2.execs)
    ensures TasksRun(sh, db2.execs, db2.tasks)
  {
    hide FindStep;
    ExecsByRow(db, db2.execs, iid, step);
    forall t | t in db2.tasks && db2.tasks[t].inst == sh.iid && db2.tasks[t].stepId in sh.Entries()
      ensures IsUserTask(sh.def, db2.tasks[t].stepId)
      ensures db2.tasks[t].status == Open ==>
                db2.tasks[t].exec in Of(db2.execs, sh.iid, db2.tasks[t].stepId) && db2.execs[db2.tasks[t].exec].status == Running
    {
      if t in db.tasks && db2.tasks[t] == db.tasks[t] && db2.tasks[t].status == Open {
        var e := db.tasks[t].exec;
        assert e in db.execs && e != db.nextId;
        assert db.execs[db.nextId := NewRow(db, iid, step, Running)][e] == db.execs[e];
      }
    }
  }

  lemma TimersEffect(sh: Shape, db: Db, db2: Db, iid: Id, step: Step)
    requires WellShaped(sh) && TimersAvoid(sh, db.timers) && (iid == sh.iid ==> FindStep(sh.def, step.id) == Some(step))
    requires TimersBy(db.timers, db2.timers, iid, step)
    ensures TimersAvoid(sh, db2.timers)
  {
    hide FindStep, WellShaped;
    if iid == sh.iid {
      StepIn(sh.def, step);
      Shaped(sh, step);
    }
  }

  // ---- one dispatch ----

  ghost predicate Pre(sh: Shape, db: Db) {
    && Below(db.execs, db.nextId) && db.passed <= db.execs.Keys
    && JoinOk(sh, db.execs, db.passed) && TasksRun(sh, db.execs, db.tasks) && TimersAvoid(sh, db.timers)
  }

  /** Entries other than `busy` that were free stay free while the gateway is not entered again. */
  ghost predicate StaysFree(sh: Shape, a: Execs, b: Execs, busy: set<string>) {
    && Entered(sh, a) <= Entered(sh, b)
    && (1 <= Entered(sh, a) && Entered(sh, b) <= 1 ==>
          forall x :: x in sh.Entries() && x !in busy && Free(a, sh.iid, x) ==> Free(b, sh.iid, x))
  }

  lemma FreeEffect(sh: Shape, db: Db, execs: Execs, iid: Id, step: Step, x: string)
    requires ExecsBy(db, execs, iid, step) && db.nextId !in db.execs && Free(db.execs, sh.iid, x) && (iid != sh.iid || x != step.id)
    ensures Free(execs, sh.iid, x)
  {
    var mid := db.execs[db.nextId := NewRow(db, iid, step, Running)];
    forall e | e in Of(execs, sh.iid, x) ensures execs[e].status == Faulted {
      assert e in mid && mid[e].inst == sh.iid && mid[e].stepId == x;
      assert e in Of(db.execs, sh.iid, x);
    }
  }

  lemma PassedFact(sh: Shape, db: Db, db2: Db, iid: Id, step: Step)
    requires WellShaped(sh) && EntryOk(sh, db, iid, step) && db.nextId !in db.execs && db.passed <= db.execs.Keys
    requires ExecsBy(db, db2.execs, iid, step) && db2.passed == db.passed + {db.nextId} && step.typ == JoinGateway
    requires iid == sh.iid ==> MayPass(sh.def, db.execs, iid, step.id)
    requires Entered(sh, db.execs) <= 1 && Fact(sh, db2.execs, db.passed)
    ensures Fact(sh, db2.execs, db2.passed)
  {
    hide Of, Fact, WellShaped, MayPass, Done, NoPass;
    ExecsByRow(db, db2.execs, iid, step);
    var n := db.nextId;
    InOf(db2.execs, sh.iid, sh.join, n);
    if iid == sh.iid && step.id == sh.join {
      GatewayOf(sh, db.execs);
      PassesKept(sh, db.execs, n, NewRow(db, iid, step, Succeeded), db.passed);
      forall b | b in sh.Entries() ensures Done(db2.execs, sh.iid, b) {
        DoneInserted(db.execs, n, NewRow(db, iid, step, Succeeded), sh.iid, b);
      }
    }
    FactPassed(sh, db2.execs, n, db.passed);
  }

  /** Entering a step and running its handler keeps everything about the fork and join. */
  lemma EffectKeeps(sh: Shape, db: Db, db2: Db, def: Definition, iid: Id, step: Step)
    requires WellShaped(sh) && Pre(sh, db) && Effect(db, db2, def, iid, step) && EntryOk(sh, db, iid, step) && (iid == sh.iid ==> def == sh.def)
    ensures Pre(sh, db2)
    ensures StaysFree(sh, db.execs, db2.execs, if iid == sh.iid then {step.id} else {})
    ensures iid == sh.iid && step.id == sh.gateway.id ==> Entered(sh, db2.execs) == Entered(sh, db.execs) + 1
    ensures !(iid == sh.iid && step.id == sh.gateway.id) ==> Entered(sh, db2.execs) == Entered(sh, db.execs)
  {
    hide Of, Fact, WellShaped, Free, NoPass, ExecsBy, TasksRun, TimersAvoid, TasksBy, TimersBy, MayPass, FindStep, ClosedExecs;
    EffectEvolves(db, db2, def, iid, step);
    EffectFact(sh, db, db2.execs, iid, step);
    TasksEffect(sh, db, db2, iid, step);
    TimersEffect(sh, db, db2, iid, step);
    ExecsByRow(db, db2.execs, iid, step);
    if db2.passed != db.passed && Entered(sh, db2.execs) <= 1 {
      PassedFact(sh, db, db2, iid, step);
    }
    forall x | x in sh.Entries() && (iid != sh.iid || x != step.id) && Free(db.execs, sh.iid, x) ensures Free(db2.execs, sh.iid, x) {
      FreeEffect(sh, db, db2.execs, iid, step, x);
    }
  }

  lemma NoPassEvolves(sh: Shape, a: Execs, b: Execs, passed: set<Id>)
    requires NoPass(sh, a, passed) && ExecsEvolve(a, b) && passed <= a.Keys
    ensures NoPass(sh, b, passed)
  {
  }

  /** A step that hands over to one other step may do so. */
  lemma GoAllowed(sh: Shape, db: Db, db2: Db, def: Definition, iid: Id, step: Step, next: string)
    requires WellShaped(sh) && Pre(sh, db) && Effect(db, db2, def, iid, step) && EntryOk(sh, db, iid, step) && (iid == sh.iid ==> def == sh.def)
    requires next in Handovers(step) && step.typ != ParallelGateway
    ensures Allowed(sh, db2.execs, db2.passed, iid, next)
  {
    hide Of, Fact, WellShaped, Free, NoPass, ExecsBy, TasksRun, TimersAvoid, TasksBy, TimersBy, MayPass, FindStep, ExecsEvolve, Handovers;
    EffectKeeps(sh, db, db2, def, iid, step);
    if iid == sh.iid {
      StepIn(sh.def, step);
      Shaped(sh, step);
      assert next in Refs(step);
      GatewayIsGateway(sh);
      if step.id in sh.Entries() && Entered(sh, db2.execs) <= 1 {
        FreeMeans(sh, db.execs, db.passed, step.id);
        EffectEvolves(db, db2, def, iid, step);
        NoPassEvolves(sh, db.execs, db2.execs, db.passed);
      }
    }
  }

  lemma GatewayIsGateway(sh: Shape)
    requires WellShaped(sh)
    ensures FindStep(sh.def, sh.gateway.id) == Some(sh.gateway) && sh.gateway.typ == ParallelGateway
  {
    hide Refs, GatewayFor;
  }

  /** What the branch loop may dispatch. */
  ghost predicate ForkOk(sh: Shape, execs: Execs, iid: Id, branches: seq<string>) {
    iid == sh.iid ==>
      || (forall b :: b in branches ==> !sh.Guarded(b))
      || (NoDup(branches) && (forall b :: b in branches ==> b in sh.Entries() && b != sh.join)
          && (Entered(sh, execs) <= 1 ==> Entered(sh, execs) == 1 && forall b :: b in branches ==> Free(execs, iid, b)))
  }

  lemma SplitAllowed(sh: Shape, db: Db, db2: Db, def: Definition, iid: Id, step: Step)
    requires WellShaped(sh) && Pre(sh, db) && Effect(db, db2, def, iid, step) && EntryOk(sh, db, iid, step) && (iid == sh.iid ==> def == sh.def)
    requires step.typ == ParallelGateway
    ensures ForkOk(sh, db2.execs, iid, Handovers(step))
  {
    hide Of, Fact, WellShaped, Free, NoPass, ExecsBy, TasksRun, TimersAvoid, TasksBy, TimersBy, MayPass, FindStep, ExecsEvolve;
    EffectKeeps(sh, db, db2, def, iid, step);
    if iid == sh.iid {
      StepIn(sh.def, step);
      Shaped(sh, step);
      GatewayIsGateway(sh);
      assert forall b :: b in Handovers(step) ==> b in Refs(step);
      if step.id == sh.gateway.id {
        EntriesShape(sh);
        if Entered(sh, db2.execs) <= 1 {
          forall b | b in sh.Entries() ensures Free(db2.execs, sh.iid, b) {
            EntriesUnentered(sh, db.execs, db.passed, b);
            FreeEffect(sh, db, db2.execs, iid, step, b);
          }
        }
      }
    }
  }

  lemma EntriesShape(sh: Shape)
    requires WellShaped(sh)
    ensures NoDup(sh.Entries()) && sh.join !in sh.Entries() && Handovers(sh.gateway) == sh.Entries() && sh.gateway.id !in sh.Entries()
  {
    hide Refs, GatewayFor;
    assert sh.gateway in sh.def.steps;
  }

  lemma EntriesUnentered(sh: Shape, execs: Execs, passed: set<Id>, b: string)
    requires JoinOk(sh, execs, passed) && Entered(sh, execs) == 0 && b in sh.Entries()
    ensures Free(execs, sh.iid, b)
  {
    hide Line, Done, NoPass, OnePass, AllDone;
    assert Of(execs, sh.iid, sh.gateway.id) == {};
  }

  ghost predicate Post(sh: Shape, db: Db, o: Outcome, busy: set<string>) {
    o.Ok? ==> Pre(sh, o.db) && StaysFree(sh, db.execs, o.db.execs, busy)
  }

  function Busy(sh: Shape, iid: Id, ids: set<string>): set<string> {
    if iid == sh.iid then ids else {}
  }

  lemma StaysFreeThrough(sh: Shape, a: Execs, b: Execs, c: Execs, busy: set<string>, busy': set<string>)
    requires StaysFree(sh, a, b, busy) && StaysFree(sh, b, c, busy')
    requires (forall x :: x in busy' && x in sh.Entries() ==> x in busy) || Entered(sh, a) < Entered(sh, b)
    ensures StaysFree(sh, a, c, busy)
  {
    hide Of, Free;
  }

  lemma NotEntries(sh: Shape, iid: Id, step: Step, next: string)
    requires WellShaped(sh) && (iid == sh.iid ==> FindStep(sh.def, step.id) == Some(step)) && next in Handovers(step)
    requires iid == sh.iid ==> step.id != sh.gateway.id
    ensures iid == sh.iid ==> next !in sh.Entries()
  {
    hide WellShaped, FindStep, Handovers;
    if iid == sh.iid {
      StepIn(sh.def, step);
      Shaped(sh, step);
      assert next in Refs(step);
    }
  }

  lemma {:induction false} DispatchJoins(env: Env, n: nat, db: Db, iid: Id, mem: Instance, stepId: string, sh: Shape)
    requires WellShaped(sh) && Pre(sh, db) && Allowed(sh, db.execs, db.passed, iid, stepId) && (iid == sh.iid ==> mem.def == sh.def)
    ensures Post(sh, db, Dispatch(env, n, db, iid, mem, stepId), Busy(sh, iid, {stepId}))
    decreases n, 1
  {
    hide Route, PlanOf, Enter, Handovers, Fork, Effect, WellShaped, Allowed, ForkOk, StaysFree, JoinOk, TasksRun, TimersAvoid;
    if n > 0 && FindStep(mem.def, stepId).Some? {
      var step := FindStep(mem.def, stepId).value;
      EnterHasExec(db, iid, mem, step);
      var db1, mem1 := Enter(db, iid, mem, step), Interpreter.Entered(mem, step);
      RouteFollowsPlan(env, n, db1, iid, mem1, step, db.nextId);
      PlanHandsOver(env, db1, iid, mem1, step, db.nextId);
      PlanHasEffect(env, db, iid, mem, step);
      match PlanOf(env, db1, iid, mem1, step, db.nextId)
      case Stop(o) =>
        if o.Ok? {
          EffectKeeps(sh, db, o.db, mem.def, iid, step);
        }
      case Go(db2, mem2, next) =>
        EffectKeeps(sh, db, db2, mem.def, iid, step);
        GoIsNotGateway(env, db1, iid, mem1, step, db.nextId);
        GoAllowed(sh, db, db2, mem.def, iid, step, next);
        GatewayIsGateway(sh);
        NotEntries(sh, iid, step, next);
        DispatchJoins(env, n - 1, db2, iid, mem2, next, sh);
        var o := Dispatch(env, n - 1, db2, iid, mem2, next);
        if o.Ok? {
          StaysFreeThrough(sh, db.execs, db2.execs, o.db.execs, Busy(sh, iid, {stepId}), Busy(sh, iid, {next}));
        }
      case Split(db2, mem2, branches) =>
        EffectKeeps(sh, db, db2, mem.def, iid, step);
        SplitIsGateway(env, db1, iid, mem1, step, db.nextId);
        SplitAllowed(sh, db, db2, mem.def, iid, step);
        ForkJoins(env, n, db2, iid, mem2, branches, sh);
        var o := Fork(env, n, db2, iid, mem2, branches);
        if o.Ok? {
          ForkBusy(sh, db, db2, iid, step);
          StaysFreeThrough(sh, db.execs, db2.execs, o.db.execs, Busy(sh, iid, {stepId}), Busy(sh, iid, set b | b in branches));
        }
    }
  }

  lemma GoIsNotGateway(env: Env, db: Db, iid: Id, mem: Instance, step: Step, exec: Id)
    requires exec in db.execs && !PlanOf(env, db, iid, mem, step, exec).Split?
    ensures step.typ != ParallelGateway
  {
    hide Route, TableOutcome, Transformations.Run, Choose, GatewayFor, CompletedLeafs;
  }

  lemma SplitIsGateway(env: Env, db: Db, iid: Id, mem: Instance, step: Step, exec: Id)
    requires exec in db.execs && PlanOf(env, db, iid, mem, step, exec).Split?
    ensures step.typ == ParallelGateway
  {
    hide Route, TableOutcome, Transformations.Run, Choose, GatewayFor, CompletedLeafs;
  }

  lemma ForkBusy(sh: Shape, db: Db, db2: Db, iid: Id, step: Step)
    requires WellShaped(sh) && (iid == sh.iid ==> FindStep(sh.def, step.id) == Some(step))
    requires iid == sh.iid && step.id == sh.gateway.id ==> Entered(sh, db2.execs) == Entered(sh, db.execs) + 1
    ensures (forall x :: x in Busy(sh, iid, set b | b in Handovers(step)) && x in sh.Entries() ==> x in Busy(sh, iid, {step.id}))
            || Entered(sh, db.execs) < Entered(sh, db2.execs)
  {
    hide WellShaped, FindStep, Handovers;
    if iid == sh.iid && step.id != sh.gateway.id {
      forall x | x in Handovers(step) ensures x !in sh.Entries() {
        NotEntries(sh, iid, step, x);
      }
    }
  }

  lemma NoDupTail(s: seq<string>)
    requires NoDup(s) && s != []
    ensures NoDup(s[1..]) && s[0] !in s[1..]
  {
  }

  lemma FirstAllowed(sh: Shape, db: Db, iid: Id, branches: seq<string>)
    requires ForkOk(sh, db.execs, iid, branches) && branches != []
    ensures Allowed(sh, db.execs, db.passed, iid, branches[0])
  {
    hide Of, Free, NoPass;
    assert branches[0] in branches;
  }

  /** After the first branch the others may still be dispatched. */
  lemma RestAllowed(sh: Shape, a: Execs, b: Execs, iid: Id, branches: seq<string>)
    requires ForkOk(sh, a, iid, branches) && branches != [] && StaysFree(sh, a, b, Busy(sh, iid, {branches[0]}))
    ensures ForkOk(sh, b, iid, branches[1..])
  {
    hide Of, Free, NoDup;
    var rest := branches[1..];
    assert forall x :: x in rest ==> x in branches;
    if iid == sh.iid && !(forall x :: x in branches ==> !sh.Guarded(x)) {
      NoDupTail(branches);
      if Entered(sh, b) <= 1 {
        forall x | x in rest ensures Free(b, iid, x) {
          assert x in branches && x != branches[0];
        }
      }
    }
  }

  lemma {:induction false} ForkJoins(env: Env, n: nat, db: Db, iid: Id, mem: Instance, branches: seq<string>, sh: Shape)
    requires n > 0 && WellShaped(sh) && Pre(sh, db) && ForkOk(sh, db.execs, iid, branches) && (iid == sh.iid ==> mem.def == sh.def)
    ensures Post(sh, db, Fork(env, n, db, iid, mem, branches), Busy(sh, iid, set b | b in branches))
    decreases n, 0, |branches|
  {
    hide Dispatch, WellShaped, Allowed, ForkOk, StaysFree, Pre;
    if branches == [] {
      StaysFreeSelf(sh, db.execs);
    } else {
      FirstAllowed(sh, db, iid, branches);
      DispatchJoins(env, n - 1, db, iid, mem, branches[0], sh);
      DispatchKeepsDef(env, n - 1, db, iid, mem, branches[0]);
      var o := Dispatch(env, n - 1, db, iid, mem, branches[0]);
      if o.Ok? {
        RestAllowed(sh, db.execs, o.db.execs, iid, branches);
        ForkJoins(env, n, o.db, iid, o.mem, branches[1..], sh);
        var o2 := Fork(env, n, o.db, iid, o.mem, branches[1..]);
        if o2.Ok? {
          var all := Busy(sh, iid, set b | b in branches);
          assert branches[0] in branches;
          Widen(sh, db.execs, o.db.execs, Busy(sh, iid, {branches[0]}), all);
          StaysFreeThrough(sh, db.execs, o.db.execs, o2.db.execs, all, Busy(sh, iid, set b | b in branches[1..]));
        }
      }
    }
  }

  lemma StaysFreeSelf(sh: Shape, a: Execs)
    ensures forall busy :: StaysFree(sh, a, a, busy)
  {
  }

  lemma Widen(sh: Shape, a: Execs, b: Execs, small: set<string>, large: set<string>)
    requires StaysFree(sh, a, b, small) && small <= large
    ensures StaysFree(sh, a, b, large)
  {
    hide Of, Free;
  }

  // ---- one transaction ----

  ghost predicate DefOk(sh: Shape, db: Db) {
    sh.iid in db.instances ==> db.instances[sh.iid].def == sh.def
  }

  ghost predicate JoinBody(sh: Shape, body: Body) {
    match body
    case Settle(r) => r.Commit? ==> TasksRun(sh, r.db.execs, r.db.tasks)
    case Launch(db1, iid, mem, stepId, _) =>
      && TasksRun(sh, db1.execs, db1.tasks)
      && ((iid == sh.iid ==> mem.def == sh.def) ==> Allowed(sh, db1.execs, db1.passed, iid, stepId))
  }

  lemma TasksQuiet(sh: Shape, a: Execs, b: Execs, tasks: map<Id, UserTaskRow>, iid: Id, id: string)
    requires TasksRun(sh, a, tasks) && ClosedAt(a, b, iid, id)
    requires iid == sh.iid && IsUserTask(sh.def, id) ==> forall t :: t in tasks && tasks[t].inst == iid && tasks[t].stepId == id ==> tasks[t].status != Open
    ensures TasksRun(sh, b, tasks)
  {
    hide FindStep;
  }

  ghost predicate Runs(execs: Execs, iid: Id, id: string) {
    exists e :: e in Of(execs, iid, id) && execs[e].status == Running
  }

  lemma RunningNotDone(execs: Execs, iid: Id, b: string)
    requires Line(execs, iid, b) && Runs(execs, iid, b)
    ensures !Done(execs, iid, b)
  {
    var e :| e in Of(execs, iid, b) && execs[e].status == Running;
    forall d | d in Of(execs, iid, b) ensures execs[d].status != Succeeded {
    }
  }

  /** While an execution of a branch step is RUNNING the join has not gone on. */
  lemma RunningMeansNoPass(sh: Shape, execs: Execs, passed: set<Id>, b: string)
    requires Fact(sh, execs, passed) && b in sh.Entries() && Runs(execs, sh.iid, b)
    ensures NoPass(sh, execs, passed)
  {
    hide NoPass, OnePass, AllDone, Line, Done, Runs;
    RunningNotDone(execs, sh.iid, b);
  }

  /** A branch step that was RUNNING before its transaction may hand over to the join. */
  lemma FollowerAllowed(sh: Shape, db: Db, db1: Db, iid: Id, mem: Instance, step: Step, next: string)
    requires WellShaped(sh) && Pre(sh, db) && FirstStage(db, db1) && step in mem.def.steps && Parked(step.typ)
    requires next in Resolution.Followers(step) && FindStep(mem.def, step.id) == Some(step)
    requires iid == sh.iid && step.id in sh.Entries() ==> Runs(db.execs, iid, step.id)
    ensures (iid == sh.iid ==> mem.def == sh.def) ==> Allowed(sh, db1.execs, db1.passed, iid, next)
  {
    hide Of, Fact, WellShaped, NoPass, Free, FindStep, TasksRun, TimersAvoid, ClosedExecs, ExecsEvolve, Resolution.Followers, Handovers;
    if iid == sh.iid && mem.def == sh.def && Entered(sh, db1.execs) <= 1 {
      Shaped(sh, step);
      GatewayIsGateway(sh);
      assert next in Refs(step);
      JoinOkClosed(sh, db.execs, db1.execs, db.passed);
      if step.id in sh.Entries() {
        RunningMeansNoPass(sh, db.execs, db.passed, step.id);
        ClosedIsEvolved(db.execs, db1.execs);
        NoPassEvolves(sh, db.execs, db1.execs, db.passed);
      }
    }
  }

  ghost predicate NoOpen(tasks: map<Id, UserTaskRow>, iid: Id, id: string) {
    forall t :: t in tasks && tasks[t].inst == iid && tasks[t].stepId == id ==> tasks[t].status != Open
  }

  lemma DepartedSides(db: Db, iid: Id, mem: Instance, step: Step)
    ensures SameSides(db, Departed(db, iid, mem, step))
  {
    hide SetStatus, SetCurrent, WithoutStep, Recomputed;
    var mem1 := Leaving(mem, step);
    SideRows(db, iid);
    SideRows(SetCurrent(db, iid, mem1.current), iid);
    assert SameSides(db, SetCurrent(db, iid, mem1.current));
    assert SameSides(SetCurrent(db, iid, mem1.current), Departed(db, iid, mem, step));
  }

  lemma FailedTasks(sh: Shape, db: Db, iid: Id, mem: Instance, stepId: string)
    requires TasksRun(sh, db.execs, db.tasks) && (iid == sh.iid && IsUserTask(sh.def, stepId) ==> NoOpen(db.tasks, iid, stepId))
    ensures var o := FailStep(db, iid, mem, stepId); o.Ok? && TasksRun(sh, o.db.execs, o.db.tasks)
  {
    hide FindStep, TasksRun, SetStatus, SetRunning;
    RunningClosed(db, iid, stepId, Faulted);
    TasksQuiet(sh, db.execs, SetRunning(db, iid, stepId, Faulted).execs, db.tasks, iid, stepId);
    RunningTasks(db, iid, stepId, Faulted);
    SideRows(SetRunning(db, iid, stepId, Faulted), iid);
    assert SameSides(SetRunning(db, iid, stepId, Faulted), SetStatus(SetRunning(db, iid, stepId, Faulted), iid, Failed));
  }

  lemma RunningTasks(db: Db, iid: Id, stepId: string, status: ExecStatus)
    ensures SetRunning(db, iid, stepId, status).tasks == db.tasks
  {
  }

  lemma AdvanceJoins(env: Env, sh: Shape, db0: Db, db: Db, iid: Id, mem: Instance, step: Step)
    requires WellShaped(sh) && Pre(sh, db0) && FirstStage(db0, db) && step in mem.def.steps && Parked(step.typ)
    requires FindStep(mem.def, step.id) == Some(step)
    requires iid == sh.iid && step.id in sh.Entries() ==> Runs(db0.execs, iid, step.id)
    requires TasksRun(sh, db.execs, db.tasks) && (iid == sh.iid && IsUserTask(sh.def, step.id) ==> NoOpen(db.tasks, iid, step.id))
    ensures JoinBody(sh, AdvanceBody(env, db, iid, mem, step))
  {
    hide WellShaped, Pre, FirstStage, FindStep, Of, TasksRun, NoOpen, FailStep, Departed, Choose, Resolution.Followers, Allowed, WithoutStep, Recomputed;
    var mem1, db1 := Leaving(mem, step), Departed(db, iid, mem, step);
    DepartedSides(db, iid, mem, step);
    StageRows(db0, db, db1);
    FailedTasks(sh, db1, iid, mem1, step.id);
    var c := Choose(env.eval, step.branches, mem.vars);
    if step.branches != [] && c.Take? {
      Resolution.ChosenFollows(env, step, mem.vars);
      FollowerAllowed(sh, db0, db1, iid, mem, step, c.target);
    } else if step.branches == [] && step.nextStep != "" {
      Resolution.NextFollows(step);
      FollowerAllowed(sh, db0, db1, iid, mem, step, step.nextStep);
    }
  }

  /** Closing the execution of a delivery attempt touches no user task. */
  lemma JobTasks(sh: Shape, db: Db, execs: Execs, j: Id)
    requires Inv(db) && DefOk(sh, db) && LockJob(db, j).Some? && TasksRun(sh, db.execs, db.tasks)
    requires ClosedAt(db.execs, execs, db.jobs[j].inst, db.execs[db.jobs[j].exec].stepId)
    ensures TasksRun(sh, execs, db.tasks)
    ensures db.jobs[j].inst == sh.iid ==> !IsUserTask(sh.def, db.execs[db.jobs[j].exec].stepId)
  {
    hide Inv, FindStep, TasksRun, ClosedAt;
    Resolution.JobStep(db, j);
    TasksQuiet(sh, db.execs, execs, db.tasks, db.jobs[j].inst, db.execs[db.jobs[j].exec].stepId);
  }

  lemma CallbackRows(db: Db, j: Id, worker: string, output: Vars)
    requires Inv(db) && Accepts(db, j, worker)
    ensures j in db.jobs && db.jobs[j].exec in db.execs
    ensures var e, iid := db.jobs[j].exec, db.jobs[j].inst;
            && ClosedAt(db.execs, Closed(db, j, worker).execs, iid, db.execs[e].stepId)
            && Closed(db, j, worker).tasks == db.tasks
            && SameSides(Closed(db, j, worker), Merged(Closed(db, j, worker), iid, e, output))
            && ClosedAt(db.execs, TerminalRows(db, j).execs, iid, db.execs[e].stepId)
            && TerminalRows(db, j).tasks == db.tasks
            && Runs(db.execs, iid, db.execs[e].stepId)
  {
    hide Inv, Accepts;
    AcceptedRunning(db, j, worker);
    JobExecInst(db, j);
    var e := db.jobs[j].exec;
    InOf(db.execs, db.jobs[j].inst, db.execs[e].stepId, e);
    hide Of;
    assert Runs(db.execs, db.jobs[j].inst, db.execs[e].stepId);
    OneClosed(db, e, Succeeded);
    OneClosed(db, e, Faulted);
    hide ClosedAt;
    CallbackTables(db, j, worker, output);
  }

  lemma JobExecInst(db: Db, j: Id)
    requires Inv(db) && j in db.jobs
    ensures db.jobs[j].exec in db.execs && db.execs[db.jobs[j].exec].inst == db.jobs[j].inst
  {
    hide Typed, Attempts, Budget, Chained, MergedOnce, Currents, Requested, KeysDistinct, TaskRefs, TimerRefs, ChainRefs, Below;
  }

  lemma CallbackTables(db: Db, j: Id, worker: string, output: Vars)
    requires j in db.jobs && db.jobs[j].exec in db.execs
    ensures var e, iid := db.jobs[j].exec, db.jobs[j].inst;
            && Closed(db, j, worker).execs == SetExec(db, e, Succeeded).execs && Closed(db, j, worker).tasks == db.tasks
            && SameSides(Closed(db, j, worker), Merged(Closed(db, j, worker), iid, e, output))
            && TerminalRows(db, j).execs == SetExec(db, e, Faulted).execs && TerminalRows(db, j).tasks == db.tasks
  {
    var e, iid := db.jobs[j].exec, db.jobs[j].inst;
    var closed := Closed(db, j, worker);
    SideRows(closed, iid);
    assert SameSides(closed, PatchVars(closed, iid, output));
    var cancelled := SetExec(CancelJobs(db, e), e, Faulted);
    SideRows(cancelled, iid);
    assert SameSides(cancelled, SetStatus(cancelled, iid, Failed));
    hide PatchVars, SetStatus;
  }

  lemma CompleteJoins(env: Env, sh: Shape, db: Db, j: Id, worker: string, output: Vars)
    requires WellShaped(sh) && Inv(db) && Pre(sh, db) && DefOk(sh, db)
    ensures JoinBody(sh, CompleteBody(env, db, j, worker, output))
  {
    hide WellShaped, Inv, FirstStage, FindStep, Of, TasksRun, NoOpen, AdvanceBody, Closed, Merged, SetStatus, SetExec, ClosedAt, Accepts,
         JoinOk, TimersAvoid, Below, DefOk;
    if LockJob(db, j).Some? && Accepts(db, j, worker) {
      var e, iid := db.jobs[j].exec, db.jobs[j].inst;
      Resolution.JobStep(db, j);
      var step := FindStep(db.instances[iid].def, db.execs[e].stepId).value;
      StepFoundHere(db.instances[iid].def, db.execs[e].stepId);
      CallbackRows(db, j, worker, output);
      CallbackStaged(db, j, worker, output);
      JobTasks(sh, db, Closed(db, j, worker).execs, j);
      JobTasks(sh, db, TerminalRows(db, j).execs, j);
      var db1 := Merged(Closed(db, j, worker), iid, e, output);
      MergedDef(db, j, worker, output);
      AdvanceJoins(env, sh, db, db1, iid, db1.instances[iid], step);
    }
  }

  lemma StepFoundHere(def: Definition, id: string)
    requires FindStep(def, id).Some?
    ensures FindStep(def, id).value.id == id && FindStep(def, id).value in def.steps
  {
  }

  lemma MergedDef(db: Db, j: Id, worker: string, output: Vars)
    requires LockJob(db, j).Some?
    ensures var e, iid := db.jobs[j].exec, db.jobs[j].inst;
            var db1 := Merged(Closed(db, j, worker), iid, e, output);
            iid in db1.instances && db1.instances[iid].def == db.instances[iid].def
  {
  }

  lemma InterruptedTasks(sh: Shape, db: Db, e: Id)
    requires TasksRun(sh, db.execs, db.tasks) && e in db.execs
    ensures var d := Interrupted(db, e); TasksRun(sh, d.execs, d.tasks)
  {
    hide FindStep;
  }

  lemma FireJoins(sh: Shape, db: Db, t: Id, iid: Id)
    requires WellShaped(sh) && Pre(sh, db)
    ensures JoinBody(sh, FireBody(db, t, iid))
  {
    hide WellShaped, Of, TasksRun, Interrupted, WithoutStep, JoinOk, Below, NoPass, Free;
    if t in db.timers && db.timers[t].exec in db.execs {
      InterruptedTasks(sh, db.(timers := db.timers[t := db.timers[t].(fired := true)]), db.timers[t].exec);
    }
  }

  lemma UserTasksClosed(sh: Shape, db: Db, iid: Id, stepId: string)
    requires TasksRun(sh, db.execs, db.tasks)
    ensures var d := CompleteTasks(db, iid, stepId);
            TasksRun(sh, db.execs, d.tasks) && NoOpen(d.tasks, iid, stepId) && d.execs == db.execs
  {
    hide FindStep;
  }

  lemma ResumedTasks(sh: Shape, db: Db, iid: Id, stepId: string, vars: Vars)
    requires TasksRun(sh, db.execs, db.tasks) && (iid == sh.iid && IsUserTask(sh.def, stepId) ==> NoOpen(db.tasks, iid, stepId))
    ensures var d := PatchVars(SetRunning(db, iid, stepId, Succeeded), iid, vars);
            TasksRun(sh, d.execs, d.tasks) && d.tasks == db.tasks
  {
    hide FindStep, TasksRun, SetRunning;
    RunningClosed(db, iid, stepId, Succeeded);
    RunningTasks(db, iid, stepId, Succeeded);
    TasksQuiet(sh, db.execs, SetRunning(db, iid, stepId, Succeeded).execs, db.tasks, iid, stepId);
  }

  lemma OpenTaskRuns(sh: Shape, db: Db, iid: Id, stepId: string)
    requires TasksRun(sh, db.execs, db.tasks) && OpenTasks(db, iid, stepId) != {}
    ensures iid == sh.iid && stepId in sh.Entries() ==> Runs(db.execs, iid, stepId)
  {
    hide FindStep;
    var t :| t in OpenTasks(db, iid, stepId);
    if iid == sh.iid && stepId in sh.Entries() {
      assert db.tasks[t].exec in Of(db.execs, iid, stepId);
    }
  }

  lemma UserTaskJoins(env: Env, sh: Shape, db: Db, iid: Id, stepId: string, vars: Vars)
    requires WellShaped(sh) && Pre(sh, db) && DefOk(sh, db)
    ensures JoinBody(sh, UserTaskBody(env, db, iid, stepId, vars))
  {
    hide WellShaped, FirstStage, FindStep, Of, TasksRun, NoOpen, AdvanceBody, SetRunning, PatchVars, CompleteTasks, OpenTasks, JoinOk, TimersAvoid, Below;
    if iid in db.instances && FindStep(db.instances[iid].def, stepId).Some? && OpenTasks(db, iid, stepId) != {} {
      var row := db.instances[iid];
      var step := FindStep(row.def, stepId).value;
      StepFoundHere(row.def, stepId);
      if step.typ == UserTask {
        var closed := CompleteTasks(db, iid, stepId);
        UserTasksClosed(sh, db, iid, stepId);
        ResumedTasks(sh, closed, iid, stepId, vars);
        ResumedStage(db, iid, stepId, vars);
        OpenTaskRuns(sh, db, iid, stepId);
        var db1 := PatchVars(SetRunning(closed, iid, stepId, Succeeded), iid, vars);
        AdvanceJoins(env, sh, db, db1, iid, row.(vars := row.vars + vars), step);
      }
    }
  }

  lemma SignalJoins(env: Env, sh: Shape, db: Db, iid: Id, stepId: string, vars: Vars)
    requires WellShaped(sh) && Pre(sh, db) && DefOk(sh, db)
    ensures JoinBody(sh, SignalBody(env, db, iid, stepId, vars))
  {
    hide WellShaped, FirstStage, FindStep, Of, TasksRun, NoOpen, AdvanceBody, SetRunning, PatchVars, RunningOf, JoinOk, TimersAvoid, Below;
    if iid in db.instances && FindStep(db.instances[iid].def, stepId).Some? && RunningOf(db, iid, stepId) != {} {
      var row := db.instances[iid];
      var step := FindStep(row.def, stepId).value;
      StepFoundHere(row.def, stepId);
      if step.typ == Wait {
        ResumedTasks(sh, db, iid, stepId, vars);
        ResumedStage(db, iid, stepId, vars);
        assert Runs(db.execs, iid, stepId) by { RunningOfRuns(db, iid, stepId); }
        var db1 := PatchVars(SetRunning(db, iid, stepId, Succeeded), iid, vars);
        AdvanceJoins(env, sh, db, db1, iid, row.(vars := row.vars + vars), step);
      }
    }
  }

  lemma RunningOfRuns(db: Db, iid: Id, stepId: string)
    requires RunningOf(db, iid, stepId) != {}
    ensures Runs(db.execs, iid, stepId)
  {
    var e :| e in RunningOf(db, iid, stepId);
    assert e in Of(db.execs, iid, stepId);
  }

  /** A step whose newest execution failed can be entered again. */
  lemma RetryAllowed(sh: Shape, db: Db, stepId: string, e: Id)
    requires Pre(sh, db) && IsLatestExec(db, sh.iid, stepId, e) && db.execs[e].status == Faulted
    ensures Allowed(sh, db.execs, db.passed, sh.iid, stepId)
  {
    hide TasksRun, TimersAvoid, Below, NoPass, OnePass, Done;
    ExecsOfIsOf(db, sh.iid, stepId);
    assert e in Of(db.execs, sh.iid, stepId);
    if Entered(sh, db.execs) <= 1 && stepId in sh.Entries() {
      assert Line(db.execs, sh.iid, stepId);
      LatestFaulted(db, sh.iid, stepId, e);
      NotEntered(sh, db.execs);
    }
  }

  lemma NotEntered(sh: Shape, execs: Execs)
    ensures Entered(sh, execs) == 0 ==> Of(execs, sh.iid, sh.gateway.id) == {}
  {
  }

  lemma LatestFaulted(db: Db, iid: Id, b: string, e: Id)
    requires Line(db.execs, iid, b) && IsLatestExec(db, iid, b, e) && db.execs[e].status == Faulted
    ensures Free(db.execs, iid, b)
  {
    ExecsOfIsOf(db, iid, b);
  }

  lemma RetryStepJoins(sh: Shape, db: Db, iid: Id, stepId: string, patch: Vars)
    requires Pre(sh, db)
    ensures JoinBody(sh, RetryStepBody(db, iid, stepId, patch))
  {
    hide FindStep, KeyTaken, PatchVars, SetStatus, TasksRun, Allowed, Pre;
    if iid in db.instances {
      SideRows(db, iid);
      SideRows(SetStatus(db, iid, Active), iid);
      assert SameSides(db, SetStatus(db, iid, Active));
      assert SameSides(SetStatus(db, iid, Active), PatchVars(SetStatus(db, iid, Active), iid, patch));
      assert TasksRun(sh, db.execs, db.tasks) by { PreTasks(sh, db); }
      if exists e :: IsLatestExec(db, iid, stepId, e) && db.execs[e].status == Faulted {
        var e :| IsLatestExec(db, iid, stepId, e) && db.execs[e].status == Faulted;
        if iid == sh.iid {
          RetryAllowed(sh, db, stepId, e);
        } else {
          OtherAllowed(sh, db, iid, stepId);
        }
      }
    }
  }

  lemma PreTasks(sh: Shape, db: Db)
    requires Pre(sh, db)
    ensures TasksRun(sh, db.execs, db.tasks)
  {
  }

  lemma OtherAllowed(sh: Shape, db: Db, iid: Id, id: string)
    requires iid != sh.iid || !sh.Guarded(id)
    ensures Allowed(sh, db.execs, db.passed, iid, id)
  {
  }

  lemma StartJoins(sh: Shape, db: Db, row: Instance, ack: Option<Id>)
    requires WellShaped(sh) && Pre(sh, db) && row.def.steps != []
    ensures JoinBody(sh, StartBody(db, row, ack))
  {
    hide Refs, GatewayFor, TasksRun, JoinOk, TimersAvoid, Below, NoPass, Free;
  }

  lemma LegacyJoins(sh: Shape, db: Db, j: Id, worker: string)
    requires Inv(db) && Pre(sh, db) && DefOk(sh, db)
    ensures JoinBody(sh, Settle(CompleteLegacy(db, j, worker)))
  {
    hide Inv, Pre, DefOk, Accepts, Closed, TasksRun, ClosedAt;
    PreTasks(sh, db);
    if LockJob(db, j).Some? && Accepts(db, j, worker) {
      CallbackRows(db, j, worker, map[]);
      JobTasks(sh, db, Closed(db, j, worker).execs, j);
    }
  }

  lemma FailJoins(sh: Shape, db: Db, j: Id, worker: string, retryable: bool)
    requires Inv(db) && Pre(sh, db) && DefOk(sh, db)
    ensures JoinBody(sh, Settle(FailJob(db, j, worker, retryable)))
  {
    hide Inv, Pre, DefOk, Accepts, TasksRun, ClosedAt, Closed, SetStatus, CancelJobs, SetExec;
    PreTasks(sh, db);
    if LockJob(db, j).Some? && Accepts(db, j, worker) {
      CallbackRows(db, j, worker, map[]);
      FailureRows(db, j, worker);
      JobTasks(sh, db, TerminalRows(db, j).execs, j);
    }
  }

  lemma JobEventJoins(env: Env, sh: Shape, db: Db, ev: Event)
    requires Inv(db) && Pre(sh, db) && DefOk(sh, db)
    requires IsSideline(ev) || ev.EvCompleteLegacy? || ev.EvFail?
    ensures JoinBody(sh, Settle(Next(env, 0, db, ev)))
  {
    hide Inv, Pre, DefOk, TasksRun, CompleteLegacy, FailJob;
    match ev
    case EvCompleteLegacy(j, worker) => LegacyJoins(sh, db, j, worker);
    case EvFail(j, worker, retryable) => FailJoins(sh, db, j, worker, retryable);
    case _ =>
      hide Next;
      PreTasks(sh, db);
      SidelineEvents(env, db, ev);
  }

  /** The rows a callback that fails its step leaves behind. */
  function TerminalRows(db: Db, j: Id): Db
    requires j in db.jobs && db.jobs[j].exec in db.execs
  {
    SetStatus(SetExec(CancelJobs(db, db.jobs[j].exec), db.jobs[j].exec, Faulted), db.jobs[j].inst, Failed)
  }

  lemma FailureRows(db: Db, j: Id, worker: string)
    requires j in db.jobs && db.jobs[j].exec in db.execs
    ensures var e, iid := db.jobs[j].exec, db.jobs[j].inst;
            var a := SetStatus(SetExec(SetJob(db, j, db.jobs[j].(status := JobFailed, worker := worker)), e, Faulted), iid, Failed);
            a.execs == TerminalRows(db, j).execs && a.tasks == db.tasks
  {
  }

  lemma BodyJoins(env: Env, sh: Shape, db: Db, ev: Event)
    requires WellShaped(sh) && Inv(db) && Pre(sh, db) && DefOk(sh, db)
    ensures JoinBody(sh, BodyOf(env, db, ev))
  {
    hide WellShaped, Inv, Pre, DefOk, CompleteBody, FireBody, UserTaskBody, SignalBody, RetryStepBody, Next, KeyTaken, Startable, TasksRun, Allowed,
         StartBody;
    PreTasks(sh, db);
    match ev
    case EvComplete(j, worker, vars) => CompleteJoins(env, sh, db, j, worker, vars);
    case EvFire(t, iid) => FireJoins(sh, db, t, iid);
    case EvUserTask(iid, stepId, vars) => UserTaskJoins(env, sh, db, iid, stepId, vars);
    case EvSignal(iid, stepId, vars) => SignalJoins(env, sh, db, iid, stepId, vars);
    case EvRetryStep(iid, stepId, vars) => RetryStepJoins(sh, db, iid, stepId, vars);
    case EvStart(def, vars, key) =>
      if def.steps != [] {
        StartJoins(sh, db, NewInstance(def, vars, key, None), None);
      } else {
        NotStartable(env, def, vars);
      }
    case EvChain(source, def) =>
      if source in db.chains {
        var request := db.chains[source];
        if def.steps != [] {
          StartJoins(sh, db, NewInstance(def, request.vars, request.businessKey, Some(source)), Some(source));
        } else {
          NotStartable(env, def, request.vars);
        }
      }
    case _ => JobEventJoins(env, sh, db, ev);
  }

  // ---- runs ----

  lemma PreStaged(sh: Shape, db: Db, db1: Db)
    requires Inv(db) && Pre(sh, db) && FirstStage(db, db1) && TasksRun(sh, db1.execs, db1.tasks) && Resolution.TimersFrom(db.now, db.timers, db1.timers)
    ensures Pre(sh, db1)
  {
    hide Inv, JoinOk, TasksRun;
    BelowStaged(db, db1);
    JoinOkClosed(sh, db.execs, db1.execs, db.passed);
  }

  lemma NextJoins(env: Env, depth: nat, sh: Shape, db: Db, ev: Event)
    requires WellShaped(sh) && Inv(db) && Pre(sh, db) && DefOk(sh, db)
    requires var r := Next(env, depth, db, ev); r.Commit? ==> DefOk(sh, r.db)
    ensures var r := Next(env, depth, db, ev); r.Commit? ==> Pre(sh, r.db)
  {
    hide WellShaped, Inv, Pre, Next, BodyOf, Dispatch, Acknowledged, FirstStage, Resolution.Resolved, Resolution.DefsFrom, Resolution.TimersFrom,
         Resolution.BringsResolvable, Definitions.FindStep, Resolution.Resolvable, TasksRun, Allowed, StaysFree;
    NextPerforms(env, depth, db, ev);
    BodyStaged(env, db, ev);
    Resolution.BodyTidy(env, db, ev);
    BodyJoins(env, sh, db, ev);
    match BodyOf(env, db, ev)
    case Settle(r) =>
      if r.Commit? {
        PreStaged(sh, db, r.db);
      }
    case Launch(db1, iid, mem, stepId, ack) =>
      PreStaged(sh, db, db1);
      var o := Dispatch(env, depth, db1, iid, mem, stepId);
      if o.Ok? {
        Resolution.DispatchSameDefs(env, depth, db1, iid, mem, stepId);
        AcknowledgedSides(o.db, if ack.Some? then ack.value else 0, iid);
        DispatchJoins(env, depth, db1, iid, mem, stepId, sh);
        PreSides(sh, o.db, Perform(env, depth, BodyOf(env, db, ev)).db);
      }
  }

  lemma AcknowledgedSides(db: Db, source: Id, child: Id)
    ensures SameSides(db, Acknowledged(db, source, child)) && Acknowledged(db, source, child).instances == db.instances
  {
  }

  lemma PreSides(sh: Shape, db: Db, db': Db)
    requires Pre(sh, db) && SameSides(db, db')
    ensures Pre(sh, db')
  {
    hide JoinOk, TasksRun, TimersAvoid;
  }

  lemma EmptyPre(sh: Shape)
    ensures Pre(sh, EMPTY)
  {
  }

  lemma {:induction false} RunJoins(env: Env, states: seq<Db>, events: seq<Event>, i: nat, sh: Shape)
    requires IsRun(env, states, events) && i < |states| && WellShaped(sh) && DefOk(sh, states[i])
    ensures Pre(sh, states[i])
  {
    hide WellShaped, Inv, Pre, Next, JobsEvolve, ExecsEvolve, ChainsEvolve;
    if i == 0 {
      EmptyPre(sh);
    } else {
      EngineTheorems.RunInv(env, states, events, i - 1);
      EngineTheorems.StepKept(env, states[i - 1], events[i - 1], states[i]);
      RunJoins(env, states, events, i - 1, sh);
      if states[i] != states[i - 1] {
        var depth :| Next(env, depth, states[i - 1], events[i - 1]) == Commit(states[i]);
        NextJoins(env, depth, sh, states[i - 1], events[i - 1]);
      }
    }
  }

  /**
   For a well-shaped fork and join whose gateway the instance has entered once, at most one
   execution of the join went on to its next step, in every state of every run.
   */
  lemma JoinPassesOnce(env: Env, states: seq<Db>, events: seq<Event>, i: nat, sh: Shape, e: Id, f: Id)
    requires IsRun(env, states, events) && i < |states| && WellShaped(sh)
    requires sh.iid in states[i].instances && states[i].instances[sh.iid].def == sh.def
    requires |ExecsOf(states[i], sh.iid, sh.gateway.id)| <= 1
    requires e in states[i].passed && f in states[i].passed
    requires e in ExecsOf(states[i], sh.iid, sh.join) && f in ExecsOf(states[i], sh.iid, sh.join)
    ensures e == f
  {
    hide WellShaped, IsRun, Line, AllDone, NoPass, TasksRun, TimersAvoid, Done, Of, ExecsOf;
    RunJoins(env, states, events, i, sh);
    ExecsOfIsOf(states[i], sh.iid, sh.gateway.id);
    ExecsOfIsOf(states[i], sh.iid, sh.join);
  }
}
