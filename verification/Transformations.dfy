/**
 TRANSFORMATION steps (handleTransformation). The entries are a Go map, so the runtime may
 visit them in any order, and each entry sees the values the earlier ones wrote.
 */
module Transformations {
  import opened Values

  datatype Outcome = Failed | Done(vars: Vars, delta: Vars)

  /** Entries run in the given iteration order; names without an entry are ignored. */
  function Run(entries: map<string, Entry>, eval: Evaluator, now: Value, order: seq<string>,
               vars: Vars, delta: Vars): Outcome
    decreases |order|
  {
    if order == [] then Done(vars, delta)
    else if order[0] !in entries then Run(entries, eval, now, order[1..], vars, delta)
    else
      match EvalEntry(entries[order[0]], eval, now, vars)
      case EvalError => Failed
      case Val(v) =>
        Run(entries, eval, now, order[1..], vars[order[0] := v], delta[order[0] := v])
  }

  /** The loop of the handler: `vars` and `delta` are updated entry by entry. */
  method Transform(entries: map<string, Entry>, eval: Evaluator, now: Value, order: seq<string>,
                   vars: Vars) returns (outcome: Outcome)
    ensures outcome == Run(entries, eval, now, order, vars, map[])
  {
    var cur, delta := vars, map[];
    for i := 0 to |order|
      invariant Run(entries, eval, now, order, vars, map[]) ==
                Run(entries, eval, now, order[i..], cur, delta)
    {
      assert order[i..][1..] == order[i + 1..];
      if order[i] in entries {
        match EvalEntry(entries[order[i]], eval, now, cur)
        case EvalError => return Failed;
        case Val(v) =>
          cur := cur[order[i] := v];
          delta := delta[order[i] := v];
      }
    }
    outcome := Done(cur, delta);
  }

  // ---- the stored variables equal the in-memory ones ----

  /**
   The handler keeps `vars` in memory and sends only `delta` to the store, which overlays it
   on the stored variables. Both give the same map, for every order and every evaluator.
   */
  lemma {:induction false} StoredEqualsInMemory(entries: map<string, Entry>, eval: Evaluator, now: Value,
                                                order: seq<string>, vars: Vars, delta: Vars, base: Vars)
    requires base + delta == vars
    ensures var r := Run(entries, eval, now, order, vars, delta);
            r.Done? ==> base + r.delta == r.vars
    decreases |order|
  {
    if order != [] {
      if order[0] !in entries {
        StoredEqualsInMemory(entries, eval, now, order[1..], vars, delta, base);
      } else {
        match EvalEntry(entries[order[0]], eval, now, vars)
        case EvalError =>
        case Val(v) =>
          assert base + delta[order[0] := v] == vars[order[0] := v];
          StoredEqualsInMemory(entries, eval, now, order[1..], vars[order[0] := v], delta[order[0] := v], base);
      }
    }
  }

  /** Only the names of the entries are written; all of them, when the order lists them all. */
  lemma {:induction false} RunWrites(entries: map<string, Entry>, eval: Evaluator, now: Value, order: seq<string>, vars: Vars, delta: Vars)
    ensures var r := Run(entries, eval, now, order, vars, delta);
            r.Done? ==> && (forall x :: x in r.delta <==> x in delta || (x in order && x in entries))
                        && (forall x :: x !in entries ==> (x in r.vars <==> x in vars) && (x in vars ==> r.vars[x] == vars[x]))
    decreases |order|
  {
    if order != [] {
      assert order == [order[0]] + order[1..];
      if order[0] !in entries {
        RunWrites(entries, eval, now, order[1..], vars, delta);
      } else {
        match EvalEntry(entries[order[0]], eval, now, vars)
        case EvalError =>
        case Val(v) => RunWrites(entries, eval, now, order[1..], vars[order[0] := v], delta[order[0] := v]);
      }
    }
  }

  /** Each name is written with its entry's value: a literal, the clock, or an expression over what it saw. */
  ghost predicate Writes(e: Entry, eval: Evaluator, now: Value, before: Vars, delta: Vars, v: Value) {
    match e
    case Literal(w) => v == w
    case Now => v == now
    case Expr(text) => exists seen :: SeenBy(before, delta, seen) && eval(text, seen) == Val(v)
  }

  /** Every name has its value before the step or the value an entry of the step wrote. */
  ghost predicate SeenBy(before: Vars, delta: Vars, seen: Vars) {
    && (forall x :: x in before ==> x in seen)
    && (forall x :: x in seen ==> (x in delta && seen[x] == delta[x]) || (x in before && seen[x] == before[x]))
  }

  lemma {:induction false} RunStores(entries: map<string, Entry>, eval: Evaluator, now: Value, order: seq<string>, before: Vars, delta: Vars)
    requires NoDup(order) && (forall x :: x in order ==> x !in delta)
    requires Run(entries, eval, now, order, before + delta, delta).Done?
    ensures var r := Run(entries, eval, now, order, before + delta, delta);
            && (forall x :: x in delta ==> x in r.delta && r.delta[x] == delta[x])
            && (forall x :: x in order && x in entries ==> x in r.delta && Writes(entries[x], eval, now, before, r.delta, r.delta[x]))
    decreases |order|
  {
    if order != [] {
      var k := order[0];
      assert order == [k] + order[1..];
      assert k !in order[1..] && NoDup(order[1..]);
      if k !in entries {
        RunStores(entries, eval, now, order[1..], before, delta);
      } else {
        var v := EvalEntry(entries[k], eval, now, before + delta).v;
        assert (before + delta)[k := v] == before + delta[k := v];
        RunStores(entries, eval, now, order[1..], before, delta[k := v]);
        var r := Run(entries, eval, now, order, before + delta, delta);
        assert SeenBy(before, r.delta, before + delta);
      }
    }
  }

  // ---- order independence ----

  /** Two maps give the same answer on every name in `names`, including absence. */
  ghost predicate AgreeOn(a: Vars, b: Vars, names: set<string>) {
    forall x :: x in names ==> (x in a <==> x in b) && (x in a ==> a[x] == b[x])
  }

  /** `deps` over-approximates the variables each expression text depends on. */
  ghost predicate RespectsReads(eval: Evaluator, deps: string -> set<string>) {
    forall e, a, b :: AgreeOn(a, b, deps(e)) ==> eval(e, a) == eval(e, b)
  }

  ghost function ReadsOf(e: Entry, deps: string -> set<string>): set<string> {
    if e.Expr? then deps(e.text) else {}
  }

  /** No entry reads a variable that a different entry of the same step writes. */
  ghost predicate NoCrossReads(entries: map<string, Entry>, deps: string -> set<string>) {
    forall k, w :: k in entries && w in entries && w in ReadsOf(entries[k], deps) ==> w == k
  }

  /** The order-free reference: every entry is evaluated against the variables before the step. */
  ghost function Simultaneous(entries: map<string, Entry>, eval: Evaluator, now: Value, vars: Vars): Outcome {
    if exists k :: k in entries && EvalEntry(entries[k], eval, now, vars) == EvalError then Failed
    else
      var delta := map k | k in entries :: EvalEntry(entries[k], eval, now, vars).v;
      Done(vars + delta, delta)
  }

  /** Each entry gives the same result whatever the other entries have written. */
  ghost predicate Stable(entries: map<string, Entry>, eval: Evaluator, now: Value, vars: Vars) {
    forall k, d: Vars :: k in entries && d.Keys <= entries.Keys - {k} ==>
      EvalEntry(entries[k], eval, now, vars + d) == EvalEntry(entries[k], eval, now, vars)
  }

  lemma NoCrossReadsStable(entries: map<string, Entry>, eval: Evaluator, now: Value,
                           deps: string -> set<string>, vars: Vars)
    requires RespectsReads(eval, deps) && NoCrossReads(entries, deps)
    ensures Stable(entries, eval, now, vars)
  {
    forall k, d: Vars | k in entries && d.Keys <= entries.Keys - {k}
      ensures EvalEntry(entries[k], eval, now, vars + d) == EvalEntry(entries[k], eval, now, vars)
    {
      if entries[k].Expr? {
        assert AgreeOn(vars + d, vars, deps(entries[k].text));
      }
    }
  }

  /** `delta` holds the pre-step results of the names visited so far; `order` lists the others. */
  ghost predicate Visited(entries: map<string, Entry>, eval: Evaluator, now: Value, order: seq<string>,
                          vars: Vars, delta: Vars)
  {
    && NoDup(order)
    && (forall k :: k in entries <==> k in delta || k in order)
    && (forall k :: k in order ==> k !in delta)
    && (forall k :: k in delta ==> k in entries && EvalEntry(entries[k], eval, now, vars) == Val(delta[k]))
  }

  lemma VisitedStep(entries: map<string, Entry>, eval: Evaluator, now: Value, order: seq<string>,
                    vars: Vars, delta: Vars, v: Value)
    requires order != [] && Visited(entries, eval, now, order, vars, delta)
    requires EvalEntry(entries[order[0]], eval, now, vars) == Val(v)
    ensures Visited(entries, eval, now, order[1..], vars, delta[order[0] := v])
  {
    assert order == [order[0]] + order[1..];
    assert order[0] !in order[1..];
  }

  lemma VisitedAll(entries: map<string, Entry>, eval: Evaluator, now: Value, vars: Vars, delta: Vars)
    requires Visited(entries, eval, now, [], vars, delta)
    ensures Done(vars + delta, delta) == Simultaneous(entries, eval, now, vars)
  {
    assert forall k :: k in entries ==> EvalEntry(entries[k], eval, now, vars) == Val(delta[k]);
    assert delta == map k | k in entries :: EvalEntry(entries[k], eval, now, vars).v;
  }

  lemma VisitedNext(entries: map<string, Entry>, eval: Evaluator, now: Value, order: seq<string>,
                    vars: Vars, delta: Vars)
    requires order != [] && Stable(entries, eval, now, vars) && Visited(entries, eval, now, order, vars, delta)
    ensures order[0] in entries
    ensures EvalEntry(entries[order[0]], eval, now, vars + delta) == EvalEntry(entries[order[0]], eval, now, vars)
  {
    var k := order[0];
    assert k in order;
    assert delta.Keys <= entries.Keys - {k};
  }

  lemma {:induction false} RunIsSimultaneous(entries: map<string, Entry>, eval: Evaluator, now: Value,
                                             order: seq<string>, vars: Vars, delta: Vars)
    requires Stable(entries, eval, now, vars) && Visited(entries, eval, now, order, vars, delta)
    ensures Run(entries, eval, now, order, vars + delta, delta) == Simultaneous(entries, eval, now, vars)
    decreases |order|
  {
    if order == [] {
      VisitedAll(entries, eval, now, vars, delta);
    } else {
      VisitedNext(entries, eval, now, order, vars, delta);
      var k := order[0];
      var r := EvalEntry(entries[k], eval, now, vars);
      if r.Val? {
        VisitedStep(entries, eval, now, order, vars, delta, r.v);
        assert (vars + delta)[k := r.v] == vars + delta[k := r.v];
        RunIsSimultaneous(entries, eval, now, order[1..], vars, delta[k := r.v]);
      }
    }
  }

  /** With no cross reads every iteration order gives the simultaneous result, or the same failure. */
  lemma OrderIndependent(entries: map<string, Entry>, eval: Evaluator, now: Value,
                         deps: string -> set<string>, order: seq<string>, vars: Vars)
    requires RespectsReads(eval, deps) && NoCrossReads(entries, deps) && IsOrder(order, entries.Keys)
    ensures Run(entries, eval, now, order, vars, map[]) == Simultaneous(entries, eval, now, vars)
  {
    NoCrossReadsStable(entries, eval, now, deps, vars);
    assert vars == vars + map[];
    RunIsSimultaneous(entries, eval, now, order, vars, map[]);
  }

  // ---- and the condition is exact ----

  ghost predicate SameForAllOrders(entries: map<string, Entry>, eval: Evaluator, now: Value, vars: Vars) {
    forall o, p :: IsOrder(o, entries.Keys) && IsOrder(p, entries.Keys) ==>
      Run(entries, eval, now, o, vars, map[]) == Run(entries, eval, now, p, vars, map[])
  }

  /** Once written, a name keeps its value: later entries of an order are other names. */
  lemma {:induction false} KeepsWritten(entries: map<string, Entry>, eval: Evaluator, now: Value, order: seq<string>,
                                        vars: Vars, delta: Vars, k: string)
    requires k !in order && k in vars
    ensures var r := Run(entries, eval, now, order, vars, delta);
            r.Done? ==> k in r.vars && r.vars[k] == vars[k]
    decreases |order|
  {
    if order != [] {
      if order[0] !in entries {
        KeepsWritten(entries, eval, now, order[1..], vars, delta, k);
      } else {
        match EvalEntry(entries[order[0]], eval, now, vars)
        case EvalError =>
        case Val(v) =>
          KeepsWritten(entries, eval, now, order[1..], vars[order[0] := v], delta[order[0] := v], k);
      }
    }
  }

  /** The evaluator used as witness: `text` wraps the value of `w`, every other text is constant. */
  function Wrap(text: string, w: string): Evaluator {
    (e: string, v: Vars) => if e == text then (if w in v then Val(List([v[w]])) else Val(Null)) else Val(Null)
  }

  lemma WrapRespectsReads(text: string, w: string, deps: string -> set<string>)
    requires w in deps(text)
    ensures RespectsReads(Wrap(text, w), deps)
  {
    var ev := Wrap(text, w);
    forall e, a, b | AgreeOn(a, b, deps(e)) ensures ev(e, a) == ev(e, b) {
    }
  }

  lemma {:induction false} WrapNeverFails(entries: map<string, Entry>, text: string, w: string, now: Value,
                                          order: seq<string>, vars: Vars, delta: Vars)
    ensures Run(entries, Wrap(text, w), now, order, vars, delta).Done?
    decreases |order|
  {
    if order != [] {
      if order[0] !in entries {
        WrapNeverFails(entries, text, w, now, order[1..], vars, delta);
      } else {
        var v := EvalEntry(entries[order[0]], Wrap(text, w), now, vars).v;
        WrapNeverFails(entries, text, w, now, order[1..], vars[order[0] := v], delta[order[0] := v]);
      }
    }
  }

  /** In an order starting with `w` and then anything, `k` ends up wrapping what `w` was written. */
  lemma {:induction false} WrapSees(entries: map<string, Entry>, text: string, w: string, now: Value, order: seq<string>,
                                    vars: Vars, delta: Vars, k: string)
    requires NoDup(order) && k in order && w !in order && k in entries && entries[k] == Expr(text) && w in vars
    ensures var r := Run(entries, Wrap(text, w), now, order, vars, delta);
            r.Done? && k in r.vars && r.vars[k] == List([vars[w]])
    decreases |order|
  {
    var ev := Wrap(text, w);
    WrapNeverFails(entries, text, w, now, order, vars, delta);
    if order[0] == k {
      var v := List([vars[w]]);
      assert k !in order[1..];
      KeepsWritten(entries, ev, now, order[1..], vars[k := v], delta[k := v], k);
    } else if order[0] !in entries {
      WrapSees(entries, text, w, now, order[1..], vars, delta, k);
    } else {
      var v := EvalEntry(entries[order[0]], ev, now, vars).v;
      WrapSees(entries, text, w, now, order[1..], vars[order[0] := v], delta[order[0] := v], k);
    }
  }

  /** A cross read makes some evaluator, from some variables, depend on the map order. */
  lemma CrossReadBreaksOrder(entries: map<string, Entry>, deps: string -> set<string>, now: Value, k: string, w: string)
    returns (eval: Evaluator, vars: Vars)
    requires k in entries && w in entries && k != w && w in ReadsOf(entries[k], deps)
    ensures RespectsReads(eval, deps) && !SameForAllOrders(entries, eval, now, vars)
  {
    var text := entries[k].text;
    eval := Wrap(text, w);
    WrapRespectsReads(text, w, deps);
    // A start value for w that differs from what w's own entry writes.
    var own := EvalEntry(entries[w], eval, now, map[w := Null]).v;
    var start := if own == Null then Bool(true) else Null;
    vars := map[w := start];
    var wrote := EvalEntry(entries[w], eval, now, vars).v;
    assert wrote != start;
    var o := OrderStartingWith(entries.Keys, w);
    var p := OrderStartingWith(entries.Keys, k);
    assert k in o[1..] && w !in o[1..];
    WrapSees(entries, text, w, now, o[1..], vars[w := wrote], map[][w := wrote], k);
    var got := List([start]);
    WrapNeverFails(entries, text, w, now, p[1..], vars[k := got], map[][k := got]);
    assert k !in p[1..];
    KeepsWritten(entries, eval, now, p[1..], vars[k := got], map[][k := got], k);
    assert Run(entries, eval, now, o, vars, map[]) != Run(entries, eval, now, p, vars, map[]);
  }

  /**
   Exactly when the map order cannot matter: a step gives one result in all iteration orders,
   for every evaluator with these read sets and all variables, if and only if no entry reads a
   variable that a different entry writes.
   */
  lemma OrderIndependentIff(entries: map<string, Entry>, deps: string -> set<string>, now: Value)
    ensures NoCrossReads(entries, deps) <==>
            forall eval, vars :: RespectsReads(eval, deps) ==> SameForAllOrders(entries, eval, now, vars)
  {
    if NoCrossReads(entries, deps) {
      forall eval, vars | RespectsReads(eval, deps) ensures SameForAllOrders(entries, eval, now, vars) {
        forall o, p | IsOrder(o, entries.Keys) && IsOrder(p, entries.Keys)
          ensures Run(entries, eval, now, o, vars, map[]) == Run(entries, eval, now, p, vars, map[])
        {
          OrderIndependent(entries, eval, now, deps, o, vars);
          OrderIndependent(entries, eval, now, deps, p, vars);
        }
      }
    } else {
      var k, w :| k in entries && w in entries && w in ReadsOf(entries[k], deps) && w != k;
      var eval, vars := CrossReadBreaksOrder(entries, deps, now, k, w);
    }
  }
}
