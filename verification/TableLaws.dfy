/**
 What a DECISION_TABLE step computes, stated on its document: the text of its hit-policy code,
 the texts of its cells and the entries of its rules.
 */
module TableLaws {
  import opened Values
  import opened Definitions
  import opened Database
  import opened Interpreter
  import opened DecisionTables

  /** Every cell of the rule is blank or true. */
  ghost predicate Holds(rule: Rule, eval: Evaluator, vars: Vars) {
    forall c :: c in rule.cells ==> Wildcard(rule.cells[c]) || eval(rule.cells[c], vars) == Val(Values.Bool(true))
  }

  /** Some cell of the rule is false. */
  ghost predicate Refuted(rule: Rule, eval: Evaluator, vars: Vars) {
    exists c :: c in rule.cells && !Wildcard(rule.cells[c]) && eval(rule.cells[c], vars) == Val(Values.Bool(false))
  }

  /** No cell of the rule fails: each is blank, true or false. */
  ghost predicate Boolean(rule: Rule, eval: Evaluator, vars: Vars) {
    forall c :: c in rule.cells ==>
      Wildcard(rule.cells[c]) || exists b :: eval(rule.cells[c], vars) == Val(Values.Bool(b))
  }

  /** `idx` lists exactly the rules that hold, in document order. */
  ghost predicate Lists(rules: seq<Rule>, eval: Evaluator, vars: Vars, idx: seq<nat>) {
    && (forall i: nat :: i in idx <==> i < |rules| && Holds(rules[i], eval, vars))
    && (forall j, k :: 0 <= j < k < |idx| ==> idx[j] < idx[k])
  }

  /** The values of the rule's outputs before the step. */
  ghost predicate IsRow(rule: Rule, eval: Evaluator, now: Value, vars: Vars, row: Row) {
    row.Keys == rule.outputs.Keys && forall c :: c in row ==> EvalEntry(rule.outputs[c], eval, now, vars) == Val(row[c])
  }

  ghost predicate RowsFor(rules: seq<Rule>, idx: seq<nat>, eval: Evaluator, now: Value, vars: Vars, rows: seq<Row>) {
    |rows| == |idx| && forall k :: 0 <= k < |idx| ==> idx[k] < |rules| && IsRow(rules[idx[k]], eval, now, vars, rows[k])
  }

  /** `rows` are the outputs of the rules that hold, in document order. */
  ghost predicate MatchedRows(rules: seq<Rule>, eval: Evaluator, now: Value, vars: Vars, rows: seq<Row>) {
    exists idx :: Lists(rules, eval, vars, idx) && RowsFor(rules, idx, eval, now, vars, rows)
  }

  /** Some row declares the column. */
  ghost predicate Declares(rows: seq<Row>, c: string) {
    exists k :: 0 <= k < |rows| && c in rows[k]
  }

  ghost predicate AllNumbers(rows: seq<Row>, c: string) {
    forall k :: 0 <= k < |rows| ==> c in rows[k] && rows[k][c].Num?
  }

  ghost function Total(rows: seq<Row>, c: string): real
    requires AllNumbers(rows, c)
  {
    if rows == [] then 0.0 else rows[0][c].n + Total(rows[1..], c)
  }

  /** `v` is the column's number that no other one lies beyond. */
  ghost predicate Extreme(rows: seq<Row>, c: string, v: Value, greatest: bool)
    requires AllNumbers(rows, c)
  {
    && v.Num? && (exists k :: 0 <= k < |rows| && rows[k][c] == v)
    && forall k :: 0 <= k < |rows| ==> if greatest then rows[k][c].n <= v.n else v.n <= rows[k][c].n
  }

  /** The list of the column's values in document order, null where a rule omits it. */
  ghost predicate ListOf(rows: seq<Row>, c: string, v: Value) {
    && v.List? && |v.items| == |rows|
    && forall k :: 0 <= k < |rows| ==> v.items[k] == if c in rows[k] then rows[k][c] else Null
  }

  /** What a code, as written in the definition, makes of one column. */
  ghost predicate ColumnByCode(code: string, rows: seq<Row>, c: string, v: Value) {
    if code == "R" || code == "C" then ListOf(rows, c, v)
    else if code == "C#" then v == Num(|rows| as real)
    else
      && AllNumbers(rows, c)
      && (code == "C+" ==> v == Num(Total(rows, c)))
      && (code == "C>" ==> Extreme(rows, c, v, true))
      && (code == "C<" ==> Extreme(rows, c, v, false))
  }

  /** What a code makes of the rows of the rules that hold. */
  ghost predicate ByCode(code: string, rows: seq<Row>, row: Row)
    requires rows != []
  {
    if code == "" || code == "U" then |rows| == 1 && row == rows[0]
    else if code == "F" then row == rows[0]
    else if code == "A" then
      row == rows[0] && forall c, k :: c in rows[0] && 0 <= k < |rows| ==> rows[0][c] == if c in rows[k] then rows[k][c] else Null
    else if code in {"R", "C", "C+", "C#", "C>", "C<"} then
      (forall c :: c in row <==> Declares(rows, c)) && forall c :: c in row ==> ColumnByCode(code, rows, c, row[c])
    else row == map[]
  }

  /** The step merges `row`. */
  ghost predicate TableGives(eval: Evaluator, now: Value, step: Step, vars: Vars, row: Row) {
    && step.rules.Some?
    && (forall i :: 0 <= i < |step.rules.value| ==> Holds(step.rules.value[i], eval, vars) || Refuted(step.rules.value[i], eval, vars))
    && exists rows :: rows != [] && MatchedRows(step.rules.value, eval, now, vars, rows) && ByCode(step.hitPolicy, rows, row)
  }

  // ---- rules ----

  lemma CellMeans(text: string, eval: Evaluator, vars: Vars)
    ensures Cell(text, eval, vars) == Yes <==> Wildcard(text) || eval(text, vars) == Val(Values.Bool(true))
    ensures Cell(text, eval, vars) == No <==> !Wildcard(text) && eval(text, vars) == Val(Values.Bool(false))
  {
  }

  /** A visit of all cells finds the rule to hold, a false cell, or a failing one. */
  lemma CellsMean(rule: Rule, order: seq<string>, eval: Evaluator, vars: Vars)
    requires IsOrder(order, rule.cells.Keys)
    ensures CellsInOrder(rule.cells, order, eval, vars) == Yes <==> Holds(rule, eval, vars)
    ensures CellsInOrder(rule.cells, order, eval, vars) == No ==> Refuted(rule, eval, vars)
    ensures Boolean(rule, eval, vars) ==> CellsInOrder(rule.cells, order, eval, vars) != CellError
  {
    OrderResult(rule.cells, order, eval, vars);
    forall c | c in rule.cells ensures c in order {
    }
    forall text ensures Cell(text, eval, vars) == Yes <==> Wildcard(text) || eval(text, vars) == Val(Values.Bool(true)) {
      CellMeans(text, eval, vars);
    }
    var m := CellsInOrder(rule.cells, order, eval, vars);
    if m != Yes {
      var c :| c in rule.cells && Cell(rule.cells[c], eval, vars) == m;
      CellMeans(rule.cells[c], eval, vars);
    }
  }

  ghost predicate Orders(rules: seq<Rule>, orders: nat -> seq<string>) {
    forall i :: 0 <= i < |rules| ==> IsOrder(orders(i), rules[i].cells.Keys)
  }

  lemma CollectMeans(rules: seq<Rule>, orders: nat -> seq<string>, eval: Evaluator, vars: Vars)
    requires Orders(rules, orders)
    ensures var m := Collect(rules, orders, eval, vars, |rules|);
            && (m.Matches? ==> Lists(rules, eval, vars, m.idx))
            && (m.Matches? ==> forall i :: 0 <= i < |rules| ==> Holds(rules[i], eval, vars) || Refuted(rules[i], eval, vars))
            && ((forall i :: 0 <= i < |rules| ==> Boolean(rules[i], eval, vars)) ==> m.Matches?)
  {
    hide Holds, Refuted, Boolean, IsOrder;
    forall i | 0 <= i < |rules|
      ensures CellsInOrder(rules[i].cells, orders(i), eval, vars) == Yes <==> Holds(rules[i], eval, vars)
      ensures CellsInOrder(rules[i].cells, orders(i), eval, vars) == No ==> Refuted(rules[i], eval, vars)
      ensures Boolean(rules[i], eval, vars) ==> CellsInOrder(rules[i].cells, orders(i), eval, vars) != CellError
    {
      CellsMean(rules[i], orders(i), eval, vars);
    }
  }

  lemma {:induction false} ListsUnique(a: seq<nat>, b: seq<nat>)
    requires forall i: nat :: i in a <==> i in b
    requires forall j, k :: 0 <= j < k < |a| ==> a[j] < a[k]
    requires forall j, k :: 0 <= j < k < |b| ==> b[j] < b[k]
    ensures a == b
    decreases |a|
  {
    assert b != [] ==> b[|b| - 1] in b;
    if a != [] {
      assert a[|a| - 1] in a;
      var x :| 0 <= x < |b| && b[x] == a[|a| - 1];
      var y :| 0 <= y < |a| && a[y] == b[|b| - 1];
      assert a[|a| - 1] == b[|b| - 1];
      var c, d := a[..|a| - 1], b[..|b| - 1];
      forall i: nat ensures i in c <==> i in d {
        assert i in c ==> i in a && i != a[|a| - 1];
        assert i in d ==> i in b && i != b[|b| - 1];
      }
      ListsUnique(c, d);
    }
  }

  // ---- rows ----

  lemma RowMeans(rule: Rule, eval: Evaluator, now: Value, vars: Vars, row: Row)
    ensures RuleRow(rule, eval, now, vars) == RowOf(row) <==> IsRow(rule, eval, now, vars, row)
  {
    if IsRow(rule, eval, now, vars, row) {
      assert forall k :: k in rule.outputs ==> k in row;
      assert row == map k | k in rule.outputs :: EvalEntry(rule.outputs[k], eval, now, vars).v;
    }
  }

  lemma {:induction false} RowsCollected(rules: seq<Rule>, idx: seq<nat>, eval: Evaluator, now: Value, vars: Vars, rows: seq<Row>)
    requires |rows| == |idx| && forall k :: 0 <= k < |idx| ==> idx[k] < |rules|
    requires forall k :: 0 <= k < |idx| ==> RuleRow(rules[idx[k]], eval, now, vars) == RowOf(rows[k])
    ensures RuleRows(rules, idx, eval, now, vars) == RowsOf(rows)
    decreases |idx|
  {
    hide RuleRow;
    if idx != [] {
      var n := |idx| - 1;
      RowsCollected(rules, idx[..n], eval, now, vars, rows[..n]);
      assert rows == rows[..n] + [rows[n]];
    }
  }

  lemma RowsMean(rules: seq<Rule>, idx: seq<nat>, eval: Evaluator, now: Value, vars: Vars, rows: seq<Row>)
    requires forall k :: 0 <= k < |idx| ==> idx[k] < |rules|
    ensures RuleRows(rules, idx, eval, now, vars) == RowsOf(rows) <==> RowsFor(rules, idx, eval, now, vars, rows)
  {
    hide IsRow, RuleRow, RuleRows;
    forall k, row | 0 <= k < |idx| ensures RuleRow(rules[idx[k]], eval, now, vars) == RowOf(row) <==> IsRow(rules[idx[k]], eval, now, vars, row) {
      RowMeans(rules[idx[k]], eval, now, vars, row);
    }
    if RowsFor(rules, idx, eval, now, vars, rows) {
      RowsCollected(rules, idx, eval, now, vars, rows);
    }
  }

  // ---- codes ----

  lemma {:induction false} TotalSnoc(rows: seq<Row>, row: Row, c: string)
    requires AllNumbers(rows, c) && c in row && row[c].Num? && AllNumbers(rows + [row], c)
    ensures Total(rows + [row], c) == Total(rows, c) + row[c].n
    decreases |rows|
  {
    if rows == [] {
      assert rows + [row] == [row];
      assert [row][1..] == [];
    } else {
      assert (rows + [row])[1..] == rows[1..] + [row];
      TotalSnoc(rows[1..], row, c);
    }
  }

  lemma {:induction false} TotalIsSum(rows: seq<Row>, c: string)
    requires AllNumbers(rows, c)
    ensures Numeric(Column(rows, c)) && Sum(Column(rows, c)) == Num(Total(rows, c)).n
    decreases |rows|
  {
    if rows != [] {
      var n := |rows| - 1;
      TotalIsSum(rows[..n], c);
      assert rows == rows[..n] + [rows[n]];
      TotalSnoc(rows[..n], rows[n], c);
      assert Column(rows, c)[..n] == Column(rows[..n], c);
    }
  }

  lemma NumericMeans(rows: seq<Row>, c: string)
    ensures Numeric(Column(rows, c)) <==> AllNumbers(rows, c)
  {
    assert forall k :: 0 <= k < |rows| ==> Column(rows, c)[k] == At(rows[k], c);
  }

  lemma DeclaresMeans(rows: seq<Row>, c: string)
    ensures c in ColumnsOf(rows) <==> Declares(rows, c)
  {
  }

  lemma ListMeans(rows: seq<Row>, c: string, v: Value)
    ensures ListOf(rows, c, v) <==> v == List(Column(rows, c))
  {
    assert forall k :: 0 <= k < |rows| ==> Column(rows, c)[k] == At(rows[k], c);
    if ListOf(rows, c, v) {
      assert v.items == Column(rows, c);
    }
  }

  lemma ExtremeMeans(rows: seq<Row>, c: string, v: Value)
    requires AllNumbers(rows, c)
    ensures Numeric(Column(rows, c))
    ensures Extreme(rows, c, v, true) <==> v.Num? && IsMax(v.n, Column(rows, c))
    ensures Extreme(rows, c, v, false) <==> v.Num? && IsMin(v.n, Column(rows, c))
  {
    assert forall k :: 0 <= k < |rows| ==> Column(rows, c)[k] == rows[k][c];
  }

  /** The code of each policy that works column by column. */
  predicate Codes(code: string, policy: Policy) {
    || (code == "C+" && policy == CSum) || (code == "C#" && policy == CCount)
    || (code == "C>" && policy == CMax) || (code == "C<" && policy == CMin)
  }

  lemma AggregateMeans(code: string, policy: Policy, rows: seq<Row>, c: string, v: Value)
    requires Codes(code, policy)
    ensures Aggregates(policy, Column(rows, c), v) <==> (v.Num? && ColumnByCode(code, rows, c, v))
  {
    hide Extreme, IsMax, IsMin, AllNumbers, Numeric;
    NumericMeans(rows, c);
    if AllNumbers(rows, c) {
      ExtremeMeans(rows, c, v);
      TotalIsSum(rows, c);
    }
  }

  lemma ByCodeNumbers(code: string, rows: seq<Row>, row: Row)
    requires rows != [] && code in {"C+", "C#", "C>", "C<"} && ByCode(code, rows, row)
    ensures forall c :: c in row ==> row[c].Num?
  {
  }

  lemma AggregatesMean(code: string, policy: Policy, rows: seq<Row>, row: Row)
    requires rows != [] && Codes(code, policy)
    ensures Collapses(policy, rows, Outputs(row)) <==> ByCode(code, rows, row)
  {
    hide Aggregates, ColumnByCode, AllNumbers, Numeric, Declares, ColumnsOf;
    forall c ensures c in ColumnsOf(rows) <==> Declares(rows, c) {
      DeclaresMeans(rows, c);
    }
    forall c, v ensures Aggregates(policy, Column(rows, c), v) <==> (v.Num? && ColumnByCode(code, rows, c, v)) {
      AggregateMeans(code, policy, rows, c, v);
    }
    if ByCode(code, rows, row) {
      ByCodeNumbers(code, rows, row);
      if code != "C#" {
        forall c | c in ColumnsOf(rows) ensures Numeric(Column(rows, c)) {
          AggregatesNumeric(policy, Column(rows, c), row[c]);
        }
      }
    }
  }

  lemma AggregatesNumeric(policy: Policy, vals: seq<Value>, v: Value)
    requires policy in {CSum, CMax, CMin} && Aggregates(policy, vals, v)
    ensures Numeric(vals)
  {
  }

  lemma ListsMean(code: string, policy: Policy, rows: seq<Row>, row: Row)
    requires rows != [] && ((code == "R" && policy == R) || (code == "C" && policy == C))
    ensures Collapses(policy, rows, Outputs(row)) <==> ByCode(code, rows, row)
  {
    hide ListOf, Declares, ColumnsOf;
    forall c ensures c in ColumnsOf(rows) <==> Declares(rows, c) {
      DeclaresMeans(rows, c);
    }
    forall c, v ensures ListOf(rows, c, v) <==> v == List(Column(rows, c)) {
      ListMeans(rows, c, v);
    }
    if ByCode(code, rows, row) {
      assert row == map c | c in ColumnsOf(rows) :: List(Column(rows, c));
    }
  }

  /** The hit policy of a step is the one its code names. */
  lemma CodeMeans(code: string, rows: seq<Row>, row: Row)
    requires rows != []
    ensures var p := PolicyOf(code);
            if p.None? then ByCode(code, rows, row) <==> row == map[]
            else Collapses(p.value, rows, Outputs(row)) <==> ByCode(code, rows, row)
  {
    if code in {"C+", "C#", "C>", "C<"} {
      AggregatesMean(code, PolicyOf(code).value, rows, row);
    } else if code in {"R", "C"} {
      ListsMean(code, PolicyOf(code).value, rows, row);
    }
  }

  // ---- the step ----

  /** Each rule's cells are visited once each, in some order. */
  ghost predicate Visits(env: Env, exec: Id, step: Step) {
    step.rules.Some? ==> Orders(step.rules.value, TableOrders(env, exec, step.rules.value))
  }

  ghost predicate BooleanCells(eval: Evaluator, step: Step, vars: Vars) {
    step.rules.Some? && forall i :: 0 <= i < |step.rules.value| ==> Boolean(step.rules.value[i], eval, vars)
  }

  lemma DecidedDecides(env: Env, exec: Id, now: int, rules: seq<Rule>, policy: Policy, orders: nat -> seq<string>, vars: Vars, row: Row)
    ensures Decided(env, exec, now, rules, policy, orders, vars) == Outputs(row) <==>
            Decides(rules, policy, orders, env.eval, env.clockText(now), vars, Outputs(row))
  {
    hide Decides;
    if Decides(rules, policy, orders, env.eval, env.clockText(now), vars, Outputs(row)) {
      var p := Decided(env, exec, now, rules, policy, orders, vars);
      DecidesUnique(rules, policy, orders, env.eval, env.clockText(now), vars, Outputs(row), p);
    }
  }

  /** The rows that the whole table collapses. */
  lemma DecidesRows(rules: seq<Rule>, policy: Policy, orders: nat -> seq<string>, eval: Evaluator, now: Value, vars: Vars, row: Row)
    requires Orders(rules, orders)
    ensures Decides(rules, policy, orders, eval, now, vars, Outputs(row)) ==>
              && (forall i :: 0 <= i < |rules| ==> Holds(rules[i], eval, vars) || Refuted(rules[i], eval, vars))
              && exists rows :: rows != [] && MatchedRows(rules, eval, now, vars, rows) && Collapses(policy, rows, Outputs(row))
  {
    hide Orders, Collapses, Holds, Refuted, Boolean, IsRow;
    CollectMeans(rules, orders, eval, vars);
    var m := Collect(rules, orders, eval, vars, |rules|);
    if Decides(rules, policy, orders, eval, now, vars, Outputs(row)) {
      assert forall k :: 0 <= k < |m.idx| ==> m.idx[k] in m.idx;
      var r := RuleRows(rules, m.idx, eval, now, vars);
      hide Collect;
      RowsMean(rules, m.idx, eval, now, vars, r.rows);
      assert MatchedRows(rules, eval, now, vars, r.rows);
    }
  }

  lemma RowsDecide(rules: seq<Rule>, policy: Policy, orders: nat -> seq<string>, eval: Evaluator, now: Value, vars: Vars,
                   rows: seq<Row>, row: Row)
    requires Orders(rules, orders) && (forall i :: 0 <= i < |rules| ==> Boolean(rules[i], eval, vars))
    requires rows != [] && MatchedRows(rules, eval, now, vars, rows) && Collapses(policy, rows, Outputs(row))
    ensures Decides(rules, policy, orders, eval, now, vars, Outputs(row))
  {
    hide Orders, Collapses, Holds, Refuted, Boolean, IsRow;
    CollectMeans(rules, orders, eval, vars);
    var m := Collect(rules, orders, eval, vars, |rules|);
    var idx :| Lists(rules, eval, vars, idx) && RowsFor(rules, idx, eval, now, vars, rows);
    ListsUnique(idx, m.idx);
    assert forall k :: 0 <= k < |m.idx| ==> m.idx[k] in m.idx;
    RowsMean(rules, idx, eval, now, vars, rows);
  }

  /**
   What a table step merges, by the text of its hit-policy code. A failing cell is the only thing
   that can keep the outputs named here from being merged: with a false cell beside it, the order
   in which the cells are visited decides (DecisionTables.MatchOrderIndependentIff).
   */
  lemma TableByCode(env: Env, exec: Id, now: int, step: Step, vars: Vars, row: Row)
    requires Visits(env, exec, step)
    ensures TableOutcome(env, exec, now, step, vars) == Outputs(row) ==> TableGives(env.eval, env.clockText(now), step, vars, row)
    ensures BooleanCells(env.eval, step, vars) && TableGives(env.eval, env.clockText(now), step, vars, row) ==>
              TableOutcome(env, exec, now, step, vars) == Outputs(row)
  {
    hide Orders, Collapses, Holds, Refuted, Boolean, ByCode, MatchedRows, TableOrders, Decides, Decided, PolicyOf;
    if step.rules.Some? {
      var rules, text := step.rules.value, env.clockText(now);
      var orders, p := TableOrders(env, exec, rules), PolicyOf(step.hitPolicy);
      var code := if p.Some? then p.value else F;
      forall r ensures Decided(env, exec, now, rules, code, orders, vars) == Outputs(r) <==>
                       Decides(rules, code, orders, env.eval, text, vars, Outputs(r)) {
        DecidedDecides(env, exec, now, rules, code, orders, vars, r);
      }
      if TableOutcome(env, exec, now, step, vars) == Outputs(row) {
        var r := Decided(env, exec, now, rules, code, orders, vars).row;
        DecidesRows(rules, code, orders, env.eval, text, vars, r);
        var rows :| rows != [] && MatchedRows(rules, env.eval, text, vars, rows) && Collapses(code, rows, Outputs(r));
        CodeMeans(step.hitPolicy, rows, row);
      }
      if BooleanCells(env.eval, step, vars) && TableGives(env.eval, text, step, vars, row) {
        var rows :| rows != [] && MatchedRows(rules, env.eval, text, vars, rows) && ByCode(step.hitPolicy, rows, row);
        CodeMeans(step.hitPolicy, rows, row);
        var r := if p.Some? then row else rows[0];
        if p.None? {
          FirstCollapses(rows);
        }
        RowsDecide(rules, code, orders, env.eval, text, vars, rows, r);
      }
    }
  }

  lemma FirstCollapses(rows: seq<Row>)
    requires rows != []
    ensures Collapses(F, rows, Outputs(rows[0]))
  {
  }
}
