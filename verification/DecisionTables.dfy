/**
 DECISION_TABLE steps (decision_table.go): matching the rules, evaluating the outputs of the
 matched ones and collapsing them by hit policy.
 */
module DecisionTables {
  import opened Values

  datatype Rule = Rule(cells: map<string, string>, outputs: map<string, Entry>)

  /** The nine hit-policy codes; an empty code in the definition means U. */
  datatype Policy = U | F | A | R | C | CSum | CCount | CMax | CMin

  type Row = map<string, Value>

  datatype Match = Yes | No | CellError

  // ---- one rule's cells, visited in map order ----

  /** Unicode's White_Space property, which strings.TrimSpace trims. */
  predicate WhiteSpace(c: char) {
    var n := c as int;
    || 9 <= n <= 13 || n == 32 || n == 0x85 || n == 0xA0 || n == 0x1680 || 0x2000 <= n <= 0x200A
    || n == 0x2028 || n == 0x2029 || n == 0x202F || n == 0x205F || n == 0x3000
  }

  /** A cell that is empty once trimmed. */
  predicate Wildcard(text: string) {
    forall i :: 0 <= i < |text| ==> WhiteSpace(text[i])
  }

  /** A blank cell is made of blanks, and only the spaces of Unicode are blank. */
  lemma WildcardParts(a: string, b: string, c: char)
    ensures Wildcard(a + b) <==> Wildcard(a) && Wildcard(b)
    ensures Wildcard([c]) <==> c in "\t\n\r " || c as int in {0x0B, 0x0C, 0x85, 0xA0, 0x1680, 0x2028, 0x2029, 0x202F, 0x205F, 0x3000}
                               || 0x2000 <= c as int <= 0x200A
  {
    assert forall i :: 0 <= i < |a| ==> (a + b)[i] == a[i];
    assert forall i :: 0 <= i < |b| ==> (a + b)[|a| + i] == b[i];
    assert [c][0] == c;
  }

  /** What one cell says: blank cells are wildcards, anything but a bool is an error. */
  function Cell(text: string, eval: Evaluator, vars: Vars): Match {
    if Wildcard(text) then Yes
    else match eval(text, vars)
      case EvalError => CellError
      case Val(v) => if !v.Bool? then CellError else if v.b then Yes else No
  }

  function CellsInOrder(cells: map<string, string>, order: seq<string>, eval: Evaluator, vars: Vars): Match
    decreases |order|
  {
    if order == [] then Yes
    else if order[0] !in cells then CellsInOrder(cells, order[1..], eval, vars)
    else
      var m := Cell(cells[order[0]], eval, vars);
      if m == Yes then CellsInOrder(cells, order[1..], eval, vars) else m
  }

  /** The loop of ruleMatches: the first cell that is not a wildcard or true decides. */
  method RuleMatches(cells: map<string, string>, order: seq<string>, eval: Evaluator, vars: Vars) returns (m: Match)
    ensures m == CellsInOrder(cells, order, eval, vars)
  {
    for i := 0 to |order|
      invariant CellsInOrder(cells, order, eval, vars) == CellsInOrder(cells, order[i..], eval, vars)
    {
      assert order[i..][1..] == order[i + 1..];
      if order[i] in cells {
        m := Cell(cells[order[i]], eval, vars);
        if m != Yes {
          return;
        }
      }
    }
    m := Yes;
  }

  ghost predicate HasCell(cells: map<string, string>, eval: Evaluator, vars: Vars, m: Match) {
    exists c :: c in cells && Cell(cells[c], eval, vars) == m
  }

  /** The first deciding cell of an order is some cell of the rule. */
  lemma {:induction false} OrderResult(cells: map<string, string>, order: seq<string>, eval: Evaluator, vars: Vars)
    ensures var m := CellsInOrder(cells, order, eval, vars);
            && (m != Yes ==> HasCell(cells, eval, vars, m))
            && (m == Yes ==> forall c :: c in order && c in cells ==> Cell(cells[c], eval, vars) == Yes)
    decreases |order|
  {
    if order != [] {
      assert order == [order[0]] + order[1..];
      OrderResult(cells, order[1..], eval, vars);
    }
  }

  /**
   The cells of a rule are a Go map, so their visiting order is random. Whether the rule
   matches, does not match or fails the step is independent of that order exactly when the
   rule does not have both a false cell and a failing one.
   */
  lemma MatchOrderIndependentIff(cells: map<string, string>, eval: Evaluator, vars: Vars)
    ensures (forall o, p :: IsOrder(o, cells.Keys) && IsOrder(p, cells.Keys) ==>
               CellsInOrder(cells, o, eval, vars) == CellsInOrder(cells, p, eval, vars))
            <==> !(HasCell(cells, eval, vars, No) && HasCell(cells, eval, vars, CellError))
  {
    if HasCell(cells, eval, vars, No) && HasCell(cells, eval, vars, CellError) {
      var c :| c in cells && Cell(cells[c], eval, vars) == No;
      var d :| d in cells && Cell(cells[d], eval, vars) == CellError;
      var o := OrderStartingWith(cells.Keys, c);
      var p := OrderStartingWith(cells.Keys, d);
      assert CellsInOrder(cells, o, eval, vars) != CellsInOrder(cells, p, eval, vars);
    } else {
      forall o, p | IsOrder(o, cells.Keys) && IsOrder(p, cells.Keys)
        ensures CellsInOrder(cells, o, eval, vars) == CellsInOrder(cells, p, eval, vars)
      {
        OrderResult(cells, o, eval, vars);
        OrderResult(cells, p, eval, vars);
      }
    }
  }

  // ---- collecting the matched rules and evaluating their outputs ----

  datatype Matched = MatchFailed | Matches(idx: seq<nat>)

  /**
   The match-collection pass over the first `n` rules. When no cell fails, it gives exactly the
   matching rules, in document order.
   */
  function Collect(rules: seq<Rule>, orders: nat -> seq<string>, eval: Evaluator, vars: Vars, n: nat): (m: Matched)
    requires n <= |rules|
    ensures m.Matches? ==>
              && (forall i: nat :: i in m.idx <==> i < n && CellsInOrder(rules[i].cells, orders(i), eval, vars) == Yes)
              && (forall j, k :: 0 <= j < k < |m.idx| ==> m.idx[j] < m.idx[k])
    ensures m.MatchFailed? <==>
              exists i: nat :: i < n && CellsInOrder(rules[i].cells, orders(i), eval, vars) == CellError
  {
    if n == 0 then Matches([])
    else
      var before := Collect(rules, orders, eval, vars, n - 1);
      if before.MatchFailed? then before
      else match CellsInOrder(rules[n - 1].cells, orders(n - 1), eval, vars)
        case CellError => MatchFailed
        case No => before
        case Yes =>
          assert forall k :: 0 <= k < |before.idx| ==> before.idx[k] in before.idx;
          Matches(before.idx + [n - 1])
  }

  datatype RowResult = RowFailed | RowOf(row: Row)

  /** evaluateRuleOutputs: every value against the variables before the step. */
  ghost function RuleRow(rule: Rule, eval: Evaluator, now: Value, vars: Vars): RowResult {
    if exists k :: k in rule.outputs && EvalEntry(rule.outputs[k], eval, now, vars) == EvalError then RowFailed
    else RowOf(map k | k in rule.outputs :: EvalEntry(rule.outputs[k], eval, now, vars).v)
  }

  datatype RowsResult = RowsFailed | RowsOf(rows: seq<Row>)

  ghost function RuleRows(rules: seq<Rule>, idx: seq<nat>, eval: Evaluator, now: Value, vars: Vars): (r: RowsResult)
    requires forall k :: 0 <= k < |idx| ==> idx[k] < |rules|
    ensures r.RowsOf? ==> |r.rows| == |idx|
    ensures r.RowsOf? ==> forall k :: 0 <= k < |idx| ==> RuleRow(rules[idx[k]], eval, now, vars) == RowOf(r.rows[k])
  {
    if idx == [] then RowsOf([])
    else
      var n := |idx| - 1;
      var before := RuleRows(rules, idx[..n], eval, now, vars);
      if before.RowsFailed? then before
      else match RuleRow(rules[idx[n]], eval, now, vars)
        case RowFailed => RowsFailed
        case RowOf(row) => RowsOf(before.rows + [row])
  }

  /** The loop over one rule's outputs; it reads only the variables before the step. */
  method EvaluateRuleOutputs(rule: Rule, eval: Evaluator, now: Value, vars: Vars) returns (r: RowResult)
    ensures r == RuleRow(rule, eval, now, vars)
  {
    var todo, out: Row := rule.outputs.Keys, map[];
    while todo != {}
      invariant todo <= rule.outputs.Keys && out.Keys == rule.outputs.Keys - todo
      invariant forall k :: k in out ==> EvalEntry(rule.outputs[k], eval, now, vars) == Val(out[k])
    {
      var k :| k in todo;
      match EvalEntry(rule.outputs[k], eval, now, vars)
      case EvalError => return RowFailed;
      case Val(v) => out := out[k := v];
      todo := todo - {k};
    }
    assert out == map k | k in rule.outputs :: EvalEntry(rule.outputs[k], eval, now, vars).v;
    r := RowOf(out);
  }

  // ---- collapsing the rows ----

  datatype Failure = NoRuleMatched | CellFailure | OutputFailure | UniqueViolation | AnyConflict | AggregatorType
  datatype Outcome = Failed(why: Failure) | Outputs(row: Row)

  function ColumnsOf(rows: seq<Row>): set<string> {
    set i, c | 0 <= i < |rows| && c in rows[i] :: c
  }

  /** A rule that omits a column contributes nil to it. */
  function At(row: Row, col: string): Value {
    if col in row then row[col] else Null
  }

  function Column(rows: seq<Row>, col: string): seq<Value> {
    seq(|rows|, i requires 0 <= i < |rows| => At(rows[i], col))
  }

  predicate Numeric(vals: seq<Value>) {
    forall i :: 0 <= i < |vals| ==> vals[i].Num?
  }

  function Sum(vals: seq<Value>): real
    requires Numeric(vals)
  {
    if vals == [] then 0.0 else Sum(vals[..|vals| - 1]) + vals[|vals| - 1].n
  }

  ghost predicate IsMax(m: real, vals: seq<Value>)
    requires Numeric(vals)
  {
    Num(m) in vals && forall i :: 0 <= i < |vals| ==> vals[i].n <= m
  }

  ghost predicate IsMin(m: real, vals: seq<Value>)
    requires Numeric(vals)
  {
    Num(m) in vals && forall i :: 0 <= i < |vals| ==> m <= vals[i].n
  }

  /** aggregateColumn's three numeric loops; `policy` selects the operator. */
  method AggregateColumn(policy: Policy, vals: seq<Value>) returns (r: Option<Value>)
    requires policy in {CSum, CCount, CMax, CMin} && vals != []
    ensures policy == CCount ==> r == Some(Num(|vals| as real))
    ensures policy != CCount ==> (r.Some? <==> Numeric(vals))
    ensures policy == CSum && r.Some? ==> r.value == Num(Sum(vals))
    ensures policy == CMax && r.Some? ==> r.value.Num? && IsMax(r.value.n, vals)
    ensures policy == CMin && r.Some? ==> r.value.Num? && IsMin(r.value.n, vals)
  {
    if policy == CCount {
      return Some(Num(|vals| as real));
    }
    for i := 0 to |vals|
      invariant forall j :: 0 <= j < i ==> vals[j].Num?
    {
      if !vals[i].Num? {
        return None;
      }
    }
    if policy == CSum {
      var sum := 0.0;
      for i := 0 to |vals|
        invariant sum == Sum(vals[..i])
      {
        assert vals[..i + 1][..i] == vals[..i];
        sum := sum + vals[i].n;
      }
      assert vals[..|vals|] == vals;
      return Some(Num(sum));
    }
    var m := vals[0].n;
    for i := 1 to |vals|
      invariant Num(m) in vals[..i]
      invariant policy == CMax ==> forall j :: 0 <= j < i ==> vals[j].n <= m
      invariant policy == CMin ==> forall j :: 0 <= j < i ==> m <= vals[j].n
    {
      if (policy == CMax && vals[i].n > m) || (policy == CMin && vals[i].n < m) {
        m := vals[i].n;
      }
    }
    r := Some(Num(m));
  }

  /** The value the aggregator must return, stated without its loop. */
  ghost predicate Aggregates(policy: Policy, vals: seq<Value>, v: Value)
    requires policy in {CSum, CCount, CMax, CMin}
  {
    if policy == CCount then v == Num(|vals| as real)
    else
      && Numeric(vals)
      && v.Num?
      && (policy == CSum ==> v.n == Sum(vals))
      && (policy == CMax ==> IsMax(v.n, vals))
      && (policy == CMin ==> IsMin(v.n, vals))
  }

  ghost predicate AnyAgree(rows: seq<Row>)
    requires rows != []
  {
    forall c, j :: c in rows[0] && 0 <= j < |rows| ==> At(rows[j], c) == rows[0][c]
  }

  /** What a hit policy makes of the rows of the matched rules, as a relation. */
  ghost predicate Collapses(policy: Policy, rows: seq<Row>, o: Outcome)
    requires rows != []
  {
    match policy
    case U => o == if |rows| > 1 then Failed(UniqueViolation) else Outputs(rows[0])
    case F => o == Outputs(rows[0])
    case A => o == if AnyAgree(rows) then Outputs(rows[0]) else Failed(AnyConflict)
    case R => o == Outputs(map c | c in ColumnsOf(rows) :: List(Column(rows, c)))
    case C => o == Outputs(map c | c in ColumnsOf(rows) :: List(Column(rows, c)))
    case _ =>
      if policy == CCount || forall c :: c in ColumnsOf(rows) ==> Numeric(Column(rows, c)) then
        && o.Outputs?
        && o.row.Keys == ColumnsOf(rows)
        && forall c :: c in o.row ==> Aggregates(policy, Column(rows, c), o.row[c])
      else o == Failed(AggregatorType)
  }

  /** The switch of handleDecisionTable, with its loops over columns and rows. */
  method Collapse(policy: Policy, rows: seq<Row>) returns (o: Outcome)
    requires rows != []
    ensures Collapses(policy, rows, o)
  {
    match policy
    case U => o := if |rows| > 1 then Failed(UniqueViolation) else Outputs(rows[0]);
    case F => o := Outputs(rows[0]);
    case A =>
      var todo := rows[0].Keys;
      while todo != {}
        invariant todo <= rows[0].Keys
        invariant forall c, j :: c in rows[0] && c !in todo && 0 <= j < |rows| ==> At(rows[j], c) == rows[0][c]
      {
        var c :| c in todo;
        for j := 1 to |rows|
          invariant forall i :: 0 <= i < j ==> At(rows[i], c) == rows[0][c]
        {
          if At(rows[j], c) != rows[0][c] {
            return Failed(AnyConflict);
          }
        }
        todo := todo - {c};
      }
      o := Outputs(rows[0]);
    case R => o := Outputs(map c | c in ColumnsOf(rows) :: List(Column(rows, c)));
    case C => o := Outputs(map c | c in ColumnsOf(rows) :: List(Column(rows, c)));
    case _ =>
      o := CollapseAggregate(policy, rows);
  }

  method CollapseAggregate(policy: Policy, rows: seq<Row>) returns (o: Outcome)
    requires rows != [] && policy in {CSum, CCount, CMax, CMin}
    ensures Collapses(policy, rows, o)
  {
    var todo := ColumnsOf(rows);
    var out: Row := map[];
    while todo != {}
      invariant todo <= ColumnsOf(rows)
      invariant out.Keys == ColumnsOf(rows) - todo
      invariant forall c :: c in out ==> Aggregates(policy, Column(rows, c), out[c])
      invariant policy != CCount ==> forall c :: c in out ==> Numeric(Column(rows, c))
    {
      var c :| c in todo;
      var v := AggregateColumn(policy, Column(rows, c));
      if v.None? {
        return Failed(AggregatorType);
      }
      out := out[c := v.value];
      todo := todo - {c};
    }
    o := Outputs(out);
  }

  // ---- laws of the hit policies ----

  /** Exactly one match: U, F and A give that rule's row. */
  lemma SingleMatchScalar(policy: Policy, row: Row, o: Outcome)
    requires policy in {U, F, A} && Collapses(policy, [row], o)
    ensures o == Outputs(row)
  {
    assert AnyAgree([row]);
  }

  lemma SingleRowColumns(row: Row)
    ensures ColumnsOf([row]) == row.Keys
    ensures forall c :: c in row ==> Column([row], c) == [row[c]]
  {
    forall c | c in row ensures c in ColumnsOf([row]) { assert [row][0] == row; }
  }

  /** Exactly one match: R and C give one-element lists. */
  lemma SingleMatchLists(policy: Policy, row: Row, o: Outcome)
    requires policy in {R, C} && Collapses(policy, [row], o)
    ensures o == Outputs(map c | c in row :: List([row[c]]))
  {
    SingleRowColumns(row);
    assert o.row == map c | c in row :: List([row[c]]);
  }

  lemma SingleValueAggregate(policy: Policy, x: Value, v: Value)
    requires policy in {CSum, CMax, CMin} && Aggregates(policy, [x], v)
    ensures v == x
  {
    assert [x][0] == x;
    assert [x][..0] == [];
    assert x.Num? && Sum([x]) == x.n;
  }

  /** Exactly one match: the numeric aggregators give that rule's numbers, or fail on a non-number. */
  lemma SingleMatchNumbers(policy: Policy, row: Row, o: Outcome)
    requires policy in {CSum, CMax, CMin} && Collapses(policy, [row], o)
    ensures o == if forall c :: c in row ==> row[c].Num? then Outputs(row) else Failed(AggregatorType)
  {
    SingleRowColumns(row);
    forall c | c in row ensures Numeric(Column([row], c)) <==> row[c].Num? {
      assert Column([row], c)[0] == row[c];
    }
    if o.Outputs? {
      forall c | c in row ensures o.row[c] == row[c] {
        SingleValueAggregate(policy, row[c], o.row[c]);
      }
      assert o.row == row;
    }
  }

  /** With any matches C# gives, in every declared column, the number of matched rules. */
  lemma CountIsMatches(rows: seq<Row>, o: Outcome)
    requires rows != [] && Collapses(CCount, rows, o)
    ensures o == Outputs(map c | c in ColumnsOf(rows) :: Num(|rows| as real))
  {
    forall c | c in ColumnsOf(rows) ensures o.row[c] == Num(|rows| as real) {
      assert Aggregates(CCount, Column(rows, c), o.row[c]);
    }
    assert o.row == map c | c in ColumnsOf(rows) :: Num(|rows| as real);
  }

  // ---- independence of the rule order ----

  ghost predicate Permutes(a: seq<Row>, b: seq<Row>) {
    multiset(a) == multiset(b)
  }

  lemma PermutedMember(a: seq<Row>, b: seq<Row>, i: nat) returns (j: nat)
    requires Permutes(a, b) && i < |a|
    ensures j < |b| && b[j] == a[i]
  {
    assert a[i] in multiset(b);
    j :| 0 <= j < |b| && b[j] == a[i];
  }

  lemma PermutedColumns(a: seq<Row>, b: seq<Row>)
    requires Permutes(a, b)
    ensures |a| == |b| && ColumnsOf(a) == ColumnsOf(b)
  {
    assert |a| == |multiset(a)| == |multiset(b)| == |b|;
    forall c | c in ColumnsOf(a) ensures c in ColumnsOf(b) {
      var i :| 0 <= i < |a| && c in a[i];
      var j := PermutedMember(a, b, i);
    }
    forall c | c in ColumnsOf(b) ensures c in ColumnsOf(a) {
      var i :| 0 <= i < |b| && c in b[i];
      var j := PermutedMember(b, a, i);
    }
  }

  /** Removing the row at `j` from `b` leaves a permutation of `a` without its last row. */
  lemma DropMatching(a: seq<Row>, b: seq<Row>, j: nat)
    requires a != [] && Permutes(a, b) && j < |b| && b[j] == a[|a| - 1]
    ensures Permutes(a[..|a| - 1], b[..j] + b[j + 1..])
  {
    assert a == a[..|a| - 1] + [a[|a| - 1]];
    assert b == b[..j] + [b[j]] + b[j + 1..];
    assert multiset(a) == multiset(a[..|a| - 1]) + multiset{b[j]};
    assert multiset(b) == multiset(b[..j]) + multiset{b[j]} + multiset(b[j + 1..]);
    assert multiset(b[..j] + b[j + 1..]) == multiset(b) - multiset{b[j]};
    assert multiset(a[..|a| - 1]) == multiset(a) - multiset{b[j]};
  }

  lemma {:induction false} SumWithout(s: seq<Value>, j: nat)
    requires Numeric(s) && j < |s|
    ensures Numeric(s[..j] + s[j + 1..]) && Sum(s) == Sum(s[..j] + s[j + 1..]) + s[j].n
    decreases |s|
  {
    var n := |s| - 1;
    var t := s[..j] + s[j + 1..];
    if j == n {
      assert t == s[..n];
    } else {
      SumWithout(s[..n], j);
      assert t[..n - 1] == s[..n][..j] + s[..n][j + 1..];
      assert t[n - 1] == s[n];
    }
  }

  lemma PermutedNumeric(a: seq<Row>, b: seq<Row>, col: string)
    requires Permutes(a, b) && Numeric(Column(a, col))
    ensures Numeric(Column(b, col))
  {
    forall i | 0 <= i < |b| ensures Column(b, col)[i].Num? {
      var j := PermutedMember(b, a, i);
      assert Column(a, col)[j].Num?;
    }
  }

  lemma {:induction false} PermutedSum(a: seq<Row>, b: seq<Row>, col: string)
    requires Permutes(a, b) && Numeric(Column(a, col)) && Numeric(Column(b, col))
    ensures Sum(Column(a, col)) == Sum(Column(b, col))
    decreases |a|
  {
    PermutedColumns(a, b);
    if a != [] {
      var n := |a| - 1;
      var j := PermutedMember(a, b, n);
      var b' := b[..j] + b[j + 1..];
      DropMatching(a, b, j);
      var colA, colB := Column(a, col), Column(b, col);
      assert Column(a[..n], col) == colA[..n];
      assert Column(b', col) == colB[..j] + colB[j + 1..];
      SumWithout(colB, j);
      PermutedSum(a[..n], b', col);
    }
  }

  lemma PermutedAggregate(policy: Policy, a: seq<Row>, b: seq<Row>, col: string, v: Value)
    requires policy in {CSum, CCount, CMax, CMin} && Permutes(a, b)
    requires Aggregates(policy, Column(a, col), v)
    ensures Aggregates(policy, Column(b, col), v)
  {
    PermutedColumns(a, b);
    if policy != CCount {
      var colA, colB := Column(a, col), Column(b, col);
      PermutedNumeric(a, b, col);
      if policy == CSum {
        PermutedSum(a, b, col);
      } else {
        var i :| 0 <= i < |colA| && colA[i] == v;
        var j := PermutedMember(a, b, i);
        assert colB[j] == v;
        forall k | 0 <= k < |colB| ensures colB[k] in colA {
          var m := PermutedMember(b, a, k);
          assert colA[m] == colB[k];
        }
      }
    }
  }

  /** The aggregators do not depend on the order of the rules, whatever columns the rules declare. */
  lemma AggregatesIgnoreRuleOrder(policy: Policy, a: seq<Row>, b: seq<Row>, o: Outcome)
    requires policy in {CSum, CCount, CMax, CMin} && a != [] && Permutes(a, b) && Collapses(policy, a, o)
    ensures b != [] && Collapses(policy, b, o)
  {
    PermutedColumns(a, b);
    if o.Outputs? {
      forall c | c in o.row ensures Aggregates(policy, Column(b, c), o.row[c]) {
        PermutedAggregate(policy, a, b, c, o.row[c]);
      }
      if policy != CCount {
        forall c | c in ColumnsOf(b) ensures Numeric(Column(b, c)) {
          PermutedNumeric(a, b, c);
        }
      }
    } else {
      if forall c :: c in ColumnsOf(b) ==> Numeric(Column(b, c)) {
        forall c | c in ColumnsOf(a) ensures Numeric(Column(a, c)) {
          PermutedNumeric(b, a, c);
        }
      }
    }
  }

  /** Two results of an aggregator on the same rows are equal: the relation is a function. */
  lemma CollapseUnique(policy: Policy, rows: seq<Row>, o: Outcome, p: Outcome)
    requires rows != [] && Collapses(policy, rows, o) && Collapses(policy, rows, p)
    ensures o == p
  {
    if o.Outputs? && policy in {CSum, CCount, CMax, CMin} {
      forall c | c in o.row ensures o.row[c] == p.row[c] {
        var vals := Column(rows, c);
        assert Aggregates(policy, vals, o.row[c]) && Aggregates(policy, vals, p.row[c]);
        if policy == CMax || policy == CMin {
          var i :| 0 <= i < |vals| && vals[i] == o.row[c];
          var j :| 0 <= j < |vals| && vals[j] == p.row[c];
        }
      }
      assert o.row == p.row;
    }
  }

  ghost predicate SameColumns(rows: seq<Row>) {
    forall i, j :: 0 <= i < |rows| && 0 <= j < |rows| ==> rows[i].Keys == rows[j].Keys
  }

  /** Every row has the values row `i` declares. */
  ghost predicate Leads(rows: seq<Row>, i: nat)
    requires i < |rows|
  {
    forall c, j :: c in rows[i] && 0 <= j < |rows| ==> At(rows[j], c) == rows[i][c]
  }

  ghost predicate AllEqual(rows: seq<Row>) {
    forall i, j :: 0 <= i < |rows| && 0 <= j < |rows| ==> rows[i] == rows[j]
  }

  /** One outcome for all orders of the matched rules. */
  ghost predicate AnyOrderFree(rows: seq<Row>) {
    exists o :: AlwaysGives(rows, o)
  }

  ghost predicate AlwaysGives(rows: seq<Row>, o: Outcome) {
    forall b :: Permutes(rows, b) && b != [] ==> Collapses(A, b, o)
  }

  function ToFront(rows: seq<Row>, i: nat): seq<Row>
    requires i < |rows|
  {
    [rows[i]] + rows[..i] + rows[i + 1..]
  }

  lemma ToFrontPermutes(rows: seq<Row>, i: nat)
    requires i < |rows|
    ensures Permutes(rows, ToFront(rows, i)) && ToFront(rows, i)[0] == rows[i]
  {
    assert rows == rows[..i] + [rows[i]] + rows[i + 1..];
  }

  /** Whether a permutation agrees depends only on which row comes first. */
  lemma AgreeIsLeading(a: seq<Row>, b: seq<Row>, i: nat)
    requires Permutes(a, b) && b != [] && i < |a| && b[0] == a[i]
    ensures AnyAgree(b) <==> Leads(a, i)
  {
    if Leads(a, i) {
      forall c, j | c in b[0] && 0 <= j < |b| ensures At(b[j], c) == b[0][c] {
        var k := PermutedMember(b, a, j);
      }
    }
    if AnyAgree(b) {
      forall c, j | c in a[i] && 0 <= j < |a| ensures At(a[j], c) == a[i][c] {
        var k := PermutedMember(a, b, j);
      }
    }
  }

  /**
   A gives the same outcome for every order of the matched rules exactly when all their rows
   are equal, or none of them agrees with all the others.
   */
  lemma AnyOrderFreeIff(rows: seq<Row>)
    requires rows != []
    ensures AnyOrderFree(rows) <==> AllEqual(rows) || forall i :: 0 <= i < |rows| ==> !Leads(rows, i)
  {
    if AnyOrderFree(rows) {
      var o :| AlwaysGives(rows, o);
      FreeForcesEqual(rows, o);
    }
    if AllEqual(rows) {
      EqualIsFree(rows, rows[0]);
    } else if forall i :: 0 <= i < |rows| ==> !Leads(rows, i) {
      forall b | Permutes(rows, b) && b != [] ensures Collapses(A, b, Failed(AnyConflict)) {
        var i := PermutedMember(b, rows, 0);
        AgreeIsLeading(rows, b, i);
      }
      assert AlwaysGives(rows, Failed(AnyConflict));
    }
  }

  lemma FreeForcesEqual(rows: seq<Row>, o: Outcome)
    requires AlwaysGives(rows, o)
    ensures AllEqual(rows) || forall i :: 0 <= i < |rows| ==> !Leads(rows, i)
  {
    forall i | 0 <= i < |rows| ensures o == if Leads(rows, i) then Outputs(rows[i]) else Failed(AnyConflict) {
      ToFrontPermutes(rows, i);
      AgreeIsLeading(rows, ToFront(rows, i), i);
    }
  }

  lemma EqualIsFree(rows: seq<Row>, row: Row)
    requires rows != [] && row == rows[0] && AllEqual(rows)
    ensures AlwaysGives(rows, Outputs(row))
  {
    forall b | Permutes(rows, b) && b != [] ensures Collapses(A, b, Outputs(row)) {
      var i := PermutedMember(b, rows, 0);
      AgreeIsLeading(rows, b, i);
      assert Leads(rows, i);
    }
  }

  /** In particular A is order-free when the matched rules declare the same columns. */
  lemma AnyIgnoresRuleOrder(rows: seq<Row>)
    requires rows != [] && SameColumns(rows)
    ensures AnyOrderFree(rows)
  {
    AnyOrderFreeIff(rows);
    if i :| 0 <= i < |rows| && Leads(rows, i) {
      ToFrontPermutes(rows, i);
      var b := ToFront(rows, i);
      AgreeIsLeading(rows, b, i);
      PermutedSameColumns(rows, b);
      AllRowsEqual(b);
      forall j, k | 0 <= j < |rows| && 0 <= k < |rows| ensures rows[j] == rows[k] {
        var x := PermutedMember(rows, b, j);
        var y := PermutedMember(rows, b, k);
      }
    }
  }

  lemma PermutedSameColumns(a: seq<Row>, b: seq<Row>)
    requires Permutes(a, b) && SameColumns(a)
    ensures SameColumns(b)
  {
    forall i, j | 0 <= i < |b| && 0 <= j < |b| ensures b[i].Keys == b[j].Keys {
      var x := PermutedMember(b, a, i);
      var y := PermutedMember(b, a, j);
    }
  }

  lemma AllRowsEqual(rows: seq<Row>)
    requires rows != [] && SameColumns(rows) && AnyAgree(rows)
    ensures forall i :: 0 <= i < |rows| ==> rows[i] == rows[0]
  {
    forall i | 0 <= i < |rows| ensures rows[i] == rows[0] {
      assert rows[i].Keys == rows[0].Keys;
      forall c | c in rows[i] ensures rows[i][c] == rows[0][c] {
        assert At(rows[i], c) == rows[0][c];
      }
    }
  }

  /** Two rows that differ, one of which agrees with both: their order decides. */
  lemma AnyOrderWitness()
    ensures !AnyOrderFree([map[], map["x" := Num(1.0)]])
  {
    var rows: seq<Row> := [map[], map["x" := Num(1.0)]];
    assert Leads(rows, 0) && "x" in rows[1] && rows[0] != rows[1];
    AnyOrderFreeIff(rows);
  }

  // ---- the whole step ----

  /** What the step does to the instance: fail it, or merge the outputs and move on. */
  ghost predicate Decides(rules: seq<Rule>, policy: Policy, orders: nat -> seq<string>, eval: Evaluator, now: Value,
                          vars: Vars, o: Outcome)
  {
    match Collect(rules, orders, eval, vars, |rules|)
    case MatchFailed => o == Failed(CellFailure)
    case Matches(idx) =>
      if idx == [] then o == Failed(NoRuleMatched)
      else
        assert forall k :: 0 <= k < |idx| ==> idx[k] in idx;
        match RuleRows(rules, idx, eval, now, vars)
        case RowsFailed => o == Failed(OutputFailure)
        case RowsOf(rows) => Collapses(policy, rows, o)
  }

  method CollectMatches(rules: seq<Rule>, orders: nat -> seq<string>, eval: Evaluator, vars: Vars) returns (m: Matched)
    ensures m == Collect(rules, orders, eval, vars, |rules|)
  {
    var matched: seq<nat> := [];
    for i := 0 to |rules|
      invariant Collect(rules, orders, eval, vars, i) == Matches(matched)
    {
      var r := RuleMatches(rules[i].cells, orders(i), eval, vars);
      match r
      case CellError =>
        CollectFailedEarly(rules, orders, eval, vars, i + 1);
        return MatchFailed;
      case No =>
      case Yes => matched := matched + [i];
    }
    m := Matches(matched);
  }

  lemma RowsStep(rules: seq<Rule>, idx: seq<nat>, i: nat, eval: Evaluator, now: Value, vars: Vars, rows: seq<Row>)
    requires (forall k :: 0 <= k < |idx| ==> idx[k] < |rules|) && i < |idx|
    requires RuleRows(rules, idx[..i], eval, now, vars) == RowsOf(rows)
    ensures var row := RuleRow(rules[idx[i]], eval, now, vars);
            RuleRows(rules, idx[..i + 1], eval, now, vars) == if row.RowFailed? then RowsFailed else RowsOf(rows + [row.row])
  {
    hide RuleRow;
    assert idx[..i + 1][..i] == idx[..i] && idx[..i + 1][i] == idx[i];
  }

  method EvaluateRows(rules: seq<Rule>, idx: seq<nat>, eval: Evaluator, now: Value, vars: Vars) returns (r: RowsResult)
    requires forall k :: 0 <= k < |idx| ==> idx[k] < |rules|
    ensures r == RuleRows(rules, idx, eval, now, vars)
  {
    hide RuleRow;
    var rows: seq<Row> := [];
    for i := 0 to |idx|
      invariant RuleRows(rules, idx[..i], eval, now, vars) == RowsOf(rows)
    {
      assert idx[..i + 1][..i] == idx[..i];
      assert idx[..i + 1][i] == idx[i];
      var row := EvaluateRuleOutputs(rules[idx[i]], eval, now, vars);
      RowsStep(rules, idx, i, eval, now, vars, rows);
      hide RuleRows;
      match row
      case RowFailed =>
        RowsFailedEarly(rules, idx, i + 1, eval, now, vars);
        return RowsFailed;
      case RowOf(one) => rows := rows + [one];
    }
    assert idx[..|idx|] == idx;
    r := RowsOf(rows);
  }

  /** handleDecisionTable up to the variable merge. */
  method Decide(rules: seq<Rule>, policy: Policy, orders: nat -> seq<string>, eval: Evaluator, now: Value, vars: Vars)
    returns (o: Outcome)
    ensures Decides(rules, policy, orders, eval, now, vars, o)
  {
    var m := CollectMatches(rules, orders, eval, vars);
    if m.MatchFailed? {
      return Failed(CellFailure);
    }
    if m.idx == [] {
      return Failed(NoRuleMatched);
    }
    assert forall k :: 0 <= k < |m.idx| ==> m.idx[k] in m.idx;
    var r := EvaluateRows(rules, m.idx, eval, now, vars);
    if r.RowsFailed? {
      return Failed(OutputFailure);
    }
    o := Collapse(policy, r.rows);
  }

  lemma {:induction false} RowsFailedEarly(rules: seq<Rule>, idx: seq<nat>, n: nat, eval: Evaluator, now: Value, vars: Vars)
    requires n <= |idx| && forall k :: 0 <= k < |idx| ==> idx[k] < |rules|
    requires RuleRows(rules, idx[..n], eval, now, vars) == RowsFailed
    ensures RuleRows(rules, idx, eval, now, vars) == RowsFailed
    decreases |idx| - n
  {
    if n == |idx| {
      assert idx[..n] == idx;
    } else {
      assert idx[..n + 1][..n] == idx[..n];
      RowsFailedEarly(rules, idx, n + 1, eval, now, vars);
    }
  }

  lemma {:induction false} CollectFailedEarly(rules: seq<Rule>, orders: nat -> seq<string>, eval: Evaluator, vars: Vars, n: nat)
    requires n <= |rules| && Collect(rules, orders, eval, vars, n) == MatchFailed
    ensures Collect(rules, orders, eval, vars, |rules|) == MatchFailed
    decreases |rules| - n
  {
    if n < |rules| {
      CollectFailedEarly(rules, orders, eval, vars, n + 1);
    }
  }

  /** The step's result is unique, so the relation above is a specification of one answer. */
  lemma DecidesUnique(rules: seq<Rule>, policy: Policy, orders: nat -> seq<string>, eval: Evaluator, now: Value,
                      vars: Vars, o: Outcome, p: Outcome)
    requires Decides(rules, policy, orders, eval, now, vars, o) && Decides(rules, policy, orders, eval, now, vars, p)
    ensures o == p
  {
    var m := Collect(rules, orders, eval, vars, |rules|);
    if m.Matches? && m.idx != [] {
      assert forall k :: 0 <= k < |m.idx| ==> m.idx[k] in m.idx;
      var r := RuleRows(rules, m.idx, eval, now, vars);
      if r.RowsOf? {
        CollapseUnique(policy, r.rows, o, p);
      }
    }
  }
}
