/**
 Values shared by the workflow engine's parts: JSON-like variable values, the variable map of
 an instance and the results of evaluating an expression against it.
 */
module Values {

  datatype Option<+T> = None | Some(value: T)

  /** A parsed JSON value. Numbers are exact reals: rounding is not modelled. */
  datatype Value =
    | Null
    | Bool(b: bool)
    | Num(n: real)
    | Str(s: string)
    | List(items: seq<Value>)

  /** The variables of an instance (`workflow_instance.variables`). */
  type Vars = map<string, Value>

  datatype EvalResult = Val(v: Value) | EvalError

  /** The expression language, as a deterministic function of the text and the variables. */
  type Evaluator = (string, Vars) -> EvalResult

  /**
   The right-hand side of a TRANSFORMATION entry or a decision-table output: a JSON literal,
   `"${now()}"`, or `"${text}"`.
   */
  datatype Entry = Literal(v: Value) | Now | Expr(text: string)

  function EvalEntry(e: Entry, eval: Evaluator, now: Value, vars: Vars): EvalResult {
    match e
    case Literal(v) => Val(v)
    case Now => Val(now)
    case Expr(text) => eval(text, vars)
  }

  ghost predicate NoDup<T>(s: seq<T>) {
    forall i, j :: 0 <= i < j < |s| ==> s[i] != s[j]
  }

  /** `order` lists every key exactly once: one possible iteration order of a Go map. */
  ghost predicate IsOrder(order: seq<string>, keys: set<string>) {
    NoDup(order) && (forall k :: k in order <==> k in keys)
  }

  /** Every finite key set has an iteration order that starts with any chosen key. */
  lemma {:induction false} OrderStartingWith(keys: set<string>, first: string) returns (order: seq<string>)
    requires first in keys
    ensures IsOrder(order, keys) && order[0] == first
    decreases |keys|
  {
    var rest := keys - {first};
    if rest == {} {
      order := [first];
      assert keys == {first};
    } else {
      var x :| x in rest;
      var tail := OrderStartingWith(rest, x);
      order := [first] + tail;
    }
  }
}
