/**
 The cache of compiled expressions (internal/expression/evaluator.go): a least-recently-used
 list of programs, flushed whenever coercion is switched.
 */
module ProgramCache {
  import opened Values

  // ---- recency ----

  function Without(s: seq<string>, k: string): (r: seq<string>)
    ensures forall x :: x in r <==> x in s && x != k
    ensures NoDup(s) ==> NoDup(r)
    ensures k !in s ==> r == s
    ensures |r| <= |s|
  {
    if s == [] then []
    else
      var n := |s| - 1;
      assert s == s[..n] + [s[n]];
      assert NoDup(s) ==> s[n] !in s[..n];
      if s[n] == k then Without(s[..n], k) else Without(s[..n], k) + [s[n]]
  }

  /** The position of the last use of `k`, or -1. */
  function LastUse(uses: seq<string>, k: string): (m: int)
    ensures -1 <= m < |uses|
    ensures m == -1 <==> k !in uses
    ensures m >= 0 ==> uses[m] == k
    ensures forall i :: m < i < |uses| ==> uses[i] != k
  {
    if uses == [] then -1
    else if uses[|uses| - 1] == k then |uses| - 1
    else
      assert uses == uses[..|uses| - 1] + [uses[|uses| - 1]];
      LastUse(uses[..|uses| - 1], k)
  }

  /** Using `k` puts it in front. */
  function Touch(order: seq<string>, k: string): seq<string> {
    [k] + Without(order, k)
  }

  /** The distinct keys of a history of uses, as a list that every use reorders. */
  function Recent(uses: seq<string>): seq<string> {
    if uses == [] then [] else Touch(Recent(uses[..|uses| - 1]), uses[|uses| - 1])
  }

  /** Strictly by last use, the latest first. */
  ghost predicate ByLastUse(uses: seq<string>, order: seq<string>) {
    forall i, j :: 0 <= i < j < |order| ==> LastUse(uses, order[i]) > LastUse(uses, order[j])
  }

  lemma {:induction false} WithoutOrdered(uses: seq<string>, order: seq<string>, k: string)
    requires ByLastUse(uses, order)
    ensures ByLastUse(uses, Without(order, k))
  {
    hide LastUse;
    if order != [] {
      var n := |order| - 1;
      assert order == order[..n] + [order[n]];
      WithoutOrdered(uses, order[..n], k);
      var rest := Without(order[..n], k);
      forall i | 0 <= i < |rest| ensures LastUse(uses, rest[i]) > LastUse(uses, order[n]) {
        assert rest[i] in order[..n];
      }
    }
  }

  lemma FrontIsLatest(uses: seq<string>, before: seq<string>, k: string, rest: seq<string>)
    requires ByLastUse(before, rest) && NoDup(rest) && k !in rest
    requires forall i :: 0 <= i < |rest| ==> LastUse(uses, rest[i]) == LastUse(before, rest[i]) < LastUse(uses, k)
    ensures ByLastUse(uses, [k] + rest) && NoDup([k] + rest)
  {
    hide LastUse;
  }

  /** `Recent` lists exactly the keys used, each once, strictly by last use. */
  lemma {:induction false} RecentIsByLastUse(uses: seq<string>)
    ensures forall k :: k in Recent(uses) <==> k in uses
    ensures ByLastUse(uses, Recent(uses)) && NoDup(Recent(uses))
  {
    if uses != [] {
      var n := |uses| - 1;
      var k, before := uses[n], Recent(uses[..n]);
      assert uses == uses[..n] + [k];
      RecentIsByLastUse(uses[..n]);
      WithoutOrdered(uses[..n], before, k);
      var rest := Without(before, k);
      forall i | 0 <= i < |rest| ensures LastUse(uses, rest[i]) == LastUse(uses[..n], rest[i]) < n {
        assert rest[i] in rest;
      }
      assert LastUse(uses, k) == n;
      assert Recent(uses) == [k] + rest;
      hide LastUse, Recent;
      FrontIsLatest(uses, uses[..n], k, rest);
    }
  }

  // ---- bounded by the capacity ----

  function Take(s: seq<string>, n: nat): seq<string> {
    if |s| <= n then s else s[..n]
  }

  /** Even a capacity of zero or less holds the entry just inserted. */
  function Room(cap: int): nat {
    if cap < 1 then 1 else cap
  }

  lemma {:induction false} WithoutConcat(a: seq<string>, b: seq<string>, k: string)
    ensures Without(a + b, k) == Without(a, k) + Without(b, k)
  {
    if b == [] {
      assert a + b == a;
    } else {
      var n := |b| - 1;
      assert (a + b)[..|a + b| - 1] == a + b[..n];
      WithoutConcat(a, b[..n], k);
    }
  }

  lemma {:induction false} WithoutLength(s: seq<string>, k: string)
    requires NoDup(s) && k in s
    ensures |Without(s, k)| == |s| - 1
  {
    var n := |s| - 1;
    assert s == s[..n] + [s[n]];
    if s[n] == k {
      assert k !in s[..n];
    } else {
      WithoutLength(s[..n], k);
    }
  }

  /** Touching the bounded list and dropping what no longer fits is touching the full one. */
  lemma TouchBounded(s: seq<string>, k: string, n: nat)
    requires NoDup(s) && n >= 1
    ensures var t := Take(s, n);
            Take(Touch(s, k), n) == if k in t then Touch(t, k) else if |t| >= n then [k] + t[..|t| - 1] else [k] + t
  {
    hide NoDup;
    var t := Take(s, n);
    var rest := s[|t|..];
    assert s == t + rest;
    WithoutConcat(t, rest, k);
    var wt, wr := Without(t, k), Without(rest, k);
    assert Touch(s, k) == [k] + (wt + wr);
    if k in t {
      TakeNoDup(s, n);
      WithoutLength(t, k);
      assert |s| > n ==> Touch(s, k)[..n] == [k] + wt;
      if |s| <= n {
        assert rest == [] && Touch(s, k) == Touch(t, k);
      }
    } else {
      assert wt == t;
      if |t| >= n {
        assert Touch(s, k)[..n] == [k] + t[..n - 1];
      } else {
        assert rest == [];
      }
    }
  }

  lemma TakeNoDup(s: seq<string>, n: nat)
    requires NoDup(s)
    ensures NoDup(Take(s, n))
  {
  }

  /** One use, on the bounded list. */
  function Used(order: seq<string>, k: string, n: nat): seq<string> {
    if k in order then Touch(order, k) else if |order| >= n then [k] + Front(order) else [k] + order
  }

  function Front(s: seq<string>): seq<string> {
    if s == [] then [] else s[..|s| - 1]
  }

  /** The bounded list after one more use holds the latest keys of the longer history. */
  lemma UseBounded(uses: seq<string>, k: string, n: nat)
    requires n >= 1
    ensures Take(Recent(uses + [k]), n) == Used(Take(Recent(uses), n), k, n)
  {
    RecentIsByLastUse(uses);
    TouchBounded(Recent(uses), k, n);
    assert (uses + [k])[..|uses|] == uses;
  }

  // ---- keys and programs ----

  function Key(text: string, coerce: bool): string {
    if coerce then "coerce:" + text else text
  }

  /** Under one setting different texts have different keys. */
  lemma KeysDistinct(a: string, b: string, coerce: bool)
    requires Key(a, coerce) == Key(b, coerce)
    ensures a == b
  {
    assert coerce ==> Key(a, coerce)[7..] == a && Key(b, coerce)[7..] == b;
  }

  /** Across settings they may not: without the flush a hit could return the other program. */
  lemma KeysCollide(text: string)
    ensures Key("coerce:" + text, false) == Key(text, true) && "coerce:" + text != text
  {
    assert |"coerce:" + text| == 7 + |text|;
  }

  type Compiler<Program> = (string, bool) -> Option<Program>

  /** The entry for `key` is what compiling its text under this setting gives. */
  ghost predicate Compiled<Program(!new)>(compile: Compiler<Program>, coerce: bool, key: string, p: Program) {
    exists text :: key == Key(text, coerce) && compile(text, coerce) == Some(p)
  }

  ghost predicate Listed<Program>(order: seq<string>, items: map<string, Program>) {
    NoDup(order) && forall k :: k in items <==> k in order
  }

  lemma ListedTouch<Program>(order: seq<string>, items: map<string, Program>, k: string)
    requires Listed(order, items) && k in order
    ensures Listed(Touch(order, k), items)
  {
  }

  lemma ListedDrop<Program>(order: seq<string>, items: map<string, Program>)
    requires Listed(order, items) && order != []
    ensures Listed(Front(order), items - {order[|order| - 1]})
  {
    assert order == Front(order) + [order[|order| - 1]];
  }

  lemma ListedPush<Program>(order: seq<string>, items: map<string, Program>, k: string, p: Program)
    requires Listed(order, items) && k !in order
    ensures Listed([k] + order, items[k := p])
  {
  }

  /** The package-level cache together with the coercion switch; `uses` is history. */
  class Cache<Program(!new)> {
    const cap: int
    const compile: Compiler<Program>
    var coercion: bool
    var items: map<string, Program>
    var order: seq<string>
    ghost var uses: seq<string>

    /** The cache holds the keys used since the last switch, the latest first, up to capacity. */
    ghost predicate Valid()
      reads this
    {
      && order == Take(Recent(uses), Room(cap))
      && Listed(order, items)
      && (forall k :: k in items ==> Compiled(compile, coercion, k, items[k]))
    }

    constructor (cap: int, compile: Compiler<Program>)
      ensures Valid() && coercion && uses == [] && this.cap == cap && this.compile == compile
    {
      this.cap := cap;
      this.compile := compile;
      coercion := true;
      items := map[];
      order := [];
      uses := [];
    }

    /** SetCoercionEnabled. */
    method SetCoercion(b: bool)
      modifies this
      ensures Valid() && coercion == b && uses == [] && items == map[]
    {
      coercion := b;
      items := map[];
      order := [];
      uses := [];
    }

    method Get(key: string) returns (hit: Option<Program>)
      requires Valid()
      modifies this`order, this`uses
      ensures Valid()
      ensures hit == if key in items then Some(items[key]) else None
      ensures uses == if hit.Some? then old(uses) + [key] else old(uses)
    {
      hide Recent, Take, Without, Touch, Compiled;
      if key !in items {
        return None;
      }
      hit := Some(items[key]);
      UseBounded(uses, key, Room(cap));
      ListedTouch(order, items, key);
      order := Touch(order, key);
      uses := uses + [key];
    }

    method Set(key: string, p: Program)
      requires Valid() && Compiled(compile, coercion, key, p)
      modifies this`order, this`uses, this`items
      ensures Valid() && uses == old(uses) + [key] && key in items
      ensures key !in old(items) ==> items[key] == p
    {
      hide Recent, Take, Without, Touch, Compiled;
      UseBounded(uses, key, Room(cap));
      uses := uses + [key];
      if key in items {
        ListedTouch(order, items, key);
        order := Touch(order, key);
        return;
      }
      if |order| >= cap && order != [] {
        ListedDrop(order, items);
        items := items - {order[|order| - 1]};
        order := Front(order);
      }
      ListedPush(order, items, key, p);
      order := [key] + order;
      items := items[key := p];
    }

    /** compileExpr: a hit or a miss, the result is what a fresh compile would give. */
    method CompileExpr(text: string) returns (p: Option<Program>)
      requires Valid()
      modifies this`order, this`uses, this`items
      ensures Valid() && p == compile(text, coercion)
      ensures uses == if p.Some? then old(uses) + [Key(text, coercion)] else old(uses)
    {
      var key := Key(text, coercion);
      if key in items {
        ghost var t :| key == Key(t, coercion) && compile(t, coercion) == Some(items[key]);
        KeysDistinct(t, text, coercion);
      }
      p := Get(key);
      if p.Some? {
        return;
      }
      p := compile(text, coercion);
      if p.Some? {
        Set(key, p.value);
      }
    }
  }
}
