/** Directed graphs over step ids, given by their successor lists. */
module Graphs {

  type Graph = string -> seq<string>

  /** `b` can be reached from `a` along at most `n` edges. */
  ghost predicate Within(g: Graph, a: string, b: string, n: nat)
    decreases n
  {
    a == b || (n > 0 && exists c :: c in g(a) && Within(g, c, b, n - 1))
  }

  ghost predicate Reaches(g: Graph, a: string, b: string) {
    exists n: nat :: Within(g, a, b, n)
  }

  /** `b` can be reached from `a` along one edge or more. */
  ghost predicate ReachesPlus(g: Graph, a: string, b: string) {
    exists c :: c in g(a) && Reaches(g, c, b)
  }

  ghost predicate OnCycle(g: Graph, a: string) {
    ReachesPlus(g, a, a)
  }

  lemma ReachesSelf(g: Graph, a: string)
    ensures Reaches(g, a, a)
  {
    assert Within(g, a, a, 0);
  }

  lemma ReachesStep(g: Graph, a: string, c: string, b: string)
    requires c in g(a) && Reaches(g, c, b)
    ensures Reaches(g, a, b)
  {
    var n: nat :| Within(g, c, b, n);
    assert Within(g, a, b, n + 1);
  }

  lemma ReachesEdge(g: Graph, a: string, b: string)
    requires b in g(a)
    ensures Reaches(g, a, b) && ReachesPlus(g, a, b)
  {
    ReachesSelf(g, b);
    ReachesStep(g, a, b, b);
  }

  lemma {:induction false} WithinTransitive(g: Graph, a: string, b: string, c: string, n: nat)
    requires Within(g, a, b, n) && Reaches(g, b, c)
    ensures Reaches(g, a, c)
    decreases n
  {
    if a != b {
      var d :| d in g(a) && Within(g, d, b, n - 1);
      WithinTransitive(g, d, b, c, n - 1);
      ReachesStep(g, a, d, c);
    }
  }

  lemma ReachesTransitive(g: Graph, a: string, b: string, c: string)
    requires Reaches(g, a, b) && Reaches(g, b, c)
    ensures Reaches(g, a, c)
  {
    var n: nat :| Within(g, a, b, n);
    WithinTransitive(g, a, b, c, n);
  }

  /** A path of one edge or more, continued by one edge. */
  lemma PlusSnoc(g: Graph, a: string, b: string, c: string)
    requires ReachesPlus(g, a, b) && c in g(b)
    ensures ReachesPlus(g, a, c)
  {
    var d :| d in g(a) && Reaches(g, d, b);
    ReachesEdge(g, b, c);
    ReachesTransitive(g, d, b, c);
  }

  ghost predicate ClosedUnder(g: Graph, s: set<string>) {
    forall a, b :: a in s && b in g(a) ==> b in s
  }

  lemma {:induction false} ClosedWithin(g: Graph, s: set<string>, a: string, b: string, n: nat)
    requires ClosedUnder(g, s) && a in s && Within(g, a, b, n)
    ensures b in s
    decreases n
  {
    if a != b {
      var c :| c in g(a) && Within(g, c, b, n - 1);
      ClosedWithin(g, s, c, b, n - 1);
    }
  }

  /** Reachability is the least closed set. */
  lemma ClosedContains(g: Graph, s: set<string>, a: string)
    requires ClosedUnder(g, s) && a in s
    ensures forall b :: Reaches(g, a, b) ==> b in s
  {
    forall b | Reaches(g, a, b) ensures b in s {
      var n: nat :| Within(g, a, b, n);
      ClosedWithin(g, s, a, b, n);
    }
  }

  lemma SubsetSize(a: set<string>, b: set<string>)
    requires a <= b
    ensures |a| <= |b|
  {
    assert b == a + (b - a);
  }
}
