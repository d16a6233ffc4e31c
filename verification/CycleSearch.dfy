/**
 checkGraphCycle of the modeller's validator: a three-colour depth-first search over the
 declared steps. It reports a cycle exactly when there is one, and names a step on it.
 */
module CycleSearch {
  import opened Values
  import opened Graphs
  import opened Definitions
  import opened Modeller

  datatype Color = White | Gray | Black

  /** `path` leads from its first node to its last along edges of `g`. */
  ghost predicate IsPath(g: Graph, path: seq<string>) {
    forall i :: 0 < i < |path| ==> path[i] in g(path[i - 1])
  }

  lemma {:induction false} PathReaches(g: Graph, path: seq<string>, i: nat, k: nat)
    requires IsPath(g, path) && i <= k < |path|
    ensures Reaches(g, path[i], path[k])
    decreases k - i
  {
    if i == k {
      ReachesSelf(g, path[i]);
    } else {
      PathReaches(g, path, i + 1, k);
      assert path[i + 1] in g(path[i + 1 - 1]);
      ReachesStep(g, path[i], path[i + 1], path[k]);
    }
  }

  /** Every edge between nodes of `done` points to an earlier one. */
  ghost predicate Finished(g: Graph, nodes: set<string>, done: seq<string>) {
    && NoDup(done)
    && forall i, t :: 0 <= i < |done| && t in g(done[i]) && t in nodes ==> t in done[..i]
  }

  lemma {:induction false} FinishedDescends(g: Graph, nodes: set<string>, done: seq<string>, a: nat, b: string, n: nat)
    requires Finished(g, nodes, done) && a < |done| && Within(g, done[a], b, n) && b in nodes
    requires forall x :: x !in nodes ==> g(x) == []
    ensures b in done[..a + 1]
    decreases n
  {
    if done[a] == b {
      assert done[..a + 1][a] == b;
    } else {
      var c :| c in g(done[a]) && Within(g, c, b, n - 1);
      if c in nodes {
        var i :| 0 <= i < a && done[..a][i] == c;
        FinishedDescends(g, nodes, done, i, b, n - 1);
        Earlier(done, i, a, b);
      }
    }
  }

  lemma Earlier(done: seq<string>, i: nat, a: nat, b: string)
    requires i <= a < |done| && b in done[..i + 1]
    ensures b in done[..a + 1]
  {
    assert done[..a + 1][..i + 1] == done[..i + 1];
  }

  lemma NotEarlier(done: seq<string>, i: nat, a: nat)
    requires NoDup(done) && i < a < |done|
    ensures done[a] !in done[..i + 1]
  {
  }

  /** A finished list holds no cycle. */
  lemma FinishedAcyclic(g: Graph, nodes: set<string>, done: seq<string>, x: string)
    requires Finished(g, nodes, done) && x in done && x in nodes
    requires forall y :: y !in nodes ==> g(y) == []
    ensures !OnCycle(g, x)
  {
    if OnCycle(g, x) {
      var c :| c in g(x) && Reaches(g, c, x);
      var a :| 0 <= a < |done| && done[a] == x;
      if c in nodes {
        var n: nat :| Within(g, c, x, n);
        assert c in done[..a];
        var i :| 0 <= i < a && done[..a][i] == c;
        NotEarlier(done, i, a);
        FinishedDescends(g, nodes, done, i, x, n);
      } else {
        UndeclaredEnds(g, c, x);
      }
    }
  }

  lemma UndeclaredEnds(g: Graph, c: string, x: string)
    requires g(c) == [] && Reaches(g, c, x)
    ensures c == x
  {
    var n: nat :| Within(g, c, x, n);
  }

  type Colors = map<string, Color>

  /** While no cycle was found the gray nodes are the open calls and the black ones are finished. */
  ghost predicate Open(g: Graph, nodes: set<string>, color: Colors, done: seq<string>, path: seq<string>) {
    && color.Keys == nodes && NoDup(path) && IsPath(g, path)
    && (forall x :: x in path ==> x in nodes)
    && (forall x :: x in done ==> x in nodes)
    && (forall x :: x in nodes ==> (color[x] == Gray <==> x in path) && (color[x] == Black <==> x in done))
    && Finished(g, nodes, done)
  }

  ghost function Whites(color: Colors): set<string> {
    set x | x in color && color[x] == White
  }

  lemma OpenStarts(g: Graph, nodes: set<string>)
    ensures Open(g, nodes, map x | x in nodes :: White, [], [])
  {
  }

  /** A white node becomes the last of the open calls. */
  lemma OpenEnters(g: Graph, nodes: set<string>, color: Colors, done: seq<string>, path: seq<string>, id: string)
    requires Open(g, nodes, color, done, path) && id in nodes && color[id] == White && (path != [] ==> id in g(path[|path| - 1]))
    ensures Open(g, nodes, color[id := Gray], done, path + [id])
    ensures Whites(color) == Whites(color[id := Gray]) + {id} && |Whites(color[id := Gray])| < |Whites(color)|
  {
    assert Whites(color) == Whites(color[id := Gray]) + {id};
  }

  /** A gray target closes a cycle through the open calls. */
  lemma Closes(g: Graph, nodes: set<string>, color: Colors, done: seq<string>, here: seq<string>, target: string)
    requires Open(g, nodes, color, done, here) && here != [] && target in nodes && color[target] == Gray && target in g(here[|here| - 1])
    ensures OnCycle(g, target)
  {
    hide Finished;
    var k :| 0 <= k < |here| && here[k] == target;
    PathReaches(g, here, k, |here| - 1);
    PlusBack(g, target, here[|here| - 1]);
  }

  lemma FinishedGrows(g: Graph, nodes: set<string>, done: seq<string>, id: string)
    requires Finished(g, nodes, done) && id !in done && forall t :: t in g(id) && t in nodes ==> t in done
    ensures Finished(g, nodes, done + [id])
  {
    var d := done + [id];
    forall i, t | 0 <= i < |d| && t in g(d[i]) && t in nodes ensures t in d[..i] {
      if i < |done| {
        assert d[..i] == done[..i];
      } else {
        assert d[..i] == done;
      }
    }
  }

  /** The last of the open calls is finished once its targets are. */
  lemma OpenLeaves(g: Graph, nodes: set<string>, color: Colors, done: seq<string>, path: seq<string>, id: string)
    requires Open(g, nodes, color, done, path + [id]) && forall t :: t in g(id) && t in nodes ==> t in done
    ensures id in nodes && Open(g, nodes, color[id := Black], done + [id], path) && Whites(color[id := Black]) == Whites(color)
  {
    assert (path + [id])[|path|] == id;
    assert color[id] == Gray;
    FinishedGrows(g, nodes, done, id);
    hide Finished;
    assert forall i :: 0 <= i < |path| ==> (path + [id])[i] == path[i];
    assert id !in path;
  }

  lemma OpenKnows(g: Graph, nodes: set<string>, color: Colors, done: seq<string>, path: seq<string>, id: string)
    requires Open(g, nodes, color, done, path) && id in nodes
    ensures color.Keys == nodes && (color[id] == Black <==> id in done) && (color[id] == Gray <==> id in path)
  {
  }

  ghost predicate Keeps(a: seq<string>, b: seq<string>) {
    forall x :: x in a ==> x in b
  }

  /** Those of the targets that are declared steps are finished. */
  ghost predicate Through(targets: seq<string>, nodes: set<string>, done: seq<string>) {
    forall t :: t in targets && t in nodes ==> t in done
  }

  lemma KeepsSelf(done: seq<string>, nodes: set<string>)
    ensures Keeps(done, done) && Through([], nodes, done)
  {
  }

  lemma KeepsOn(a: seq<string>, b: seq<string>, c: seq<string>, targets: seq<string>, nodes: set<string>)
    requires Keeps(a, b) && Keeps(b, c) && Through(targets, nodes, b)
    ensures Keeps(a, c) && Through(targets, nodes, c)
  {
  }

  lemma KeepsAppended(a: seq<string>, b: seq<string>, id: string)
    requires Keeps(a, b)
    ensures Keeps(a, b + [id])
  {
  }

  lemma ThroughOne(targets: seq<string>, t: string, nodes: set<string>)
    ensures forall done :: Through(targets, nodes, done) && (t in nodes ==> t in done) ==> Through(targets + [t], nodes, done)
  {
  }

  lemma ThroughAll(targets: seq<string>, nodes: set<string>, done: seq<string>)
    requires Through(targets, nodes, done)
    ensures forall t :: t in targets && t in nodes ==> t in done
  {
  }

  /** The state the closure `dfs` works on. */
  class Search {
    const g: Graph
    const nodes: set<string>
    var color: Colors
    var onCycle: seq<string>
    ghost var done: seq<string>

    ghost predicate Found()
      reads this
    {
      onCycle != [] && OnCycle(g, onCycle[0])
    }

    constructor (g: Graph, nodes: set<string>)
      ensures this.g == g && this.nodes == nodes && Open(g, nodes, color, done, []) && onCycle == [] && color.Keys == nodes
    {
      this.g := g;
      this.nodes := nodes;
      color := map x | x in nodes :: White;
      onCycle := [];
      done := [];
      new;
      OpenStarts(g, nodes);
    }

    /** `dfs`, called for a white node from the node at the end of `path`. */
    method Dfs(id: string, ghost path: seq<string>)
      requires id in nodes && color.Keys == nodes && color[id] == White
      requires Found() || (onCycle == [] && Open(g, nodes, color, done, path) && (path != [] ==> id in g(path[|path| - 1])))
      modifies this
      ensures Found() || (onCycle == [] && Open(g, nodes, color, done, path) && id in done && Keeps(old(done), done))
      ensures old(onCycle) != [] ==> Found()
      ensures Whites(color) <= old(Whites(color)) && color.Keys == nodes
      decreases |Whites(color)|
    {
      hide Open, Whites, OnCycle, Keeps, Through;
      if |onCycle| > 0 {
        return;
      }
      OpenEnters(g, nodes, color, done, path, id);
      KeepsSelf(done, nodes);
      color := color[id := Gray];
      ghost var here := path + [id];
      var targets := g(id);
      ghost var white := Whites(color);
      var i := 0;
      while i < |targets|
        invariant 0 <= i <= |targets|
        invariant color.Keys == nodes && Whites(color) <= white
        invariant Found() || (onCycle == [] && Open(g, nodes, color, done, here)
                              && Keeps(old(done), done) && Through(targets[..i], nodes, done))
      {
        var target := targets[i];
        if target in color && color[target] == Gray {
          if onCycle == [] {
            Closes(g, nodes, color, done, here, target);
          }
          onCycle := onCycle + [target];
          return;
        }
        if onCycle == [] && target in nodes {
          OpenKnows(g, nodes, color, done, here, target);
        }
        if onCycle == [] {
          ThroughOne(targets[..i], target, nodes);
        }
        if target in color && color[target] == White {
          SubsetSize(Whites(color), white);
          ghost var before := done;
          Dfs(target, here);
          if onCycle == [] {
            KeepsOn(old(done), before, done, targets[..i], nodes);
          }
        }
        assert targets[..i + 1] == targets[..i] + [target];
        i := i + 1;
      }
      assert targets[..i] == targets;
      if onCycle == [] {
        ThroughAll(g(id), nodes, done);
        OpenLeaves(g, nodes, color, done, path, id);
        KeepsAppended(old(done), done, id);
        done := done + [id];
      } else {
        BlackKeepsWhites(color, id);
      }
      color := color[id := Black];
    }
  }

  lemma BlackKeepsWhites(color: Colors, id: string)
    ensures Whites(color[id := Black]) <= Whites(color)
  {
  }

  /** From `a` to `b` and back over one edge. */
  lemma PlusBack(g: Graph, a: string, b: string)
    requires Reaches(g, a, b) && a in g(b)
    ensures OnCycle(g, a)
  {
    if a == b {
      ReachesEdge(g, a, a);
    } else {
      var n: nat :| Within(g, a, b, n);
      var c :| c in g(a) && Within(g, c, b, n - 1);
      ReachesEdge(g, b, a);
      ReachesTransitive(g, c, b, a);
    }
  }

  // ---- the check ----

  ghost predicate HasCycle(def: RawDefinition)
    requires AllTyped(def)
  {
    exists id :: OnCycle(StepGraph(def), id)
  }

  lemma UndeclaredLeadNowhere(def: RawDefinition)
    requires AllTyped(def)
    ensures forall y :: y !in StepIds(def) ==> StepGraph(def)(y) == []
  {
  }

  function StepIds(def: RawDefinition): set<string> {
    set s | s in def.steps :: s.id
  }

  lemma CyclesAreDeclared(def: RawDefinition, id: string)
    requires AllTyped(def) && OnCycle(StepGraph(def), id)
    ensures id in StepIds(def)
  {
    UndeclaredLeadNowhere(def);
  }

  /**
   GRAPH_CYCLE is reported exactly when the steps, their timers included, form a directed
   cycle; the step it names lies on one.
   */
  method CheckGraphCycle(def: RawDefinition) returns (node: Option<string>)
    requires AllTyped(def)
    ensures node.Some? <==> HasCycle(def)
    ensures node.Some? ==> node.value in StepIds(def) && OnCycle(StepGraph(def), node.value)
  {
    hide Open, OnCycle, StepGraph, AllTyped, Whites;
    var g, nodes := StepGraph(def), StepIds(def);
    var search := new Search(g, nodes);
    var i := 0;
    while i < |def.steps| && search.onCycle == []
      invariant 0 <= i <= |def.steps|
      invariant search.g == g && search.nodes == nodes && search.color.Keys == nodes
      invariant search.Found() || (search.onCycle == [] && Open(g, nodes, search.color, search.done, [])
                                   && forall k :: 0 <= k < i ==> def.steps[k].id in search.done)
    {
      assert def.steps[i] in def.steps;
      if search.onCycle == [] {
        OpenKnows(g, nodes, search.color, search.done, [], def.steps[i].id);
      }
      if search.color[def.steps[i].id] == White {
        search.Dfs(def.steps[i].id, []);
      }
      i := i + 1;
    }
    if search.onCycle != [] {
      node := Some(search.onCycle[0]);
      CyclesAreDeclared(def, node.value);
    } else {
      node := None;
      NoCycleLeft(def, search.color, search.done);
    }
  }

  /** When every step is finished there is no cycle. */
  lemma NoCycleLeft(def: RawDefinition, color: Colors, done: seq<string>)
    requires AllTyped(def) && Open(StepGraph(def), StepIds(def), color, done, [])
    requires forall k :: 0 <= k < |def.steps| ==> def.steps[k].id in done
    ensures !HasCycle(def)
  {
    hide OnCycle, StepGraph, AllTyped;
    UndeclaredLeadNowhere(def);
    forall id ensures !OnCycle(StepGraph(def), id) {
      if OnCycle(StepGraph(def), id) {
        CyclesAreDeclared(def, id);
        FinishedAcyclic(StepGraph(def), StepIds(def), done, id);
      }
    }
  }
}
