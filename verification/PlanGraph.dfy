/** Validation of the step graph of a plan (internal/plan/validate.go). */
module PlanGraph {
  import opened Ordering

  /** Step id to the ids it depends on; an id outside the map has no edges. */
  type Graph = map<string, seq<string>>

  function Deps(g: Graph, id: string): seq<string> {
    if id in g then g[id] else []
  }

  ghost predicate Walk(g: Graph, w: seq<string>) {
    forall i :: 0 < i < |w| ==> w[i] in Deps(g, w[i - 1])
  }

  ghost predicate ClosedWalk(g: Graph, w: seq<string>) {
    |w| >= 2 && w[0] == w[|w| - 1] && Walk(g, w)
  }

  ghost predicate Acyclic(g: Graph) {
    forall w :: !ClosedWalk(g, w)
  }

  /** Every listed id comes after all of its dependencies. */
  ghost predicate Topological(g: Graph, order: seq<string>) {
    forall i, d :: 0 <= i < |order| && d in Deps(g, order[i]) ==> d in order[..i]
  }

  // A topological order rules out closed walks: each edge moves to an earlier position.

  lemma {:induction false} WalkDescends(g: Graph, order: seq<string>, w: seq<string>, p: nat) returns (q: nat)
    requires Topological(g, order) && Walk(g, w) && |w| >= 1
    requires p < |order| && order[p] == w[0]
    ensures q <= p && order[q] == w[|w| - 1]
    ensures |w| >= 2 ==> q < p
    decreases |w|
  {
    if |w| == 1 {
      q := p;
    } else {
      assert w[1] in Deps(g, order[p]);
      assert w[1] in order[..p];
      var r :| 0 <= r < p && order[r] == w[1];
      assert Walk(g, w[1..]);
      q := WalkDescends(g, order, w[1..], r);
    }
  }

  lemma {:induction false} NoClosedWalkFrom(g: Graph, order: seq<string>, w: seq<string>, p: nat)
    requires Topological(g, order) && ClosedWalk(g, w)
    requires p < |order| && order[p] == w[0]
    ensures false
    decreases p
  {
    var q := WalkDescends(g, order, w, p);
    NoClosedWalkFrom(g, order, w, q);
  }

  lemma TopologicalIsAcyclic(g: Graph, order: seq<string>)
    requires Topological(g, order)
    requires forall id :: id in g ==> id in order
    ensures Acyclic(g)
  {
    forall w ensures !ClosedWalk(g, w) {
      if ClosedWalk(g, w) {
        assert w[1] in Deps(g, w[0]);
        var p :| 0 <= p < |order| && order[p] == w[0];
        NoClosedWalkFrom(g, order, w, p);
      }
    }
  }

  ghost function Universe(g: Graph): set<string> {
    g.Keys + (set k, d | k in g && d in g[k] :: d)
  }

  datatype Mark = Unseen | Visiting | Done

  /** The depth-first search behind findCycle: its states map and explicit stack. */
  class CycleFinder {
    const graph: Graph
    var states: map<string, Mark>
    var stack: seq<string>
    /** Nodes in the order they were finished. */
    ghost var finished: seq<string>

    constructor (graph: Graph)
      ensures this.graph == graph && Valid()
      ensures stack == [] && finished == [] && states == map[]
    {
      this.graph := graph;
      states := map[];
      stack := [];
      finished := [];
    }

    function StateOf(id: string): Mark reads this {
      if id in states then states[id] else Unseen
    }

    /** "Visiting" means on the stack, the stack is a walk, and finished nodes reach only finished nodes. */
    ghost predicate Valid() reads this {
      && (forall id :: StateOf(id) == Visiting <==> id in stack)
      && (forall id :: StateOf(id) == Done <==> id in finished)
      && (forall id :: id in states ==> states[id] != Unseen)
      && Walk(graph, stack)
      && Topological(graph, finished)
    }

    method Push(id: string)
      requires Valid() && StateOf(id) == Unseen
      requires stack != [] ==> id in Deps(graph, stack[|stack| - 1])
      modifies this
      ensures Valid() && finished == old(finished)
      ensures stack == old(stack) + [id] && states == old(states)[id := Visiting]
    {
      states := states[id := Visiting];
      stack := stack + [id];
      assert forall x :: x in stack <==> x in old(stack) || x == id;
    }

    method Pop(id: string)
      requires Valid() && stack != [] && stack[|stack| - 1] == id && id !in stack[..|stack| - 1]
      requires forall d :: d in Deps(graph, id) ==> d in finished
      modifies this
      ensures Valid() && finished == old(finished) + [id]
      ensures stack == old(stack)[..|old(stack)| - 1] && states == old(states)[id := Done]
    {
      stack := stack[..|stack| - 1];
      assert old(stack) == stack + [id];
      assert forall x :: x in old(stack) <==> x in stack || x == id;
      states := states[id := Done];
      finished := finished + [id];
      FinishLast(graph, old(finished), id);
    }

    /** The closed walk that ends with the stack and returns to next. */
    method ClosedBy(next: string) returns (cycle: seq<string>)
      requires Valid() && StateOf(next) == Visiting
      requires next in Deps(graph, stack[|stack| - 1])
      ensures ClosedWalk(graph, cycle)
    {
      var i := 0;
      while stack[i] != next
        invariant 0 <= i < |stack| && next in stack[i..]
        decreases |stack| - i
      {
        i := i + 1;
      }
      cycle := stack[i..] + [next];
      ClosingTheStack(graph, stack, i, next);
    }

    /** Visits id; a non-empty result is a closed walk, an empty one leaves id finished. */
    method Visit(id: string) returns (cycle: seq<string>)
      requires Valid() && StateOf(id) == Unseen
      requires id in Universe(graph)
      requires stack != [] ==> id in Deps(graph, stack[|stack| - 1])
      modifies this
      ensures cycle != [] ==> ClosedWalk(graph, cycle)
      ensures cycle == [] ==> Valid() && stack == old(stack) && StateOf(id) == Done
      ensures cycle == [] ==> old(states.Keys) <= states.Keys && old(finished) <= finished
      decreases Universe(graph) - states.Keys, 0
    {
      assert id !in stack;
      Push(id);
      cycle := VisitDependencies(id);
      if cycle == [] {
        Pop(id);
        assert stack == old(stack);
      }
    }

    /** The loop over the dependencies of the node on top of the stack. */
    method VisitDependencies(id: string) returns (cycle: seq<string>)
      requires Valid() && stack != [] && stack[|stack| - 1] == id
      modifies this
      ensures cycle != [] ==> ClosedWalk(graph, cycle)
      ensures cycle == [] ==> Valid() && stack == old(stack)
      ensures cycle == [] ==> old(states.Keys) <= states.Keys && old(finished) <= finished
      ensures cycle == [] ==> forall d :: d in Deps(graph, id) ==> d in finished
      decreases Universe(graph) - states.Keys, 1
    {
      var deps := Deps(graph, id);
      for k := 0 to |deps|
        invariant Valid() && stack == old(stack)
        invariant old(states.Keys) <= states.Keys && old(finished) <= finished
        invariant forall j :: 0 <= j < k ==> deps[j] in finished
      {
        var next := deps[k];
        if StateOf(next) == Visiting {
          cycle := ClosedBy(next);
          return;
        }
        if StateOf(next) == Unseen {
          DependenciesAreInUniverse(graph, id, next);
          cycle := Visit(next);
          if cycle != [] {
            return;
          }
        }
      }
      cycle := [];
    }
  }

  lemma DependenciesAreInUniverse(g: Graph, id: string, d: string)
    requires d in Deps(g, id)
    ensures d in Universe(g)
  {
    assert id in g && d in g[id];
  }

  lemma FinishLast(g: Graph, finished: seq<string>, id: string)
    requires Topological(g, finished)
    requires forall d :: d in Deps(g, id) ==> d in finished
    ensures Topological(g, finished + [id])
  {
    var now := finished + [id];
    forall i, d | 0 <= i < |now| && d in Deps(g, now[i]) ensures d in now[..i] {
      if i < |finished| {
        assert now[..i] == finished[..i];
      } else {
        assert now[..i] == finished;
      }
    }
  }

  lemma ClosingTheStack(g: Graph, stack: seq<string>, i: nat, next: string)
    requires i < |stack| && stack[i] == next && Walk(g, stack)
    requires next in Deps(g, stack[|stack| - 1])
    ensures ClosedWalk(g, stack[i..] + [next])
  {
    var w := stack[i..] + [next];
    forall j | 0 < j < |w| ensures w[j] in Deps(g, w[j - 1]) {
      if j < |w| - 1 { assert w[j] == stack[i + j] && w[j - 1] == stack[i + j - 1]; }
    }
  }

  /** Exact: a reported cycle is a closed walk along dependencies, and silence means there is none.
      The ghost result lists the nodes in an order that respects every dependency. */
  method FindCycle(steps: Graph) returns (cycle: seq<string>, ghost order: seq<string>)
    ensures cycle != [] ==> ClosedWalk(steps, cycle)
    ensures cycle == [] <==> Acyclic(steps)
    ensures cycle == [] ==> Topological(steps, order) && forall id :: id in steps ==> id in order
  {
    var finder := new CycleFinder(steps);
    var ids := KeysSorted(steps);
    for n := 0 to |ids|
      invariant finder.graph == steps && finder.Valid() && finder.stack == [] && fresh(finder)
      invariant forall j :: 0 <= j < n ==> ids[j] in finder.finished
    {
      if finder.StateOf(ids[n]) == Unseen {
        var found := finder.Visit(ids[n]);
        if found != [] {
          return found, [];
        }
      }
    }
    TopologicalIsAcyclic(steps, finder.finished);
    return [], finder.finished;
  }

  /** The map's keys in ascending order. */
  method KeysSorted(m: Graph) returns (ids: seq<string>)
    ensures forall id :: id in ids <==> id in m
    ensures SortedBy(StringLeq, ids)
  {
    var rest := m.Keys;
    var found: seq<string> := [];
    while rest != {}
      invariant rest <= m.Keys
      invariant forall id :: id in found <==> id in m && id !in rest
      decreases rest
    {
      var id :| id in rest;
      rest := rest - {id};
      found := found + [id];
    }
    ids := SortStrings(found);
    SortMembers(StringLeq, found);
    StringLeqIsTotalOrder();
    SortByIsSorted(StringLeq, found);
  }
}
