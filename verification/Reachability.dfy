/** Breadth-first reachability (reachableFrom and isAncestor). */
module Reachability {
  import opened Prelude
  import opened Graphs

  /** Everything the search has met is reachable, and only queued nodes may have unmet successors. */
  ghost predicate Frontier(arcs: set<Arc>, root: Id, seen: set<Id>, queue: seq<Id>) {
    && root in seen
    && (forall x :: x in seen ==> Reaches(arcs, root, x))
    && (forall x :: x in queue ==> x in seen)
    && (forall a :: a in arcs && a.from in seen && a.from !in queue ==> a.to in seen)
  }

  /** A set that contains the start and is closed under arcs contains every walk's end. */
  lemma {:induction false} ClosedHoldsWalks(arcs: set<Arc>, seen: set<Id>, w: seq<Id>)
    requires Walk(arcs, w) && w[0] in seen
    requires forall a :: a in arcs && a.from in seen ==> a.to in seen
    ensures Last(w) in seen
  {
    if |w| > 1 {
      var front := w[..|w| - 1];
      ClosedHoldsWalks(arcs, seen, front);
      assert Arc(Last(front), Last(w)) in arcs;
    }
  }

  method ReachableFrom(root: Id, outgoing: Adjacency, ghost edges: seq<Edge>) returns (seen: set<Id>)
    requires GroupedByFrom(outgoing, edges)
    ensures forall x :: x in seen <==> Reaches(Arcs(edges), root, x)
  {
    ghost var arcs := Arcs(edges);
    seen := {root};
    var queue := [root];
    assert WalkBetween(arcs, root, root, [root]);
    ghost var universe := {root} + set a | a in arcs :: a.to;
    while queue != []
      invariant Frontier(arcs, root, seen, queue) && seen <= universe
      decreases |universe| - |seen|, |queue|
    {
      var id := queue[0];
      assert id in queue;
      ghost var before := seen;
      queue, seen := Expand(id, queue[1..], seen, At(outgoing, id), edges, root, universe);
      SubsetSize(before, seen);
      SubsetSize(seen, universe);
    }
    forall x
      ensures x in seen <==> Reaches(arcs, root, x)
    {
      if Reaches(arcs, root, x) {
        var w :| WalkBetween(arcs, root, x, w);
        ClosedHoldsWalks(arcs, seen, w);
      }
    }
  }

  /** The inner loop: the successors of `id` that have not been met join the queue. */
  method Expand(id: Id, queue0: seq<Id>, seen0: set<Id>, outs: seq<Edge>,
                ghost edges: seq<Edge>, ghost root: Id, ghost universe: set<Id>)
    returns (queue: seq<Id>, seen: set<Id>)
    requires outs == Leaving(edges, id)
    requires Frontier(Arcs(edges), root, seen0, [id] + queue0)
    requires forall a :: a in Arcs(edges) ==> a.to in universe
    requires seen0 <= universe
    ensures Frontier(Arcs(edges), root, seen, queue)
    ensures seen0 <= seen <= universe
    ensures seen == seen0 ==> queue == queue0
  {
    ghost var arcs := Arcs(edges);
    queue, seen := queue0, seen0;
    for i := 0 to |outs|
      invariant Frontier(arcs, root, seen, [id] + queue)
      invariant seen0 <= seen <= universe
      invariant seen == seen0 ==> queue == queue0
      invariant forall j :: 0 <= j < i ==> outs[j].to in seen
    {
      var to := outs[i].to;
      assert Arc(id, to) in arcs by { assert outs[i] in outs; }
      if to !in seen {
        WalkExtends(arcs, root, id, to);
        seen := seen + {to};
        queue := queue + [to];
        assert ([id] + queue)[|queue|] == to;
      }
    }
    forall a | a in arcs && a.from in seen && a.from !in queue
      ensures a.to in seen
    {
      if a.from == id {
        var e :| e in edges && a == Arc(e.from, e.to);
        assert e in outs;
      }
    }
  }

  /** A proper ancestor: `to` lies ahead of `from`, and the two differ. */
  method IsAncestor(from: Id, to: Id, outgoing: Adjacency, ghost edges: seq<Edge>) returns (ancestor: bool)
    requires GroupedByFrom(outgoing, edges)
    ensures ancestor <==> from != to && Reaches(Arcs(edges), from, to)
  {
    if from == to { return false; }
    var seen := ReachableFrom(from, outgoing, edges);
    ancestor := to in seen;
  }
}
