/** Automation graphs and the walks through them (internal/automations/graph.go). */
module Graphs {
  import opened Prelude

  /** A node or edge identifier. */
  datatype Id = Id(text: string)

  /** An edge label; `Empty` is the empty text, which is not the same as no label. */
  datatype Branch = Yes | No | Empty | Odd(text: string)

  datatype Edge = Edge(id: Id, from: Id, to: Id, branch: Option<Branch>)

  /** Edges grouped by endpoint; an absent key reads as the empty list. */
  type Adjacency = map<Id, seq<Edge>>

  function At(adjacency: Adjacency, id: Id): (edges: seq<Edge>) {
    if id in adjacency then adjacency[id] else []
  }

  /** The edges that leave `id`, in order. */
  function Leaving(edges: seq<Edge>, id: Id): (r: seq<Edge>)
    ensures forall e :: e in r <==> e in edges && e.from == id
  {
    if edges == [] then []
    else
      var front := Leaving(edges[..|edges| - 1], id);
      if Last(edges).from == id then front + [Last(edges)] else front
  }

  /** The edges that enter `id`, in order. */
  function Entering(edges: seq<Edge>, id: Id): (r: seq<Edge>)
    ensures forall e :: e in r <==> e in edges && e.to == id
  {
    if edges == [] then []
    else
      var front := Entering(edges[..|edges| - 1], id);
      if Last(edges).to == id then front + [Last(edges)] else front
  }

  ghost predicate GroupedByFrom(outgoing: Adjacency, edges: seq<Edge>) {
    forall id :: At(outgoing, id) == Leaving(edges, id)
  }

  ghost predicate GroupedByTo(incoming: Adjacency, edges: seq<Edge>) {
    forall id :: At(incoming, id) == Entering(edges, id)
  }

  /** One step of the edge relation; parallel edges are the same arc. */
  datatype Arc = Arc(from: Id, to: Id)

  ghost function Arcs(edges: seq<Edge>): (arcs: set<Arc>) {
    set e | e in edges :: Arc(e.from, e.to)
  }

  /** A nonempty list of nodes in which each steps to the next along an arc. */
  ghost predicate Walk(arcs: set<Arc>, w: seq<Id>) {
    w != [] && forall i, j :: 0 <= i < |w| - 1 && j == i + 1 ==> Arc(w[i], w[j]) in arcs
  }

  ghost predicate WalkBetween(arcs: set<Arc>, from: Id, to: Id, w: seq<Id>) {
    Walk(arcs, w) && w[0] == from && Last(w) == to
  }

  /** `to` can be reached from `from`, possibly in no steps at all. */
  ghost predicate Reaches(arcs: set<Arc>, from: Id, to: Id) {
    exists w :: WalkBetween(arcs, from, to, w)
  }

  /** A walk of at least one arc that ends where it started. */
  ghost predicate ClosedWalk(arcs: set<Arc>, w: seq<Id>) {
    Walk(arcs, w) && |w| >= 2 && w[0] == Last(w)
  }

  ghost predicate Cyclic(arcs: set<Arc>) {
    exists w :: ClosedWalk(arcs, w)
  }

  lemma WalkExtends(arcs: set<Arc>, from: Id, mid: Id, to: Id)
    requires Reaches(arcs, from, mid) && Arc(mid, to) in arcs
    ensures Reaches(arcs, from, to)
  {
    var w :| WalkBetween(arcs, from, mid, w);
    assert WalkBetween(arcs, from, to, w + [to]);
  }

  /** Through an acyclic graph every walk is a simple path. */
  lemma AcyclicWalksAreSimple(arcs: set<Arc>, w: seq<Id>)
    requires !Cyclic(arcs) && Walk(arcs, w)
    ensures Distinct(w)
  {
    forall i, j | 0 <= i < j < |w|
      ensures w[i] != w[j]
    {
      if w[i] == w[j] {
        assert ClosedWalk(arcs, w[i..j + 1]);
      }
    }
  }
}
