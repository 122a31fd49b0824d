/** Cycle detection by repeatedly removing nodes of indegree zero (graphHasCycle). */
module Cycles {
  import opened Prelude
  import opened Graphs

  /** How many edges into `id` start outside `done`. */
  function Waiting(edges: seq<Edge>, id: Id, done: set<Id>): nat {
    if edges == [] then 0
    else
      var e := Last(edges);
      Waiting(edges[..|edges| - 1], id, done) + (if e.to == id && e.from !in done then 1 else 0)
  }

  /** How many of `edges` enter `id`. */
  function Arrivals(edges: seq<Edge>, id: Id): nat {
    if edges == [] then 0
    else Arrivals(edges[..|edges| - 1], id) + (if Last(edges).to == id then 1 else 0)
  }

  lemma {:induction false} NothingDone(edges: seq<Edge>, id: Id)
    ensures Waiting(edges, id, {}) == |Entering(edges, id)|
  {
    if edges != [] { NothingDone(edges[..|edges| - 1], id); }
  }

  /** Finishing `done'` takes its own edges off the count, however many run in parallel. */
  lemma {:induction false} OneMoreDone(edges: seq<Edge>, id: Id, done: set<Id>, next: Id)
    requires next !in done
    ensures Waiting(edges, id, done) == Waiting(edges, id, done + {next}) + Arrivals(Leaving(edges, next), id)
  {
    if edges != [] {
      var front, e := edges[..|edges| - 1], Last(edges);
      OneMoreDone(front, id, done, next);
      if e.from == next {
        assert Leaving(edges, next)[..|Leaving(edges, next)| - 1] == Leaving(front, next);
      }
    }
  }

  /** An edge that still holds `id` back. */
  ghost function Blocker(edges: seq<Edge>, id: Id, done: set<Id>): (e: Edge)
    requires Waiting(edges, id, done) > 0
    ensures e in edges && e.to == id && e.from !in done
  {
    if Last(edges).to == id && Last(edges).from !in done then Last(edges)
    else Blocker(edges[..|edges| - 1], id, done)
  }

  lemma {:induction false} NoneWaiting(edges: seq<Edge>, id: Id, done: set<Id>)
    requires Waiting(edges, id, done) == 0
    ensures forall e :: e in edges && e.to == id ==> e.from in done
  {
    if edges != [] { NoneWaiting(edges[..|edges| - 1], id, done); }
  }

  /** Every edge into a listed node comes from a node listed earlier. */
  ghost predicate Topological(edges: seq<Edge>, order: seq<Id>) {
    forall e, j :: e in edges && 0 <= j < |order| && order[j] == e.to ==> e.from in order[..j]
  }

  /** Along a walk that ends in a topological order, positions strictly increase. */
  lemma {:induction false} WalkClimbs(edges: seq<Edge>, order: seq<Id>, w: seq<Id>, j: nat) returns (i: nat)
    requires Topological(edges, order)
    requires Walk(Arcs(edges), w) && j < |order| && order[j] == Last(w)
    ensures i + |w| <= j + 1 && order[i] == w[0]
  {
    if |w| == 1 {
      i := j;
    } else {
      assert Arc(w[|w| - 2], w[|w| - 1]) in Arcs(edges);
      assert w[|w| - 2] in order[..j];
      var k :| 0 <= k < j && order[k] == w[|w| - 2];
      i := WalkClimbs(edges, order, w[..|w| - 1], k);
    }
  }

  lemma OrderedMeansAcyclic(edges: seq<Edge>, order: seq<Id>)
    requires Topological(edges, order) && Distinct(order)
    requires forall e :: e in edges ==> e.to in order
    ensures !Cyclic(Arcs(edges))
  {
    if w :| ClosedWalk(Arcs(edges), w) {
      assert Arc(w[|w| - 2], w[|w| - 1]) in Arcs(edges);
      var j :| 0 <= j < |order| && order[j] == Last(w);
      var i := WalkClimbs(edges, order, w, j);
    }
  }

  /** `pred` names, for each node of `rest`, a predecessor that also lies in `rest`. */
  ghost predicate Predecessors(arcs: set<Arc>, rest: set<Id>, pred: map<Id, Id>) {
    pred.Keys == rest && forall x {:trigger pred[x]} :: x in pred ==> pred[x] in rest && Arc(pred[x], x) in arcs
  }

  /** If every node of a finite set has a predecessor inside it, walking backwards must repeat. */
  lemma {:induction false} BackwardsForever(arcs: set<Arc>, rest: set<Id>, pred: map<Id, Id>, w: seq<Id>)
    requires Predecessors(arcs, rest, pred)
    requires Walk(arcs, w) && Distinct(w) && forall i :: 0 <= i < |w| ==> w[i] in rest
    ensures Cyclic(arcs)
    decreases |rest| - |w|
  {
    var p := pred[w[0]];
    var longer := [p] + w;
    assert Walk(arcs, longer);
    if j :| 0 <= j < |w| && w[j] == p {
      assert ClosedWalk(arcs, longer[..j + 2]);
    } else {
      DistinctFits(longer, rest);
      BackwardsForever(arcs, rest, pred, longer);
    }
  }

  /** Some node is never released: the nodes left over feed each other, so there is a cycle. */
  lemma LeftoverMeansCyclic(edges: seq<Edge>, rest: set<Id>, done: set<Id>)
    requires rest != {}
    requires forall e :: e in edges ==> e.from in rest || e.from in done
    requires forall id :: id in rest ==> Waiting(edges, id, done) > 0
    ensures Cyclic(Arcs(edges))
  {
    var pred := map x | x in rest :: Blocker(edges, x, done).from;
    forall x | x in pred
      ensures pred[x] in rest && Arc(pred[x], x) in Arcs(edges)
    {
      var e := Blocker(edges, x, done);
      assert Arc(e.from, e.to) in Arcs(edges);
    }
    var x :| x in rest;
    BackwardsForever(Arcs(edges), rest, pred, [x]);
  }

  /** `degree` holds, for every node, the edges still to be released. */
  ghost predicate Counted(edges: seq<Edge>, degree: map<Id, int>, done: set<Id>) {
    forall id :: id in degree ==> degree[id] == Waiting(edges, id, done)
  }

  /** The queue holds exactly the unfinished nodes that nothing holds back. */
  ghost predicate Queued(queue: seq<Id>, degree: map<Id, int>, done: set<Id>) {
    && Distinct(queue)
    && forall id :: id in queue <==> id in degree && degree[id] == 0 && id !in done
  }

  ghost predicate Finished(edges: seq<Edge>, order: seq<Id>, done: set<Id>) {
    && Distinct(order)
    && (forall id :: id in order <==> id in done)
    && |order| == |done|
    && Topological(edges, order)
  }

  ghost predicate Zeroed(degree: map<Id, int>, done: set<Id>) {
    forall id :: id in done ==> id in degree && degree[id] == 0
  }

  lemma FinishOne(edges: seq<Edge>, order: seq<Id>, done: set<Id>, id: Id)
    requires Finished(edges, order, done) && id !in done && Waiting(edges, id, done) == 0
    ensures Finished(edges, order + [id], done + {id})
  {
    NoneWaiting(edges, id, done);
    forall e, j | e in edges && 0 <= j < |order + [id]| && (order + [id])[j] == e.to
      ensures e.from in (order + [id])[..j]
    {
      if j == |order| {
        assert (order + [id])[..j] == order;
      } else {
        assert (order + [id])[..j] == order[..j];
      }
    }
  }

  /**
   * Kahn's algorithm. The node map is visited in no particular order, the queue is first in first
   * out, and parallel edges and self-loops each count towards the degree.
   */
  method GraphHasCycle<N>(nodes: map<Id, N>, outgoing: Adjacency, incoming: Adjacency, ghost edges: seq<Edge>)
    returns (cyclic: bool)
    requires GroupedByFrom(outgoing, edges) && GroupedByTo(incoming, edges)
    requires forall e :: e in edges ==> e.from in nodes && e.to in nodes
    ensures cyclic <==> Cyclic(Arcs(edges))
  {
    var degree, queue := InitialDegrees(nodes.Keys, incoming, edges);
    var seen := 0;
    ghost var order: seq<Id> := [];
    ghost var done: set<Id> := {};
    while queue != []
      invariant degree.Keys == nodes.Keys && done <= nodes.Keys && |done| == seen
      invariant Finished(edges, order, done)
      invariant Counted(edges, degree, done) && Queued(queue, degree, done) && Zeroed(degree, done)
      decreases |nodes.Keys| - |done|
    {
      var id := queue[0];
      assert id in queue;
      seen := seen + 1;
      FinishOne(edges, order, done, id);
      queue, degree := Release(degree, queue[1..], At(outgoing, id), edges, done, id);
      order, done := order + [id], done + {id};
      SubsetSize(done, nodes.Keys);
    }
    cyclic := seen != |nodes|;
    SubsetSize(done, nodes.Keys);
    if done == nodes.Keys {
      OrderedMeansAcyclic(edges, order);
    } else {
      LeftoverMeansCyclic(edges, nodes.Keys - done, done);
    }
  }

  /** The first loop: every node's indegree, and the queue of those with none. */
  method InitialDegrees(ids: set<Id>, incoming: Adjacency, ghost edges: seq<Edge>)
    returns (degree: map<Id, int>, queue: seq<Id>)
    requires GroupedByTo(incoming, edges)
    ensures degree.Keys == ids && Counted(edges, degree, {}) && Queued(queue, degree, {})
  {
    degree, queue := map[], [];
    var todo := ids;
    while todo != {}
      invariant todo <= ids && degree.Keys == ids - todo
      invariant Counted(edges, degree, {}) && Queued(queue, degree, {})
    {
      var id :| id in todo;
      NothingDone(edges, id);
      degree := degree[id := |At(incoming, id)|];
      if degree[id] == 0 { queue := queue + [id]; }
      todo := todo - {id};
    }
  }

  /** Part way through the inner loop: the first `i` edges have been taken off. */
  ghost predicate Owed(edges: seq<Edge>, degree: map<Id, int>, done: set<Id>, outs: seq<Edge>, i: nat)
    requires i <= |outs|
  {
    forall x :: x in degree ==>
                  degree[x] == Waiting(edges, x, done) + Arrivals(outs, x) - Arrivals(outs[..i], x)
  }

  lemma OweAll(edges: seq<Edge>, degree: map<Id, int>, before: set<Id>, id: Id)
    requires Counted(edges, degree, before) && id !in before
    ensures Owed(edges, degree, before + {id}, Leaving(edges, id), 0)
  {
    forall x | x in degree
      ensures degree[x] == Waiting(edges, x, before + {id}) + Arrivals(Leaving(edges, id), x)
    {
      OneMoreDone(edges, x, before, id);
    }
  }

  lemma OweLess(edges: seq<Edge>, degree: map<Id, int>, done: set<Id>, outs: seq<Edge>, i: nat)
    requires i < |outs| && outs[i].to in degree && Owed(edges, degree, done, outs, i)
    ensures degree[outs[i].to] > 0
    ensures Owed(edges, degree[outs[i].to := degree[outs[i].to] - 1], done, outs, i + 1)
  {
    assert outs[..i + 1][..i] == outs[..i];
    ArrivalsGrow(outs, i + 1, outs[i].to);
  }

  lemma DropOne(queue: seq<Id>, degree: map<Id, int>, done: set<Id>, to: Id)
    requires Queued(queue, degree, done) && Zeroed(degree, done)
    requires to in degree && degree[to] > 0
    ensures var dropped := degree[to := degree[to] - 1];
            Zeroed(dropped, done) && Queued(if dropped[to] == 0 then queue + [to] else queue, dropped, done)
  {
    var dropped := degree[to := degree[to] - 1];
    assert Queued(if dropped[to] == 0 then queue + [to] else queue, dropped, done);
  }

  /** The inner loop: one finished node gives up its outgoing edges. */
  method Release(degree0: map<Id, int>, queue0: seq<Id>, outs: seq<Edge>,
                 ghost edges: seq<Edge>, ghost before: set<Id>, ghost id: Id)
    returns (queue: seq<Id>, degree: map<Id, int>)
    requires outs == Leaving(edges, id) && id !in before
    requires forall e :: e in edges ==> e.to in degree0
    requires id in degree0 && degree0[id] == 0
    requires Counted(edges, degree0, before)
    requires Queued(queue0, degree0, before + {id}) && Zeroed(degree0, before)
    ensures degree.Keys == degree0.Keys
    ensures Counted(edges, degree, before + {id})
    ensures Queued(queue, degree, before + {id}) && Zeroed(degree, before + {id})
  {
    queue, degree := queue0, degree0;
    ghost var done := before + {id};
    OweAll(edges, degree, before, id);
    for i := 0 to |outs|
      invariant degree.Keys == degree0.Keys
      invariant Owed(edges, degree, done, outs, i)
      invariant Queued(queue, degree, done) && Zeroed(degree, done)
    {
      var to := outs[i].to;
      OweLess(edges, degree, done, outs, i);
      DropOne(queue, degree, done, to);
      degree := degree[to := degree[to] - 1];
      if degree[to] == 0 { queue := queue + [to]; }
    }
    assert outs[..|outs|] == outs;
    assert Counted(edges, degree, done);
  }

  lemma {:induction false} ArrivalsGrow(outs: seq<Edge>, i: nat, x: Id)
    requires i <= |outs|
    ensures Arrivals(outs[..i], x) <= Arrivals(outs, x)
    decreases |outs| - i
  {
    if i < |outs| {
      ArrivalsGrow(outs, i + 1, x);
      assert outs[..i + 1][..i] == outs[..i];
    } else {
      assert outs[..i] == outs;
    }
  }
}
