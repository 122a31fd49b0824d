/** The declarative meaning of a valid automation graph, and its agreement with Validate. */
module WellFormed {
  import opened Prelude
  import opened Graphs
  import opened Configs
  import opened Documents
  import opened Validation

  /** Every node is individually sound and no two share an id. */
  ghost predicate SoundNodes(g: Graph, refs: References, lib: Library) {
    && |g.nodes| <= MAX_NODES
    && (forall i :: 0 <= i < |g.nodes| ==>
          IdOk(g.nodes[i].id) && |g.nodes[i].name| <= 200 && SoundConfig(g.nodes[i], refs, lib))
    && (forall i, j :: 0 <= i < j < |g.nodes| ==> g.nodes[i].id != g.nodes[j].id)
  }

  /** Every edge is individually sound, joins two nodes of the graph, and no two share an id. */
  ghost predicate SoundEdges(g: Graph) {
    && (forall i :: 0 <= i < |g.edges| ==>
          IdOk(g.edges[i].id) && Known(g.nodes, g.edges[i].from) && Known(g.nodes, g.edges[i].to))
    && (forall i, j :: 0 <= i < j < |g.edges| ==> g.edges[i].id != g.edges[j].id)
  }

  /** A condition has one yes and one no edge; any other node has at most one edge, unlabelled. */
  predicate Shaped(node: Node, outs: seq<Edge>) {
    if node.kind == Condition then TwoBranches(outs)
    else |outs| <= 1 && forall e :: e in outs ==> e.branch.None?
  }

  /** Every engagement question is about a send_email node strictly upstream of the condition. */
  ghost predicate SoundReference(g: Graph, refs: References, lib: Library, i: int)
    requires 0 <= i < |g.nodes|
  {
    forall send :: AsksAbout(g.nodes[i], send) ==>
      && send != g.nodes[i].id
      && Reaches(Arcs(g.edges), send, g.nodes[i].id)
      && exists k :: 0 <= k < |g.nodes| && g.nodes[k].id == send && g.nodes[k].kind == SendEmail
  }

  ghost predicate IsWellFormed(g: Graph, refs: References, lib: Library) {
    && SoundNodes(g, refs, lib)
    && SoundEdges(g)
    && |Triggers(g.nodes)| == 1
    && Entering(g.edges, Triggers(g.nodes)[0]) == []
    && !Cyclic(Arcs(g.edges))
    && (forall i :: 0 <= i < |g.nodes| ==>
          && Shaped(g.nodes[i], Leaving(g.edges, g.nodes[i].id))
          && Reaches(Arcs(g.edges), Triggers(g.nodes)[0], g.nodes[i].id)
          && SoundReference(g, refs, lib, i))
  }

  lemma {:induction false} AllKept(edges: seq<Edge>, nodes: seq<Node>)
    requires forall i :: 0 <= i < |edges| ==> Known(nodes, edges[i].from) && Known(nodes, edges[i].to)
    ensures Kept(edges, nodes) == edges
  {
    if edges != [] {
      AllKept(edges[..|edges| - 1], nodes);
      assert edges[..|edges| - 1] + [Last(edges)] == edges;
    }
  }

  lemma UnknownAmong(nodes: seq<Node>, i: int)
    requires 0 <= i < |nodes|
    ensures Known(nodes[..i], nodes[i].id) <==> exists k :: 0 <= k < i && nodes[k].id == nodes[i].id
  {
    if k :| 0 <= k < i && nodes[k].id == nodes[i].id {
      KnownBefore(nodes, k, i);
    }
  }

  ghost predicate NoIssue(g: Graph, refs: References, lib: Library) {
    forall x :: !Flagged(g, refs, lib, x)
  }

  lemma UnflaggedNode(g: Graph, refs: References, lib: Library, i: int)
    requires NoIssue(g, refs, lib) && 0 <= i < |g.nodes|
    ensures IdOk(g.nodes[i].id) && |g.nodes[i].name| <= 200 && SoundConfig(g.nodes[i], refs, lib)
    ensures !Known(g.nodes[..i], g.nodes[i].id)
  {
    var n := g.nodes[i];
    assert forall x :: NodeFlag(g, refs, lib, i, x) ==> Flagged(g, refs, lib, x);
    assert !NodeFlag(g, refs, lib, i, NodeIssue(InvalidNodeId, n.id));
    assert !NodeFlag(g, refs, lib, i, NodeIssue(DuplicateNodeId, n.id));
    assert !NodeFlag(g, refs, lib, i, NodeIssue(InvalidNodeName, n.id));
    assert !NodeFlag(g, refs, lib, i, NodeIssue(UnknownNode, n.id));
    assert !NodeFlag(g, refs, lib, i, NodeIssue(BadConfig, n.id));
    assert !NodeFlag(g, refs, lib, i, NodeIssue(ListMissing, n.id));
    assert !NodeFlag(g, refs, lib, i, NodeIssue(TemplateMissing, n.id));
  }

  lemma UnflaggedNodes(g: Graph, refs: References, lib: Library)
    requires NoIssue(g, refs, lib)
    ensures SoundNodes(g, refs, lib)
  {
    assert !Flagged(g, refs, lib, GraphIssue(TooManyNodes));
    forall i | 0 <= i < |g.nodes|
      ensures IdOk(g.nodes[i].id) && |g.nodes[i].name| <= 200 && SoundConfig(g.nodes[i], refs, lib)
    {
      UnflaggedNode(g, refs, lib, i);
    }
    forall i, j | 0 <= i < j < |g.nodes|
      ensures g.nodes[i].id != g.nodes[j].id
    {
      UnflaggedNode(g, refs, lib, j);
      KnownBefore(g.nodes, i, j);
    }
  }

  lemma UnflaggedEdge(g: Graph, refs: References, lib: Library, i: int)
    requires NoIssue(g, refs, lib) && 0 <= i < |g.edges|
    ensures IdOk(g.edges[i].id) && Known(g.nodes, g.edges[i].from) && Known(g.nodes, g.edges[i].to)
    ensures !EdgeIdUsed(g.edges[..i], g.edges[i].id)
  {
    var e := g.edges[i];
    assert forall x :: EdgeFlag(g, i, x) ==> Flagged(g, refs, lib, x);
    assert !EdgeFlag(g, i, EdgeIssue(InvalidEdgeId, e.id));
    assert !EdgeFlag(g, i, EdgeIssue(DuplicateEdgeId, e.id));
    assert !EdgeFlag(g, i, EdgeIssue(EdgeUnknownNode, e.id));
  }

  lemma UnflaggedEdges(g: Graph, refs: References, lib: Library)
    requires NoIssue(g, refs, lib)
    ensures SoundEdges(g)
  {
    forall i | 0 <= i < |g.edges|
      ensures IdOk(g.edges[i].id) && Known(g.nodes, g.edges[i].from) && Known(g.nodes, g.edges[i].to)
    {
      UnflaggedEdge(g, refs, lib, i);
    }
    forall i, j | 0 <= i < j < |g.edges|
      ensures g.edges[i].id != g.edges[j].id
    {
      UnflaggedEdge(g, refs, lib, j);
      UsedBefore(g.edges, i, j);
    }
  }

  lemma UsedBefore(edges: seq<Edge>, i: nat, j: nat)
    requires i < j <= |edges|
    ensures EdgeIdUsed(edges[..j], edges[i].id)
  {
    assert edges[..j][i] == edges[i];
  }

  lemma UnflaggedShape(g: Graph, refs: References, lib: Library, i: int)
    requires NoIssue(g, refs, lib) && 0 <= i < |g.nodes|
    ensures Shaped(g.nodes[i], Leaving(Kept(g.edges, g.nodes), g.nodes[i].id))
  {
    var n, kept := g.nodes[i], Kept(g.edges, g.nodes);
    var outs := Leaving(kept, n.id);
    assert forall x :: ShapeFlagAt(g, kept, i, x) ==> Flagged(g, refs, lib, x);
    if n.kind == Condition {
      assert !Flagged(g, refs, lib, NodeIssue(ConditionBranches, n.id));
    } else {
      assert !Flagged(g, refs, lib, NodeIssue(InvalidOutDegree, n.id));
      forall e | e in outs
        ensures e.branch.None?
      {
        assert !Flagged(g, refs, lib, EdgeIssue(UnexpectedEdgeBranch, e.id));
      }
    }
  }

  lemma UnflaggedReference(g: Graph, refs: References, lib: Library, i: int)
    requires NoIssue(g, refs, lib) && 0 <= i < |g.nodes| && Kept(g.edges, g.nodes) == g.edges
    ensures SoundReference(g, refs, lib, i)
  {
    UnflaggedNode(g, refs, lib, i);
    assert !Flagged(g, refs, lib, NodeIssue(InvalidEngagementAncestor, g.nodes[i].id));
    forall send | AsksAbout(g.nodes[i], send)
      ensures GoodAncestor(g, send, g.nodes[i].id)
    {
      assert AsksAt(g, refs, lib, i, Reference(g.nodes[i].id, send));
    }
  }

  lemma UnflaggedWhole(g: Graph, refs: References, lib: Library)
    requires NoIssue(g, refs, lib) && Kept(g.edges, g.nodes) == g.edges
    ensures |Triggers(g.nodes)| == 1 && !Cyclic(Arcs(g.edges))
    ensures Entering(g.edges, Triggers(g.nodes)[0]) == []
    ensures forall i :: 0 <= i < |g.nodes| ==> Reaches(Arcs(g.edges), Triggers(g.nodes)[0], g.nodes[i].id)
  {
    assert forall x :: WholeFlag(g, refs, lib, x) ==> Flagged(g, refs, lib, x);
    assert !WholeFlag(g, refs, lib, GraphIssue(TriggerCount));
    assert !WholeFlag(g, refs, lib, GraphIssue(Cycle));
    var t := Triggers(g.nodes)[0];
    assert t in Triggers(g.nodes);
    assert !WholeFlag(g, refs, lib, NodeIssue(TriggerIndegree, t));
    forall i | 0 <= i < |g.nodes|
      ensures Reaches(Arcs(g.edges), t, g.nodes[i].id)
    {
      assert !WholeFlag(g, refs, lib, NodeIssue(UnreachableNode, g.nodes[i].id));
    }
  }

  lemma UnflaggedIsWellFormed(g: Graph, refs: References, lib: Library)
    requires NoIssue(g, refs, lib)
    ensures IsWellFormed(g, refs, lib)
  {
    UnflaggedNodes(g, refs, lib);
    UnflaggedEdges(g, refs, lib);
    AllKept(g.edges, g.nodes);
    UnflaggedWhole(g, refs, lib);
    forall i | 0 <= i < |g.nodes|
      ensures Shaped(g.nodes[i], Leaving(g.edges, g.nodes[i].id)) && SoundReference(g, refs, lib, i)
    {
      UnflaggedShape(g, refs, lib, i);
      UnflaggedReference(g, refs, lib, i);
    }
  }

  lemma ShapedIsUnflagged(node: Node, outs: seq<Edge>, x: Issue)
    requires Shaped(node, outs)
    ensures !ShapeFlag(node, outs, x)
  {
    if node.kind == Condition {
      assert forall e :: e in outs ==> e == outs[0] || e == outs[1];
    }
  }

  lemma ShapedNodeIsUnflagged(g: Graph, j: int, x: Issue)
    requires 0 <= j < |g.nodes| && Shaped(g.nodes[j], Leaving(g.edges, g.nodes[j].id))
    ensures !ShapeFlagAt(g, g.edges, j, x)
  {
    ShapedIsUnflagged(g.nodes[j], Leaving(g.edges, g.nodes[j].id), x);
  }

  lemma SoundNodeIsUnflagged(g: Graph, refs: References, lib: Library, j: int, x: Issue)
    requires SoundNodes(g, refs, lib) && 0 <= j < |g.nodes|
    ensures !NodeFlag(g, refs, lib, j, x)
  {
    UnknownAmong(g.nodes, j);
  }

  lemma SoundEdgeIsUnflagged(g: Graph, j: int, x: Issue)
    requires SoundEdges(g) && !Cyclic(Arcs(g.edges)) && 0 <= j < |g.edges|
    ensures !EdgeFlag(g, j, x)
  {
    var e := g.edges[j];
    assert !EdgeIdUsed(g.edges[..j], e.id);
    if e.from == e.to {
      assert Arc(e.from, e.to) in Arcs(g.edges);
      assert ClosedWalk(Arcs(g.edges), [e.from, e.to]);
    }
  }

  lemma WellFormedReference(g: Graph, refs: References, lib: Library, condition: Id)
    requires IsWellFormed(g, refs, lib) && Kept(g.edges, g.nodes) == g.edges
    ensures !Misreferred(g, refs, lib, condition)
  {
    forall i, send | 0 <= i < |g.nodes| && AsksAt(g, refs, lib, i, Reference(condition, send))
      ensures GoodAncestor(g, send, condition)
    {
      assert SoundReference(g, refs, lib, i);
      var k :| 0 <= k < |g.nodes| && g.nodes[k].id == send && g.nodes[k].kind == SendEmail;
      UnknownAmong(g.nodes, k);
      assert FirstWith(g.nodes, g.nodes[k]);
    }
  }

  lemma WellFormedIsUnflagged(g: Graph, refs: References, lib: Library, x: Issue)
    requires IsWellFormed(g, refs, lib)
    ensures !Flagged(g, refs, lib, x)
  {
    hide NodeFlag, EdgeFlag, ShapeFlagAt, ShapeFlag, WholeFlag, SoundConfig, SoundReference, Reaches, Cyclic;
    AllKept(g.edges, g.nodes);
    forall j | 0 <= j < |g.nodes|
      ensures !NodeFlag(g, refs, lib, j, x) && !ShapeFlagAt(g, g.edges, j, x)
    {
      SoundNodeIsUnflagged(g, refs, lib, j, x);
      ShapedNodeIsUnflagged(g, j, x);
    }
    forall j | 0 <= j < |g.edges|
      ensures !EdgeFlag(g, j, x)
    {
      SoundEdgeIsUnflagged(g, j, x);
    }
    WholeIsUnflagged(g, refs, lib, x);
  }

  lemma WholeIsUnflagged(g: Graph, refs: References, lib: Library, x: Issue)
    requires IsWellFormed(g, refs, lib) && Kept(g.edges, g.nodes) == g.edges
    ensures !WholeFlag(g, refs, lib, x)
  {
    if x.NodeIssue? {
      WellFormedReference(g, refs, lib, x.node);
      TriggerUnentered(g, x.node);
      if Known(g.nodes, x.node) { AllReachable(g, refs, lib, x.node); }
    }
  }

  lemma TriggerUnentered(g: Graph, id: Id)
    requires |Triggers(g.nodes)| == 1 && Entering(g.edges, Triggers(g.nodes)[0]) == []
             && Kept(g.edges, g.nodes) == g.edges
    ensures !EnteredTrigger(g, id)
  {
  }

  lemma AllReachable(g: Graph, refs: References, lib: Library, id: Id)
    requires IsWellFormed(g, refs, lib) && Known(g.nodes, id)
    ensures Reaches(Arcs(g.edges), Triggers(g.nodes)[0], id)
  {
    var i :| 0 <= i < |g.nodes| && g.nodes[i].id == id;
    assert SoundReference(g, refs, lib, i);
  }

  /** Validate reports nothing exactly for the well-formed graphs. */
  method ValidateInTenant(g: Graph, refs: References, lib: Library) returns (valid: bool, issues: seq<Issue>)
    ensures valid <==> IsWellFormed(g, refs, lib)
    ensures valid <==> issues == []
    ensures forall x :: x in issues <==> Flagged(g, refs, lib, x)
  {
    issues := Validate(g, refs, lib);
    valid := |issues| == 0;
    if valid {
      UnflaggedIsWellFormed(g, refs, lib);
    } else {
      assert issues[0] in issues;
      if IsWellFormed(g, refs, lib) { WellFormedIsUnflagged(g, refs, lib, issues[0]); }
    }
  }
}
