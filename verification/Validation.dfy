/** Graph validation: which issues Validate reports, and when it reports none. */
module Validation {
  import opened Prelude
  import opened Graphs
  import opened Configs
  import opened Documents
  import Cycles
  import Reachability

  const MAX_NODES: nat := 200

  datatype Code =
    | TooManyNodes | TriggerCount | Cycle
    | InvalidNodeId | DuplicateNodeId | InvalidNodeName
    | BadConfig | ListMissing | TemplateMissing | UnknownNode
    | ConditionBranches | InvalidOutDegree | TriggerIndegree | UnreachableNode | InvalidEngagementAncestor
    | InvalidEdgeId | DuplicateEdgeId | EdgeUnknownNode | SelfLoop
    | ConditionBranchRequired | InvalidEdgeBranch | UnexpectedEdgeBranch

  datatype Issue =
    | GraphIssue(code: Code)
    | NodeIssue(code: Code, node: Id)
    | EdgeIssue(code: Code, edge: Id)

  // ---- The parts of a graph that validation talks about ----

  predicate Known(nodes: seq<Node>, id: Id) { exists i :: 0 <= i < |nodes| && nodes[i].id == id }

  /** Of several nodes with the same id, the first one counts. */
  ghost predicate FirstWith(nodes: seq<Node>, node: Node) {
    exists i :: 0 <= i < |nodes| && nodes[i] == node && !Known(nodes[..i], node.id)
  }

  function Triggers(nodes: seq<Node>): (ids: seq<Id>) {
    if nodes == [] then []
    else
      var front := Triggers(nodes[..|nodes| - 1]);
      if Last(nodes).kind == Trigger then front + [Last(nodes).id] else front
  }

  /** The list holds the ids of trigger nodes and of nothing else. */
  lemma {:induction false} TriggerNode(nodes: seq<Node>, k: int) returns (i: int)
    requires 0 <= k < |Triggers(nodes)|
    ensures 0 <= i < |nodes| && nodes[i].id == Triggers(nodes)[k] && nodes[i].kind == Trigger
  {
    if k < |Triggers(nodes[..|nodes| - 1])| {
      i := TriggerNode(nodes[..|nodes| - 1], k);
    } else {
      i := |nodes| - 1;
    }
  }

  ghost function TriggerPlaces(nodes: seq<Node>): set<int> { set i | 0 <= i < |nodes| && nodes[i].kind == Trigger }

  /** And it has one entry for each of them. */
  lemma {:induction false} TriggersCount(nodes: seq<Node>)
    ensures |Triggers(nodes)| == |TriggerPlaces(nodes)|
  {
    if nodes != [] {
      var k := |nodes| - 1;
      TriggersCount(nodes[..k]);
      assert TriggerPlaces(nodes) == TriggerPlaces(nodes[..k]) + if nodes[k].kind == Trigger then {k} else {};
    }
  }

  /** The edges whose endpoints both exist; the others are reported and then ignored. */
  function Kept(edges: seq<Edge>, nodes: seq<Node>): (kept: seq<Edge>)
    ensures forall e :: e in kept <==> e in edges && Known(nodes, e.from) && Known(nodes, e.to)
  {
    if edges == [] then []
    else
      var front := Kept(edges[..|edges| - 1], nodes);
      var e := Last(edges);
      if Known(nodes, e.from) && Known(nodes, e.to) then front + [e] else front
  }

  function Count(outs: seq<Edge>, branch: Branch): nat {
    if outs == [] then 0
    else Count(outs[..|outs| - 1], branch) + (if Last(outs).branch == Some(branch) then 1 else 0)
  }

  /** One yes edge, one no edge and nothing else. */
  predicate TwoBranches(outs: seq<Edge>) {
    && |outs| == 2
    && ((outs[0].branch == Some(Yes) && outs[1].branch == Some(No))
        || (outs[0].branch == Some(No) && outs[1].branch == Some(Yes)))
  }

  lemma BranchCounts(outs: seq<Edge>)
    ensures TwoBranches(outs) <==> Count(outs, Yes) == 1 && Count(outs, No) == 1 && |outs| == 2
  {
    if |outs| == 2 {
      assert outs[..1][..0] == [];
      assert Last(outs[..1]) == outs[0];
      assert Count(outs[..1], Yes) == (if outs[0].branch == Some(Yes) then 1 else 0);
      assert Count(outs[..1], No) == (if outs[0].branch == Some(No) then 1 else 0);
    }
  }

  // ---- The issues ----

  function ConfigCode(check: Check): Option<Code> {
    match check
    case Fine => None
    case Refers(_) => None
    case InvalidConfig => Some(BadConfig)
    case ListNotFound => Some(ListMissing)
    case TemplateNotFound => Some(TemplateMissing)
    case UnknownNodeKind => Some(UnknownNode)
  }

  /** What a node's configuration is reported for. */
  ghost predicate ConfigFlag(n: Node, refs: References, lib: Library, code: Code) {
    || (code == UnknownNode && n.kind.UnknownKind?)
    || (code == BadConfig && !n.kind.UnknownKind? && !Sound(n, lib))
    || (code == ListMissing && Sound(n, lib) && Unlisted(n, refs))
    || (code == TemplateMissing && Sound(n, lib) && Untemplated(n, refs))
  }

  lemma ConfigCodeMeans(n: Node, refs: References, lib: Library, code: Code)
    ensures ConfigCode(CheckConfig(n, refs, lib)) == Some(code) <==> ConfigFlag(n, refs, lib, code)
  {
    hide CheckConfig, Sound, Unlisted, Untemplated, AsksAbout;
    CheckMeans(n, refs, lib);
    UnlistedIsNotUntemplated(n, refs);
  }

  lemma UnlistedIsNotUntemplated(n: Node, refs: References)
    ensures !(Unlisted(n, refs) && Untemplated(n, refs))
    ensures n.kind.UnknownKind? ==> forall lib :: !Sound(n, lib)
  {
  }

  /** What a node is reported for on its own account. */
  ghost predicate OwnFlag(n: Node, repeated: bool, refs: References, lib: Library, x: Issue) {
    && x.NodeIssue? && x.node == n.id
    && (|| (x.code == InvalidNodeId && !IdOk(n.id))
        || (x.code == DuplicateNodeId && repeated)
        || (x.code == InvalidNodeName && |n.name| > 200)
        || ConfigFlag(n, refs, lib, x.code))
  }

  ghost predicate NodeFlag(g: Graph, refs: References, lib: Library, j: int, x: Issue)
    requires 0 <= j < |g.nodes|
  {
    OwnFlag(g.nodes[j], Known(g.nodes[..j], g.nodes[j].id), refs, lib, x)
  }

  predicate EdgeIdUsed(edges: seq<Edge>, id: Id) { exists i :: 0 <= i < |edges| && edges[i].id == id }

  /** What an edge is reported for on its own account. */
  ghost predicate OwnEdgeFlag(e: Edge, repeated: bool, kept: bool, x: Issue) {
    && x.EdgeIssue? && x.edge == e.id
    && (|| (x.code == InvalidEdgeId && !IdOk(e.id))
        || (x.code == DuplicateEdgeId && repeated)
        || (x.code == EdgeUnknownNode && !kept)
        || (x.code == SelfLoop && kept && e.from == e.to))
  }

  ghost predicate EdgeFlag(g: Graph, j: int, x: Issue)
    requires 0 <= j < |g.edges|
  {
    var e := g.edges[j];
    OwnEdgeFlag(e, EdgeIdUsed(g.edges[..j], e.id), Known(g.nodes, e.from) && Known(g.nodes, e.to), x)
  }

  /** What a node is reported for because of the edges that leave it. */
  ghost predicate ShapeFlag(node: Node, outs: seq<Edge>, x: Issue) {
    if node.kind == Condition then
      || (x == NodeIssue(ConditionBranches, node.id) && !TwoBranches(outs))
      || (exists e :: e in outs && x == EdgeIssue(ConditionBranchRequired, e.id) && e.branch.None?)
      || (exists e :: e in outs && x == EdgeIssue(InvalidEdgeBranch, e.id)
                      && e.branch.Some? && e.branch.value != Yes && e.branch.value != No)
    else
      || (x == NodeIssue(InvalidOutDegree, node.id) && |outs| > 1)
      || (exists e :: e in outs && x == EdgeIssue(UnexpectedEdgeBranch, e.id) && e.branch.Some?)
  }

  /** The named node exists, sends mail and lies strictly before the condition. */
  ghost predicate GoodAncestor(g: Graph, send: Id, condition: Id) {
    && (exists n :: FirstWith(g.nodes, n) && n.id == send && n.kind == SendEmail)
    && send != condition
    && Reaches(Arcs(Kept(g.edges, g.nodes)), send, condition)
  }

  /** What the graph as a whole is reported for. */
  ghost predicate WholeFlag(g: Graph, refs: References, lib: Library, x: Issue) {
    match x
    case GraphIssue(code) =>
      || (code == TooManyNodes && |g.nodes| > MAX_NODES)
      || (code == TriggerCount && |Triggers(g.nodes)| != 1)
      || (code == Cycle && Cyclic(Arcs(Kept(g.edges, g.nodes))))
    case NodeIssue(code, node) =>
      || (code == TriggerIndegree && EnteredTrigger(g, node))
      || (code == UnreachableNode && CutOff(g, node))
      || (code == InvalidEngagementAncestor && Misreferred(g, refs, lib, node))
    case EdgeIssue(_, _) => false
  }

  ghost predicate EnteredTrigger(g: Graph, node: Id) {
    node in Triggers(g.nodes) && Entering(Kept(g.edges, g.nodes), node) != []
  }

  ghost predicate CutOff(g: Graph, node: Id) {
    && |Triggers(g.nodes)| == 1 && Known(g.nodes, node)
    && !Reaches(Arcs(Kept(g.edges, g.nodes)), Triggers(g.nodes)[0], node)
  }

  /** Some condition with this id asks about a node that is no send_email ancestor of it. */
  ghost predicate Misreferred(g: Graph, refs: References, lib: Library, condition: Id) {
    exists i, send ::
      && 0 <= i < |g.nodes| && AsksAt(g, refs, lib, i, Reference(condition, send))
      && !GoodAncestor(g, send, condition)
  }

  /** The issue is reported. */
  ghost predicate Flagged(g: Graph, refs: References, lib: Library, x: Issue) {
    || WholeFlag(g, refs, lib, x)
    || (exists j :: 0 <= j < |g.nodes| && NodeFlag(g, refs, lib, j, x))
    || (exists j :: 0 <= j < |g.edges| && EdgeFlag(g, j, x))
    || (exists j :: 0 <= j < |g.nodes| && ShapeFlagAt(g, Kept(g.edges, g.nodes), j, x))
  }

  ghost predicate ShapeFlagAt(g: Graph, kept: seq<Edge>, j: int, x: Issue)
    requires 0 <= j < |g.nodes|
  {
    ShapeFlag(g.nodes[j], Leaving(kept, g.nodes[j].id), x)
  }

  // ---- The algorithm ----

  datatype Reference = Reference(condition: Id, send: Id)

  ghost predicate FirstNodes(nodes: map<Id, Node>, prefix: seq<Node>) {
    && (forall id :: id in nodes <==> Known(prefix, id))
    && (forall id :: id in nodes ==> nodes[id].id == id && FirstWith(prefix, nodes[id]))
  }

  ghost predicate AsksAt(g: Graph, refs: References, lib: Library, j: int, r: Reference)
    requires 0 <= j < |g.nodes|
  {
    g.nodes[j].id == r.condition && SoundConfig(g.nodes[j], refs, lib) && AsksAbout(g.nodes[j], r.send)
  }

  /** A reference is collected exactly for a sound condition that asks about a mail. */
  lemma RefersMeans(node: Node, refs: References, lib: Library)
    ensures forall send :: CheckConfig(node, refs, lib) == Refers(send) <==>
                           SoundConfig(node, refs, lib) && AsksAbout(node, send)
  {
    hide CheckConfig, Sound, Unlisted, Untemplated, AsksAbout;
    CheckMeans(node, refs, lib);
    forall send | SoundConfig(node, refs, lib) && AsksAbout(node, send)
      ensures CheckConfig(node, refs, lib) == Refers(send)
    {
      OneVerdict(node, refs, lib, CheckConfig(node, refs, lib), Refers(send));
    }
  }

  /** The issues of one node, as the first loop finds them. */
  method CheckNode(node: Node, repeated: bool, refs: References, lib: Library) returns (found: seq<Issue>)
    ensures forall x :: x in found <==> OwnFlag(node, repeated, refs, lib, x)
  {
    found := [];
    if !IdOk(node.id) { found := found + [NodeIssue(InvalidNodeId, node.id)]; }
    if repeated { found := found + [NodeIssue(DuplicateNodeId, node.id)]; }
    if |node.name| > 200 { found := found + [NodeIssue(InvalidNodeName, node.id)]; }
    var code := ConfigCode(CheckConfig(node, refs, lib));
    forall c
      ensures code == Some(c) <==> ConfigFlag(node, refs, lib, c)
    {
      ConfigCodeMeans(node, refs, lib, c);
    }
    if code.Some? { found := found + [NodeIssue(code.value, node.id)]; }
  }

  ghost predicate IssuesUpTo(g: Graph, refs: References, lib: Library, i: nat, issues: seq<Issue>)
    requires i <= |g.nodes|
  {
    forall x :: x in issues <==> exists j :: 0 <= j < i && NodeFlag(g, refs, lib, j, x)
  }

  ghost predicate AskedUpTo(g: Graph, refs: References, lib: Library, i: nat, conditions: seq<Reference>)
    requires i <= |g.nodes|
  {
    forall r :: r in conditions <==> exists j :: 0 <= j < i && AsksAt(g, refs, lib, j, r)
  }

  lemma IssuesGrow(g: Graph, refs: References, lib: Library, i: nat, issues: seq<Issue>, found: seq<Issue>)
    requires i < |g.nodes| && IssuesUpTo(g, refs, lib, i, issues)
    requires forall x :: x in found <==> NodeFlag(g, refs, lib, i, x)
    ensures IssuesUpTo(g, refs, lib, i + 1, issues + found)
  {
  }

  lemma AskedGrow(g: Graph, refs: References, lib: Library, i: nat, conditions: seq<Reference>, asked: seq<Reference>)
    requires i < |g.nodes| && AskedUpTo(g, refs, lib, i, conditions)
    requires forall r :: r in asked <==> AsksAt(g, refs, lib, i, r)
    ensures AskedUpTo(g, refs, lib, i + 1, conditions + asked)
  {
  }

  /** The first loop, over the nodes. */
  method CheckNodes(g: Graph, refs: References, lib: Library)
    returns (issues: seq<Issue>, nodes: map<Id, Node>, triggers: seq<Id>, conditions: seq<Reference>)
    ensures forall x :: x in issues <==> exists j :: 0 <= j < |g.nodes| && NodeFlag(g, refs, lib, j, x)
    ensures FirstNodes(nodes, g.nodes)
    ensures triggers == Triggers(g.nodes)
    ensures forall r :: r in conditions <==> exists j :: 0 <= j < |g.nodes| && AsksAt(g, refs, lib, j, r)
  {
    issues, nodes, triggers, conditions := [], map[], [], [];
    for i := 0 to |g.nodes|
      invariant IssuesUpTo(g, refs, lib, i, issues) && AskedUpTo(g, refs, lib, i, conditions)
      invariant FirstNodes(nodes, g.nodes[..i])
      invariant triggers == Triggers(g.nodes[..i])
    {
      var node := g.nodes[i];
      assert g.nodes[..i + 1] == g.nodes[..i] + [node];
      var found := CheckNode(node, node.id in nodes, refs, lib);
      IssuesGrow(g, refs, lib, i, issues, found);
      issues := issues + found;
      FirstGrows(nodes, g.nodes[..i], node);
      if node.id !in nodes { nodes := nodes[node.id := node]; }
      if node.kind == Trigger { triggers := triggers + [node.id]; }
      var check := CheckConfig(node, refs, lib);
      var asked := if check.Refers? then [Reference(node.id, check.send)] else [];
      RefersMeans(node, refs, lib);
      AskedGrow(g, refs, lib, i, conditions, asked);
      conditions := conditions + asked;
    }
    assert g.nodes[..|g.nodes|] == g.nodes;
  }

  lemma FirstGrows(nodes: map<Id, Node>, prefix: seq<Node>, node: Node)
    requires FirstNodes(nodes, prefix)
    ensures FirstNodes(if node.id in nodes then nodes else nodes[node.id := node], prefix + [node])
  {
    var longer := prefix + [node];
    var grown := if node.id in nodes then nodes else nodes[node.id := node];
    forall id
      ensures Known(longer, id) <==> Known(prefix, id) || id == node.id
    {
      if Known(prefix, id) {
        var i :| 0 <= i < |prefix| && prefix[i].id == id;
        assert longer[i].id == id;
      }
      assert longer[|prefix|] == node;
    }
    forall id | id in grown
      ensures grown[id].id == id && FirstWith(longer, grown[id])
    {
      if id in nodes {
        var i :| 0 <= i < |prefix| && prefix[i] == nodes[id] && !Known(prefix[..i], id);
        assert longer[i] == nodes[id] && longer[..i] == prefix[..i];
      } else {
        assert longer[..|prefix|] == prefix && longer[|prefix|] == node;
      }
    }
  }

  /** The issues of one edge, as the second loop finds them. */
  method CheckEdge(e: Edge, repeated: bool, kept: bool) returns (found: seq<Issue>)
    ensures forall x :: x in found <==> OwnEdgeFlag(e, repeated, kept, x)
  {
    found := [];
    if !IdOk(e.id) { found := found + [EdgeIssue(InvalidEdgeId, e.id)]; }
    if repeated { found := found + [EdgeIssue(DuplicateEdgeId, e.id)]; }
    if !kept { return found + [EdgeIssue(EdgeUnknownNode, e.id)]; }
    if e.from == e.to { found := found + [EdgeIssue(SelfLoop, e.id)]; }
  }

  ghost predicate EdgeIssuesUpTo(g: Graph, i: nat, issues: seq<Issue>)
    requires i <= |g.edges|
  {
    forall x :: x in issues <==> exists j :: 0 <= j < i && EdgeFlag(g, j, x)
  }

  lemma EdgeIssuesGrow(g: Graph, i: nat, issues: seq<Issue>, found: seq<Issue>)
    requires i < |g.edges| && EdgeIssuesUpTo(g, i, issues)
    requires forall x :: x in found <==> EdgeFlag(g, i, x)
    ensures EdgeIssuesUpTo(g, i + 1, issues + found)
  {
  }

  ghost predicate Grouped(outgoing: Adjacency, incoming: Adjacency, edges: seq<Edge>, nodes: seq<Node>) {
    GroupedByFrom(outgoing, Kept(edges, nodes)) && GroupedByTo(incoming, Kept(edges, nodes))
  }

  /** The edge tables of the second loop: an edge between known nodes is added at both its ends. */
  method AddEdge(outgoing: Adjacency, incoming: Adjacency, e: Edge, keep: bool, ghost prefix: seq<Edge>,
                 ghost nodes: seq<Node>)
    returns (outs: Adjacency, ins: Adjacency)
    requires Grouped(outgoing, incoming, prefix, nodes)
    requires keep == (Known(nodes, e.from) && Known(nodes, e.to))
    ensures Grouped(outs, ins, prefix + [e], nodes)
  {
    outs, ins := outgoing, incoming;
    assert (prefix + [e])[..|prefix|] == prefix;
    if keep {
      GroupsGrow(outgoing, incoming, Kept(prefix, nodes), e);
      outs := outgoing[e.from := At(outgoing, e.from) + [e]];
      ins := incoming[e.to := At(incoming, e.to) + [e]];
    }
  }

  /** The second loop, over the edges. */
  method CheckEdges(g: Graph, nodes: map<Id, Node>)
    returns (issues: seq<Issue>, outgoing: Adjacency, incoming: Adjacency)
    requires forall id :: id in nodes <==> Known(g.nodes, id)
    ensures forall x :: x in issues <==> exists j :: 0 <= j < |g.edges| && EdgeFlag(g, j, x)
    ensures GroupedByFrom(outgoing, Kept(g.edges, g.nodes)) && GroupedByTo(incoming, Kept(g.edges, g.nodes))
  {
    issues, outgoing, incoming := [], map[], map[];
    var edgeIds: set<Id> := {};
    for i := 0 to |g.edges|
      invariant EdgeIssuesUpTo(g, i, issues)
      invariant forall id :: id in edgeIds <==> EdgeIdUsed(g.edges[..i], id)
      invariant Grouped(outgoing, incoming, g.edges[..i], g.nodes)
    {
      var e := g.edges[i];
      ghost var prefix := g.edges[..i];
      assert g.edges[..i + 1] == prefix + [e];
      var keep := e.from in nodes && e.to in nodes;
      var found := CheckEdge(e, e.id in edgeIds, keep);
      EdgeIssuesGrow(g, i, issues, found);
      issues := issues + found;
      UsedGrows(prefix, e);
      edgeIds := edgeIds + {e.id};
      outgoing, incoming := AddEdge(outgoing, incoming, e, keep, prefix, g.nodes);
    }
    assert g.edges[..|g.edges|] == g.edges;
  }

  lemma UsedGrows(prefix: seq<Edge>, e: Edge)
    ensures forall id :: EdgeIdUsed(prefix + [e], id) <==> EdgeIdUsed(prefix, id) || id == e.id
  {
    forall id
      ensures EdgeIdUsed(prefix + [e], id) <==> EdgeIdUsed(prefix, id) || id == e.id
    {
      if EdgeIdUsed(prefix, id) {
        var i :| 0 <= i < |prefix| && prefix[i].id == id;
        assert (prefix + [e])[i].id == id;
      }
      assert (prefix + [e])[|prefix|] == e;
    }
  }

  lemma GroupsGrow(outgoing: Adjacency, incoming: Adjacency, kept: seq<Edge>, e: Edge)
    requires GroupedByFrom(outgoing, kept) && GroupedByTo(incoming, kept)
    ensures GroupedByFrom(outgoing[e.from := At(outgoing, e.from) + [e]], kept + [e])
    ensures GroupedByTo(incoming[e.to := At(incoming, e.to) + [e]], kept + [e])
  {
    assert (kept + [e])[..|kept|] == kept;
    var outs, ins := outgoing[e.from := At(outgoing, e.from) + [e]], incoming[e.to := At(incoming, e.to) + [e]];
    forall id
      ensures At(outs, id) == Leaving(kept + [e], id) && At(ins, id) == Entering(kept + [e], id)
    {
      assert At(outgoing, id) == Leaving(kept, id) && At(incoming, id) == Entering(kept, id);
    }
  }

  /** The body of the third loop: the out-edges of one node. */
  method CheckShape(node: Node, outs: seq<Edge>) returns (issues: seq<Issue>)
    ensures forall x :: x in issues <==> ShapeFlag(node, outs, x)
  {
    issues := [];
    if node.kind == Condition {
      var yes, no := 0, 0;
      for i := 0 to |outs|
        invariant yes == Count(outs[..i], Yes) && no == Count(outs[..i], No)
        invariant forall x :: x in issues <==>
                    || (exists j :: 0 <= j < i && x == EdgeIssue(ConditionBranchRequired, outs[j].id)
                                    && outs[j].branch.None?)
                    || (exists j :: 0 <= j < i && x == EdgeIssue(InvalidEdgeBranch, outs[j].id)
                                    && outs[j].branch.Some? && outs[j].branch.value != Yes
                                    && outs[j].branch.value != No)
      {
        assert outs[..i + 1][..i] == outs[..i];
        var e := outs[i];
        if e.branch.None? {
          issues := issues + [EdgeIssue(ConditionBranchRequired, e.id)];
        } else if e.branch.value == Yes {
          yes := yes + 1;
        } else if e.branch.value == No {
          no := no + 1;
        } else {
          issues := issues + [EdgeIssue(InvalidEdgeBranch, e.id)];
        }
      }
      assert outs[..|outs|] == outs;
      BranchCounts(outs);
      if yes != 1 || no != 1 || |outs| != 2 {
        issues := issues + [NodeIssue(ConditionBranches, node.id)];
      }
    } else {
      if |outs| > 1 { issues := issues + [NodeIssue(InvalidOutDegree, node.id)]; }
      ghost var start := issues;
      for i := 0 to |outs|
        invariant forall x :: x in issues <==>
                    || x in start
                    || exists j ::
                         0 <= j < i && outs[j].branch.Some? && x == EdgeIssue(UnexpectedEdgeBranch, outs[j].id)
      {
        if outs[i].branch.Some? { issues := issues + [EdgeIssue(UnexpectedEdgeBranch, outs[i].id)]; }
      }
    }
  }

  /** The third loop, over the nodes again, now that the edges are grouped. */
  method CheckShapes(g: Graph, outgoing: Adjacency, ghost kept: seq<Edge>) returns (issues: seq<Issue>)
    requires GroupedByFrom(outgoing, kept)
    ensures forall x :: x in issues <==> exists j :: 0 <= j < |g.nodes| && ShapeFlagAt(g, kept, j, x)
  {
    issues := [];
    for i := 0 to |g.nodes|
      invariant forall x :: x in issues <==> exists j :: 0 <= j < i && ShapeFlagAt(g, kept, j, x)
    {
      var found := CheckShape(g.nodes[i], At(outgoing, g.nodes[i].id));
      assert forall x :: x in found <==> ShapeFlagAt(g, kept, i, x);
      issues := issues + found;
    }
  }

  /** The remaining loops: indegree of triggers, reachability and engagement references. */
  method CheckTriggers(triggers: seq<Id>, incoming: Adjacency, ghost kept: seq<Edge>) returns (issues: seq<Issue>)
    requires GroupedByTo(incoming, kept)
    ensures forall x :: x in issues <==>
              x.NodeIssue? && x.code == TriggerIndegree && x.node in triggers && Entering(kept, x.node) != []
  {
    issues := [];
    for i := 0 to |triggers|
      invariant forall x :: x in issues <==>
                  x.NodeIssue? && x.code == TriggerIndegree && x.node in triggers[..i] && Entering(kept, x.node) != []
    {
      assert triggers[..i + 1] == triggers[..i] + [triggers[i]];
      assert At(incoming, triggers[i]) == Entering(kept, triggers[i]);
      if |At(incoming, triggers[i])| != 0 { issues := issues + [NodeIssue(TriggerIndegree, triggers[i])]; }
    }
    assert triggers[..|triggers|] == triggers;
  }

  method CheckReachable(g: Graph, trigger: Id, outgoing: Adjacency, ghost kept: seq<Edge>) returns (issues: seq<Issue>)
    requires GroupedByFrom(outgoing, kept)
    ensures forall x :: x in issues <==>
              && x.NodeIssue? && x.code == UnreachableNode && Known(g.nodes, x.node)
              && !Reaches(Arcs(kept), trigger, x.node)
  {
    issues := [];
    var reachable := Reachability.ReachableFrom(trigger, outgoing, kept);
    for i := 0 to |g.nodes|
      invariant forall x :: x in issues <==>
                  x.NodeIssue? && x.code == UnreachableNode && Known(g.nodes[..i], x.node) && x.node !in reachable
    {
      assert g.nodes[..i + 1] == g.nodes[..i] + [g.nodes[i]];
      KnownGrows(g.nodes[..i], g.nodes[i]);
      if g.nodes[i].id !in reachable { issues := issues + [NodeIssue(UnreachableNode, g.nodes[i].id)]; }
    }
    assert g.nodes[..|g.nodes|] == g.nodes;
  }

  lemma KnownGrows(prefix: seq<Node>, node: Node)
    ensures forall id :: Known(prefix + [node], id) <==> Known(prefix, id) || id == node.id
  {
    forall id
      ensures Known(prefix + [node], id) <==> Known(prefix, id) || id == node.id
    {
      if Known(prefix, id) {
        var i :| 0 <= i < |prefix| && prefix[i].id == id;
        assert (prefix + [node])[i].id == id;
      }
      assert (prefix + [node])[|prefix|] == node;
    }
  }

  method CheckReferences(g: Graph, nodes: map<Id, Node>, conditions: seq<Reference>, outgoing: Adjacency)
    returns (issues: seq<Issue>)
    requires FirstNodes(nodes, g.nodes) && GroupedByFrom(outgoing, Kept(g.edges, g.nodes))
    ensures forall x :: x in issues <==>
              x.NodeIssue? && x.code == InvalidEngagementAncestor &&
              exists r :: r in conditions && r.condition == x.node && !GoodAncestor(g, r.send, r.condition)
  {
    issues := [];
    for i := 0 to |conditions|
      invariant forall x :: x in issues <==>
                  x.NodeIssue? && x.code == InvalidEngagementAncestor &&
                  exists r :: r in conditions[..i] && r.condition == x.node && !GoodAncestor(g, r.send, r.condition)
    {
      var r := conditions[i];
      assert conditions[..i + 1] == conditions[..i] + [r];
      var ancestor := Reachability.IsAncestor(r.send, r.condition, outgoing, Kept(g.edges, g.nodes));
      FirstIsUnique(g.nodes, nodes, r.send);
      if r.send !in nodes || nodes[r.send].kind != SendEmail || !ancestor {
        issues := issues + [NodeIssue(InvalidEngagementAncestor, r.condition)];
      }
    }
    assert conditions[..|conditions|] == conditions;
  }

  lemma FirstIsUnique(list: seq<Node>, nodes: map<Id, Node>, id: Id)
    requires FirstNodes(nodes, list)
    ensures forall n :: FirstWith(list, n) && n.id == id ==> id in nodes && nodes[id] == n
  {
    forall n | FirstWith(list, n) && n.id == id
      ensures id in nodes && nodes[id] == n
    {
      var i :| 0 <= i < |list| && list[i] == n && !Known(list[..i], id);
      assert Known(list, id);
      var j :| 0 <= j < |list| && list[j] == nodes[id] && !Known(list[..j], id);
      if i < j {
        KnownBefore(list, i, j);
      } else if j < i {
        KnownBefore(list, j, i);
      }
    }
  }

  lemma KnownBefore(list: seq<Node>, i: nat, j: nat)
    requires i < j <= |list|
    ensures Known(list[..j], list[i].id)
  {
    assert list[..j][i] == list[i];
  }

  /** Validate: the reported issues are exactly the flagged ones. */
  method Validate(g: Graph, refs: References, lib: Library) returns (issues: seq<Issue>)
    ensures forall x :: x in issues <==> Flagged(g, refs, lib, x)
  {
    hide NodeFlag, EdgeFlag, ShapeFlagAt, AsksAt, GoodAncestor, Reaches, Cyclic, Known, Arcs, Kept, Triggers;
    issues := [];
    if |g.nodes| > MAX_NODES { issues := issues + [GraphIssue(TooManyNodes)]; }
    var nodeIssues, nodes, triggers, conditions := CheckNodes(g, refs, lib);
    issues := issues + nodeIssues;
    if |triggers| != 1 { issues := issues + [GraphIssue(TriggerCount)]; }
    var edgeIssues, outgoing, incoming := CheckEdges(g, nodes);
    ghost var kept := Kept(g.edges, g.nodes);
    var shapeIssues := CheckShapes(g, outgoing, kept);
    var triggerIssues := CheckTriggers(triggers, incoming, kept);
    issues := issues + edgeIssues + shapeIssues + triggerIssues;
    var cyclic := Cycles.GraphHasCycle(nodes, outgoing, incoming, kept);
    if cyclic { issues := issues + [GraphIssue(Cycle)]; }
    if |triggers| == 1 {
      var unreachable := CheckReachable(g, triggers[0], outgoing, kept);
      issues := issues + unreachable;
    }
    var references := CheckReferences(g, nodes, conditions, outgoing);
    issues := issues + references;
    assert forall x :: x in references <==>
      x.NodeIssue? && x.code == InvalidEngagementAncestor && Misreferred(g, refs, lib, x.node);
  }
}
