/**
 * What the journal of one enrollment looks like on a well-formed graph: the completed nodes are a
 * simple path from the trigger, so nothing is sent, waited for or completed twice.
 */
module Trails {
  import opened Prelude
  import opened Graphs
  import opened Configs
  import opened Validation
  import opened WellFormed
  import opened Engine

  datatype Sort = Completions | Mailings | Parkings

  /** The node an effect is about, if it is of the given sort. */
  function Pick(sort: Sort, effect: Effect): Option<Id> {
    match effect
    case Recorded(node, outcome, _, _) =>
      if sort == (if outcome == Waiting then Parkings else Completions) then Some(node) else None
    case Mailed(node, _) => if sort == Mailings then Some(node) else None
    case Tagged(_, _, _) => None
    case Stumbled(_) => None
  }

  /** The nodes of all journal entries of one sort, in order. */
  function Nodes(sort: Sort, journal: seq<Entry>): (ids: seq<Id>) {
    if journal == [] then []
    else
      var front := Nodes(sort, journal[..|journal| - 1]);
      match Pick(sort, Last(journal).effect)
      case Some(id) => front + [id]
      case None => front
  }

  lemma NodesGrow(sort: Sort, journal: seq<Entry>, e: Entry)
    ensures Nodes(sort, journal + [e]) ==
            Nodes(sort, journal) + (match Pick(sort, e.effect) case Some(id) => [id] case None => [])
  {
    assert (journal + [e])[..|journal|] == journal;
  }

  ghost function TriggerOf(g: Graph): Id
    requires |Triggers(g.nodes)| == 1
  {
    Triggers(g.nodes)[0]
  }

  /** The trail so far, extended by the current node, is a walk that starts at the trigger. */
  ghost predicate OnPath(g: Graph, trail: seq<Id>)
    requires |Triggers(g.nodes)| == 1
  {
    trail == [] || (trail[0] == TriggerOf(g) && Walk(Arcs(g.edges), trail))
  }

  /** The completed nodes, and after them the current one, walk through the graph from the trigger. */
  ghost predicate GoodPath(g: Graph, row: Row)
    requires |Triggers(g.nodes)| == 1
  {
    var trail := Nodes(Completions, row.journal);
    && OnPath(g, trail)
    && (row.status == Active ==> row.current.Some? && OnPath(g, trail + [row.current.value]))
  }

  /** A step row is complete exactly for the trail; it waits exactly while its node is parked. */
  ghost predicate GoodSteps(row: Row) {
    var trail := Nodes(Completions, row.journal);
    && (forall id :: StepDone(row.steps, id) <==> id in trail)
    && (forall id :: StepWaiting(row.steps, id) <==> id in Nodes(Parkings, row.journal) && id !in trail)
    && (forall id :: StepWaiting(row.steps, id) && row.status == Active ==> row.current == Some(id))
    && (forall id :: id in row.steps ==> row.steps[id].completed || row.steps[id].outcome == Waiting)
    && Distinct(Nodes(Parkings, row.journal))
  }

  /** One delivery per node, and only for nodes that were completed. */
  ghost predicate GoodMails(row: Row) {
    && Distinct(Nodes(Mailings, row.journal))
    && (forall id :: id in row.mails <==> id in Nodes(Mailings, row.journal))
    && (forall id :: id in row.mails ==> id in Nodes(Completions, row.journal))
  }

  /** A step row knows of a delivery exactly if there is one. */
  ghost predicate Linked(row: Row) {
    forall id :: StepMailed(row.steps, id) <==> id in row.mails
  }

  /** The state every execution keeps, whatever is claimed, retried, crashed or interrupted. */
  ghost predicate Good(g: Graph, row: Row)
    requires |Triggers(g.nodes)| == 1
  {
    GoodPath(g, row) && GoodSteps(row) && GoodMails(row) && Linked(row)
  }

  /** A freshly enrolled subscriber stands at the trigger. */
  function Enrolled(trigger: Id, now: int): Row {
    Row(Active, Some(trigger), Some(now), 0, 0, map[], map[], [])
  }

  lemma EnrolledIsGood(g: Graph, now: int)
    requires |Triggers(g.nodes)| == 1
    ensures Good(g, Enrolled(TriggerOf(g), now))
  {
  }

  // ---- What the engine decides on a well-formed graph ----

  lemma {:induction false} NextIsEdge(outs: seq<Edge>, branch: Option<Branch>)
    ensures var next := NextNode(outs, branch);
            next.Some? ==> exists e :: e in outs && e.to == next.value
  {
    if outs != [] && !(outs[0].branch == branch || (branch.None? && outs[0].branch == Some(Empty))) {
      NextIsEdge(outs[1..], branch);
    } else if outs != [] {
      assert outs[0] in outs;
    }
  }

  /** What a decision at a node may amount to. */
  ghost predicate Sensible(edges: seq<Edge>, node: Node, waiting: bool, d: Decision) {
    d.Acting? ==>
      var rec := d.rec;
      && (rec.next.Some? ==> Arc(node.id, rec.next.value) in Arcs(edges) && rec.status == Active)
      && (rec.status == Active ==> rec.next.Some? || rec.outcome == Waiting)
      && (rec.outcome == Waiting ==>
            !waiting && rec.status == Active && rec.next.None? && rec.wake.Some? && d.act == NoAct)
      && (d.act.Mail? ==> node.kind == SendEmail && rec.outcome == Sent)
  }

  lemma NextIsArc(edges: seq<Edge>, id: Id, branch: Option<Branch>)
    ensures var next := NextNode(Leaving(edges, id), branch);
            next.Some? ==> Arc(id, next.value) in Arcs(edges)
  {
    var outs := Leaving(edges, id);
    NextIsEdge(outs, branch);
    if NextNode(outs, branch).Some? {
      var e :| e in outs && e.to == NextNode(outs, branch).value;
      assert Arc(e.from, e.to) in Arcs(edges);
    }
  }

  lemma DecidesSensibly(lib: Library, edges: seq<Edge>, node: Node, seen: map<Id, Step>, env: Env, now: int)
    ensures Sensible(edges, node, StepWaiting(seen, node.id),
                     Decide(lib, node, Leaving(edges, node.id), seen, env, now))
  {
    match node.kind
    case Condition =>
      NextIsArc(edges, node.id, Some(Yes));
      NextIsArc(edges, node.id, Some(No));
    case _ =>
      NextIsArc(edges, node.id, None);
  }

  // ---- Every write keeps the state good ----

  lemma {:induction false} Outside(g: Graph, row: Row)
    requires |Triggers(g.nodes)| == 1 && !Cyclic(Arcs(g.edges))
    requires Good(g, row) && row.status == Active
    ensures row.current.value !in Nodes(Completions, row.journal)
    ensures row.current.value !in row.mails && !StepDone(row.steps, row.current.value)
  {
    var trail := Nodes(Completions, row.journal);
    var w := trail + [row.current.value];
    AcyclicWalksAreSimple(Arcs(g.edges), w);
    assert w[|trail|] == row.current.value;
    forall i | 0 <= i < |trail|
      ensures trail[i] != row.current.value
    {
      assert w[i] == trail[i];
    }
  }

  /** A queued delivery or a changed tag leaves path and steps as they were. */
  lemma JournalKeeps(journal: seq<Entry>, e: Entry)
    requires !e.effect.Recorded?
    ensures Nodes(Completions, journal + [e]) == Nodes(Completions, journal)
    ensures Nodes(Parkings, journal + [e]) == Nodes(Parkings, journal)
    ensures !e.effect.Mailed? ==> Nodes(Mailings, journal + [e]) == Nodes(Mailings, journal)
    ensures e.effect.Mailed? ==> Nodes(Mailings, journal + [e]) == Nodes(Mailings, journal) + [e.effect.node]
  {
    NodesGrow(Completions, journal, e);
    NodesGrow(Parkings, journal, e);
    NodesGrow(Mailings, journal, e);
  }

  /** What acting at a node leaves behind before the step is recorded. */
  ghost predicate Carried(row: Row, node: Id, act: Act, r: Row) {
    && r == row.(mails := r.mails, journal := r.journal)
    && Nodes(Completions, r.journal) == Nodes(Completions, row.journal)
    && Nodes(Parkings, r.journal) == Nodes(Parkings, row.journal)
    && Distinct(Nodes(Mailings, r.journal))
    && (forall id :: id in r.mails <==> id in Nodes(Mailings, r.journal))
    && (forall id :: id in r.mails <==> id in row.mails || (id == node && act.Mail?))
  }

  lemma CarryKeeps(row: Row, claim: Claim, node: Id, act: Act, env: Env, now: int)
    requires GoodMails(row) && node !in row.mails
    ensures var carried := Carry(row, claim, node, act, env, now);
            carried.Some? ==> Carried(row, node, act, carried.value)
  {
    match act
    case NoAct =>
    case Mail(template) => JournalKeeps(row.journal, Entry(claim.gen, now, Mailed(node, template)));
    case Tag(add, tag) => JournalKeeps(row.journal, Entry(claim.gen, now, Tagged(node, add, tag)));
  }

  /** The step rows after a completion: the trail is longer by the current node, and nothing waits. */
  lemma CompletedSteps(row: Row, r: Row, id: Id, step: Step)
    requires GoodSteps(row) && row.status == Active && row.current == Some(id) && id !in Nodes(Completions, row.journal)
    requires step.completed && r.steps == row.steps[id := step]
    requires Nodes(Completions, r.journal) == Nodes(Completions, row.journal) + [id]
    requires Nodes(Parkings, r.journal) == Nodes(Parkings, row.journal)
    ensures GoodSteps(r) && forall k :: !StepWaiting(r.steps, k)
  {
    forall k
      ensures StepWaiting(r.steps, k) <==> k != id && StepWaiting(row.steps, k)
      ensures StepDone(r.steps, k) <==> k == id || StepDone(row.steps, k)
    {
    }
  }

  /** Recording a completion puts the current node at the end of the trail. */
  lemma CompletionKeeps(g: Graph, row: Row, gen: nat, node: Node, rec: Record, mailed: bool, open: bool, now: int)
    requires |Triggers(g.nodes)| == 1
    requires GoodPath(g, row) && GoodSteps(row) && Fence(row, gen, open)
    requires row.current == Some(node.id) && node.id !in Nodes(Completions, row.journal)
    requires rec.outcome != Waiting && (rec.status == Active <==> rec.next.Some?)
    requires rec.next.Some? ==> Arc(node.id, rec.next.value) in Arcs(g.edges)
    ensures var r := RecordStep(row, gen, node, rec, mailed, open, now).value;
            && GoodPath(g, r) && GoodSteps(r)
            && Nodes(Completions, r.journal) == Nodes(Completions, row.journal) + [node.id]
            && Nodes(Mailings, r.journal) == Nodes(Mailings, row.journal)
            && forall id :: !StepWaiting(r.steps, id)
  {
    var e := Entry(gen, now, Recorded(node.id, rec.outcome, rec.next, rec.wake));
    NodesGrow(Completions, row.journal, e);
    NodesGrow(Parkings, row.journal, e);
    NodesGrow(Mailings, row.journal, e);
    var r := RecordStep(row, gen, node, rec, mailed, open, now).value;
    CompletedSteps(row, r, node.id, r.steps[node.id]);
    var trail := Nodes(Completions, row.journal);
    if rec.next.Some? {
      assert OnPath(g, trail + [node.id] + [rec.next.value]);
    }
  }

  /** The step rows after a park: the current node waits, everything else is as it was. */
  lemma ParkedSteps(row: Row, r: Row, id: Id, step: Step)
    requires GoodSteps(row) && row.status == r.status == Active && row.current == r.current == Some(id)
    requires id !in Nodes(Completions, row.journal) && !StepWaiting(row.steps, id)
    requires step.outcome == Waiting && !step.completed && r.steps == row.steps[id := step]
    requires Nodes(Completions, r.journal) == Nodes(Completions, row.journal)
    requires Nodes(Parkings, r.journal) == Nodes(Parkings, row.journal) + [id]
    ensures GoodSteps(r)
  {
    forall k
      ensures StepWaiting(r.steps, k) <==> k == id || StepWaiting(row.steps, k)
      ensures StepDone(r.steps, k) <==> StepDone(row.steps, k)
    {
    }
  }

  /** Recording a park leaves the trail alone and marks the current node as waiting. */
  lemma ParkKeeps(g: Graph, row: Row, gen: nat, node: Node, rec: Record, open: bool, now: int)
    requires |Triggers(g.nodes)| == 1
    requires GoodPath(g, row) && GoodSteps(row) && Fence(row, gen, open)
    requires row.current == Some(node.id) && node.id !in Nodes(Completions, row.journal)
    requires rec.outcome == Waiting && rec.status == Active && rec.next.None? && !StepWaiting(row.steps, node.id)
    ensures var r := RecordStep(row, gen, node, rec, false, open, now).value;
            && GoodPath(g, r) && GoodSteps(r)
            && Nodes(Completions, r.journal) == Nodes(Completions, row.journal)
            && Nodes(Mailings, r.journal) == Nodes(Mailings, row.journal)
  {
    var e := Entry(gen, now, Recorded(node.id, rec.outcome, rec.next, rec.wake));
    NodesGrow(Completions, row.journal, e);
    NodesGrow(Parkings, row.journal, e);
    NodesGrow(Mailings, row.journal, e);
    var r := RecordStep(row, gen, node, rec, false, open, now).value;
    ParkedSteps(row, r, node.id, r.steps[node.id]);
  }

  lemma RecordLinks(row: Row, acted: Row, gen: nat, node: Node, rec: Record, mailed: bool, open: bool, now: int)
    requires Linked(row) && acted.steps == row.steps && Fence(acted, gen, open) && !StepDone(acted.steps, node.id)
    requires forall id :: id in acted.mails <==> id in row.mails || (id == node.id && mailed)
    ensures Linked(RecordStep(acted, gen, node, rec, mailed, open, now).value)
  {
    var r := RecordStep(acted, gen, node, rec, mailed, open, now).value;
    forall id
      ensures StepMailed(r.steps, id) <==> id in r.mails
    {
      assert StepMailed(row.steps, id) <==> id in row.mails;
    }
  }

  /** What a visit may leave behind. */
  ghost predicate KeptBy(g: Graph, row: Row, v: Visited)
    requires |Triggers(g.nodes)| == 1
  {
    match v
    case Continue(r, next) =>
      && Good(g, r) && r.gen == row.gen
      && r.status == Active && r.current == Some(next) && r.attempts == 0 && !StepWaiting(r.steps, next)
    case Stop(r, _) => Good(g, r) && r.gen == row.gen
    case Abort(_) => true
  }

  lemma FailureKeeps(g: Graph, row: Row, claim: Claim, at: Id, fault: Fault, maxAttempts: int, env: Env, now: int)
    requires |Triggers(g.nodes)| == 1 && Good(g, row) && row.status == Active
    ensures KeptBy(g, row, ReportFailure(row, claim, at, fault, maxAttempts, env, now))
  {
    JournalKeeps(row.journal, Entry(claim.gen, now, Stumbled(at)));
  }

  /** What acting leaves, Some(recorded) when the step could be recorded. */
  function Acted(row: Row, claim: Claim, node: Node, act: Act, rec: Record, env: Env, now: int): Option<Row> {
    match Carry(row, claim, node.id, act, env, now)
    case None => None
    case Some(acted) => RecordStep(acted, claim.gen, node, rec, act.Mail?, env.open, now)
  }

  /** Acting and recording, when both go through, keep the state good. */
  lemma ActedKeeps(g: Graph, row: Row, claim: Claim, node: Node, act: Act, rec: Record, env: Env, now: int)
    requires |Triggers(g.nodes)| == 1 && Good(g, row) && row.status == Active && row.current == Some(node.id)
    requires node.id !in Nodes(Completions, row.journal) && node.id !in row.mails && !StepDone(row.steps, node.id)
    requires Sensible(g.edges, node, StepWaiting(row.steps, node.id), Acting(act, rec))
    ensures var r := Acted(row, claim, node, act, rec, env, now);
            r.Some? ==>
              && Good(g, r.value) && r.value.gen == row.gen
              && (rec.outcome != Waiting ==> forall id :: !StepWaiting(r.value.steps, id))
  {
    CarryKeeps(row, claim, node.id, act, env, now);
    var carried := Carry(row, claim, node.id, act, env, now);
    if carried.Some? && Fence(carried.value, claim.gen, env.open) {
      var r := carried.value;
      assert GoodPath(g, r) && GoodSteps(r);
      RecordLinks(row, r, claim.gen, node, rec, act.Mail?, env.open, now);
      if rec.outcome == Waiting {
        ParkKeeps(g, r, claim.gen, node, rec, env.open, now);
      } else {
        CompletionKeeps(g, r, claim.gen, node, rec, act.Mail?, env.open, now);
      }
    }
  }

  lemma PerformKeeps(g: Graph, row: Row, claim: Claim, node: Node, d: Decision, maxAttempts: int, env: Env, now: int)
    requires |Triggers(g.nodes)| == 1 && !Cyclic(Arcs(g.edges))
    requires Good(g, row) && row.status == Active && row.current == Some(node.id)
    requires Sensible(g.edges, node, StepWaiting(row.steps, node.id), d)
    ensures KeptBy(g, row, Perform(row, claim, node, d, maxAttempts, env, now))
  {
    Outside(g, row);
    match d
    case Failing(fault) => FailureKeeps(g, row, claim, node.id, fault, maxAttempts, env, now);
    case Acting(act, rec) =>
      if act != NoAct && env.actFault.Some? {
        FailureKeeps(g, row, claim, node.id, env.actFault.value, maxAttempts, env, now);
      } else {
        ActedKeeps(g, row, claim, node, act, rec, env, now);
      }
  }

  /** One turn of the loop keeps the state good, and goes on only to the successor it recorded. */
  lemma VisitKeeps(g: Graph, refs: References, lib: Library, maxAttempts: int, row: Row, claim: Claim, env: Env,
                   now: int)
    requires IsWellFormed(g, refs, lib)
    requires Good(g, row) && row.status == Active
    ensures KeptBy(g, row, Visit(g, lib, maxAttempts, row, claim, row.current.value, row.steps, env, now))
  {
    match FindNode(g.nodes, row.current.value)
    case None => FailureKeeps(g, row, claim, row.current.value, InvalidReference, maxAttempts, env, now);
    case Some(node) =>
      DecidesSensibly(lib, g.edges, node, row.steps, env, now);
      PerformKeeps(g, row, claim, node, Decide(lib, node, Leaving(g.edges, node.id), row.steps, env, now),
                   maxAttempts, env, now);
  }

  // ---- The fence ----

  /** `longer` is `shorter` with entries of one claim appended. */
  ghost predicate ExtendedBy(gen: nat, shorter: seq<Entry>, longer: seq<Entry>) {
    shorter <= longer && forall i :: |shorter| <= i < |longer| ==> longer[i].gen == gen
  }

  /** A visit writes only while its claim is the current one, and stamps what it writes with that claim. */
  ghost predicate FencedBy(claim: Claim, row: Row, v: Visited) {
    v.Abort? || (row.status == Active && row.gen == claim.gen && ExtendedBy(claim.gen, row.journal, v.row.journal))
  }

  lemma PerformIsFenced(row: Row, claim: Claim, node: Node, d: Decision, maxAttempts: int, env: Env, now: int)
    ensures FencedBy(claim, row, Perform(row, claim, node, d, maxAttempts, env, now))
  {
  }

  lemma VisitIsFenced(g: Graph, lib: Library, maxAttempts: int, row: Row, claim: Claim, at: Id,
                      seen: map<Id, Step>, env: Env, now: int)
    ensures FencedBy(claim, row, Visit(g, lib, maxAttempts, row, claim, at, seen, env, now))
  {
    match FindNode(g.nodes, at)
    case None =>
    case Some(node) =>
      PerformIsFenced(row, claim, node, Decide(lib, node, Leaving(g.edges, node.id), seen, env, now), maxAttempts,
                      env, now);
  }

  // ---- Waiting long enough ----

  /** The instant a node was last parked until. */
  function Promised(journal: seq<Entry>, id: Id): Option<int> {
    if journal == [] then None
    else
      match Last(journal).effect
      case Recorded(node, outcome, _, wake) =>
        if node == id && outcome == Waiting then wake else Promised(journal[..|journal| - 1], id)
      case Mailed(_, _) => Promised(journal[..|journal| - 1], id)
      case Tagged(_, _, _) => Promised(journal[..|journal| - 1], id)
      case Stumbled(_) => Promised(journal[..|journal| - 1], id)
  }

  lemma PromisedGrows(journal: seq<Entry>, e: Entry, id: Id)
    ensures Promised(journal + [e], id) ==
            if e.effect.Recorded? && e.effect.node == id && e.effect.outcome == Waiting then e.effect.wake
            else Promised(journal, id)
  {
    assert (journal + [e])[..|journal|] == journal;
  }

  predicate NoSooner(promised: Option<int>, at: int) { promised.Some? ==> promised.value <= at }

  /** No node was completed before the instant it was parked until. */
  predicate OnTime(journal: seq<Entry>) {
    journal == [] ||
    var front, last := journal[..|journal| - 1], Last(journal);
    && OnTime(front)
    && (last.effect.Recorded? && last.effect.outcome != Waiting ==>
        NoSooner(Promised(front, last.effect.node), last.at))
  }

  lemma OnTimeGrows(journal: seq<Entry>, e: Entry)
    requires OnTime(journal)
    requires e.effect.Recorded? && e.effect.outcome != Waiting ==> NoSooner(Promised(journal, e.effect.node), e.at)
    ensures OnTime(journal + [e])
  {
    assert (journal + [e])[..|journal|] == journal;
  }

  /** A parked enrollment does not become due before the promised instant. */
  ghost predicate Timely(row: Row) {
    && OnTime(row.journal)
    && (row.status == Active && row.current.Some? && StepWaiting(row.steps, row.current.value) ==>
          row.wakeAt.Some? && NoSooner(Promised(row.journal, row.current.value), row.wakeAt.value))
  }

  lemma ReportIsTimely(row: Row, claim: Claim, at: Id, fault: Fault, maxAttempts: int, env: Env, now: int)
    requires Timely(row) && row.current.Some? && NoSooner(Promised(row.journal, row.current.value), now)
    ensures var v := ReportFailure(row, claim, at, fault, maxAttempts, env, now); v.Abort? || Timely(v.row)
  {
    OnTimeGrows(row.journal, Entry(claim.gen, now, Stumbled(at)));
    PromisedGrows(row.journal, Entry(claim.gen, now, Stumbled(at)), row.current.value);
  }

  lemma CarryIsTimely(row: Row, claim: Claim, node: Id, act: Act, env: Env, now: int)
    requires OnTime(row.journal)
    ensures var carried := Carry(row, claim, node, act, env, now);
            carried.Some? ==>
              && OnTime(carried.value.journal)
              && Promised(carried.value.journal, node) == Promised(row.journal, node)
  {
    match act
    case NoAct =>
    case Mail(template) =>
      PromisedGrows(row.journal, Entry(claim.gen, now, Mailed(node, template)), node);
      OnTimeGrows(row.journal, Entry(claim.gen, now, Mailed(node, template)));
    case Tag(add, tag) =>
      PromisedGrows(row.journal, Entry(claim.gen, now, Tagged(node, add, tag)), node);
      OnTimeGrows(row.journal, Entry(claim.gen, now, Tagged(node, add, tag)));
  }

  /** If the promised instant has passed, a step is recorded on time. */
  lemma RecordIsTimely(row: Row, gen: nat, node: Node, rec: Record, mailed: bool, open: bool, now: int)
    requires OnTime(row.journal) && row.current == Some(node.id) && NoSooner(Promised(row.journal, node.id), now)
    requires Fence(row, gen, open) && !StepDone(row.steps, node.id)
    requires rec.outcome == Waiting ==> rec.wake.Some? && rec.status == Active && rec.next.None?
    ensures var r := RecordStep(row, gen, node, rec, mailed, open, now).value;
            OnTime(r.journal) && (rec.outcome == Waiting ==> Timely(r))
  {
    var e := Entry(gen, now, Recorded(node.id, rec.outcome, rec.next, rec.wake));
    OnTimeGrows(row.journal, e);
    PromisedGrows(row.journal, e, node.id);
  }

  lemma ActedIsTimely(row: Row, claim: Claim, node: Node, act: Act, rec: Record, env: Env, now: int)
    requires Timely(row) && row.current == Some(node.id) && NoSooner(Promised(row.journal, node.id), now)
    requires !StepDone(row.steps, node.id)
    requires rec.outcome == Waiting ==> rec.wake.Some? && rec.status == Active && rec.next.None?
    ensures var r := Acted(row, claim, node, act, rec, env, now);
            r.Some? ==> OnTime(r.value.journal) && (rec.outcome == Waiting ==> Timely(r.value))
  {
    CarryIsTimely(row, claim, node.id, act, env, now);
    var carried := Carry(row, claim, node.id, act, env, now);
    if carried.Some? && Fence(carried.value, claim.gen, env.open) {
      RecordIsTimely(carried.value, claim.gen, node, rec, act.Mail?, env.open, now);
    }
  }

  lemma {:induction false} UnparkedIsUnpromised(journal: seq<Entry>, id: Id)
    requires id !in Nodes(Parkings, journal)
    ensures Promised(journal, id) == None
  {
    if journal != [] {
      UnparkedIsUnpromised(journal[..|journal| - 1], id);
    }
  }

  /** The clock a claim works with has passed the promised instant. */
  ghost predicate Due(row: Row, clock: int) {
    row.current.Some? && StepWaiting(row.steps, row.current.value) ==>
      NoSooner(Promised(row.journal, row.current.value), clock)
  }

  lemma DueIsNoSooner(g: Graph, row: Row, clock: int)
    requires |Triggers(g.nodes)| == 1 && !Cyclic(Arcs(g.edges))
    requires Good(g, row) && row.status == Active && Due(row, clock)
    ensures NoSooner(Promised(row.journal, row.current.value), clock)
  {
    var id := row.current.value;
    Outside(g, row);
    if !StepWaiting(row.steps, id) {
      UnparkedIsUnpromised(row.journal, id);
    }
  }

  lemma PerformIsTimely(row: Row, claim: Claim, node: Node, d: Decision, maxAttempts: int, env: Env, now: int)
    requires Timely(row) && row.current == Some(node.id) && NoSooner(Promised(row.journal, node.id), now)
    requires !StepDone(row.steps, node.id)
    requires d.Acting? && d.rec.outcome == Waiting ==> d.rec.wake.Some? && d.rec.status == Active && d.rec.next.None?
    requires d.Acting? && d.rec.status == Active ==> d.rec.next.Some? || d.rec.outcome == Waiting
    ensures var v := Perform(row, claim, node, d, maxAttempts, env, now);
            match v
            case Continue(r, _) => OnTime(r.journal)
            case Stop(r, _) => Timely(r)
            case Abort(_) => true
  {
    match d
    case Failing(fault) => ReportIsTimely(row, claim, node.id, fault, maxAttempts, env, now);
    case Acting(act, rec) =>
      if act != NoAct && env.actFault.Some? {
        ReportIsTimely(row, claim, node.id, env.actFault.value, maxAttempts, env, now);
      } else {
        ActedIsTimely(row, claim, node, act, rec, env, now);
      }
  }

  lemma VisitIsTimely(g: Graph, refs: References, lib: Library, maxAttempts: int, row: Row, claim: Claim, env: Env,
                      now: int)
    requires IsWellFormed(g, refs, lib)
    requires Good(g, row) && row.status == Active && Timely(row) && Due(row, now)
    ensures var v := Visit(g, lib, maxAttempts, row, claim, row.current.value, row.steps, env, now);
            v.Abort? || Timely(v.row)
  {
    VisitKeeps(g, refs, lib, maxAttempts, row, claim, env, now);
    DueIsNoSooner(g, row, now);
    Outside(g, row);
    match FindNode(g.nodes, row.current.value)
    case None => ReportIsTimely(row, claim, row.current.value, InvalidReference, maxAttempts, env, now);
    case Some(node) =>
      DecidesSensibly(lib, g.edges, node, row.steps, env, now);
      PerformIsTimely(row, claim, node, Decide(lib, node, Leaving(g.edges, node.id), row.steps, env, now),
                      maxAttempts, env, now);
  }
}
