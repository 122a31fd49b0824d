/**
 * The engine as it runs: a store whose row it updates in place, the loop of Engine.Advance over the
 * node and edge tables, and the transaction the stepper wraps around each claimed enrollment.
 */
module Stepper {
  import opened Prelude
  import opened Graphs
  import opened Configs
  import opened Engine
  import opened Enrollments
  import opened Progress

  /** How a turn of the loop ended; the row it leaves is in the store. */
  datatype Ending = Going(next: Id) | Stopped(failed: bool) | RolledBack(lost: bool)

  ghost predicate Agrees(ending: Ending, row: Row, v: Visited) {
    match v
    case Continue(r, next) => ending == Going(next) && row == r
    case Stop(r, failed) => ending == Stopped(failed) && row == r
    case Abort(lost) => ending == RolledBack(lost)
  }

  /** The enrollment as one transaction sees it. */
  class Store {
    var row: Row

    constructor (initial: Row)
      ensures row == initial
    {
      row := initial;
    }

    /**
     * automation_claim_due for this enrollment: it must be active and due. `free` says that no lease
     * runs and that automation, version, subscriber, list and tenant allow a claim.
     */
    method ClaimDue(free: bool, now: int) returns (claim: Option<Claim>)
      modifies this
      ensures claim.Some? <==> free && DueAt(old(row), now)
      ensures row == if claim.Some? then old(row).(gen := old(row).gen + 1) else old(row)
      ensures claim.Some? ==> claim.value == Claimed(row)
    {
      if !free || row.status != Active || row.wakeAt.None? || row.wakeAt.value > now { return None; }
      row := row.(gen := row.gen + 1);
      return Some(Claim(row.gen, row.attempts));
    }

    method Record(gen: nat, node: Node, rec: Record, mailed: bool, open: bool, now: int) returns (changed: bool)
      modifies this
      ensures var r := RecordStep(old(row), gen, node, rec, mailed, open, now);
              changed == r.Some? && row == if changed then r.value else old(row)
    {
      if !Fence(row, gen, open) { return false; }
      if StepDone(row.steps, node.id) { return true; }
      var attempt, hadMail := row.attempts + 1, false;
      if node.id in row.steps {
        if row.steps[node.id].attempt > attempt { attempt := row.steps[node.id].attempt; }
        hadMail := row.steps[node.id].mailed;
      }
      var step := Step(node.kind, rec.outcome, attempt, rec.outcome != Waiting, mailed || hadMail);
      row := row.(steps := row.steps[node.id := step],
                  journal := row.journal + [Entry(gen, now, Recorded(node.id, rec.outcome, rec.next, rec.wake))],
                  status := rec.status, attempts := 0);
      if rec.status != Active {
        row := row.(current := None, wakeAt := None);
      } else {
        if rec.next.Some? { row := row.(current := rec.next); }
        row := row.(wakeAt := if rec.wake.Some? then rec.wake else Some(now));
      }
      return true;
    }

    method Fail(gen: nat, node: Id, terminal: bool, retryAt: int, writable: bool, now: int) returns (changed: bool)
      modifies this
      ensures var r := FailStep(old(row), gen, node, terminal, retryAt, writable, now);
              changed == r.Some? && row == if changed then r.value else old(row)
    {
      changed := row.status == Active && row.gen == gen && writable;
      if changed {
        row := row.(attempts := row.attempts + 1, journal := row.journal + [Entry(gen, now, Stumbled(node))]);
        if terminal {
          row := row.(status := Errored, wakeAt := None);
        } else {
          row := row.(wakeAt := Some(if retryAt > now then retryAt else now));
        }
      }
    }

    method Enqueue(gen: nat, node: Id, template: string, open: bool, snapshotted: bool, now: int) returns (queued: bool)
      modifies this
      ensures var r := EnqueueMail(old(row), gen, node, template, open, snapshotted, now);
              queued == r.Some? && row == if queued then r.value else old(row)
    {
      if !Fence(row, gen, open) || !snapshotted { return false; }
      if node in row.mails { return row.mails[node] == gen; }
      row := row.(mails := row.mails[node := gen], journal := row.journal + [Entry(gen, now, Mailed(node, template))]);
      return true;
    }

    method SetTag(gen: nat, node: Id, add: bool, tag: string, open: bool, now: int) returns (changed: bool)
      modifies this
      ensures var r := ChangeTag(old(row), gen, node, add, tag, open, now);
              changed == r.Some? && row == if changed then r.value else old(row)
    {
      changed := Fence(row, gen, open);
      if changed {
        row := row.(journal := row.journal + [Entry(gen, now, Tagged(node, add, tag))]);
      }
    }
  }

  method Fail(store: Store, claim: Claim, at: Id, fault: Fault, maxAttempts: int, env: Env, now: int)
    returns (ending: Ending)
    modifies store
    ensures Agrees(ending, store.row, ReportFailure(old(store.row), claim, at, fault, maxAttempts, env, now))
  {
    if env.databaseDown { return RolledBack(false); }
    var terminal := fault == InvalidReference || claim.attempts + 1 >= AttemptCap(maxAttempts);
    var changed := store.Fail(claim.gen, at, terminal, now + RetryDelay(claim.attempts), env.writable, now);
    return if changed then Stopped(true) else RolledBack(true);
  }

  /** Send or tag, then record; a lost fence rolls the transaction back. */
  method Act(store: Store, claim: Claim, node: Node, act: Act, rec: Record, maxAttempts: int, env: Env, now: int)
    returns (ending: Ending)
    modifies store
    ensures Agrees(ending, store.row, Perform(old(store.row), claim, node, Acting(act, rec), maxAttempts, env, now))
  {
    if act != NoAct && env.actFault.Some? {
      ending := Fail(store, claim, node.id, env.actFault.value, maxAttempts, env, now);
      return;
    }
    var carried := true;
    match act {
      case NoAct =>
      case Mail(template) =>
        carried := store.Enqueue(claim.gen, node.id, template, env.open, env.snapshotted, now);
      case Tag(add, tag) =>
        carried := store.SetTag(claim.gen, node.id, add, tag, env.open, now);
    }
    if !carried { return RolledBack(true); }
    if env.databaseDown { return RolledBack(false); }
    var changed := store.Record(claim.gen, node, rec, act.Mail?, env.open, now);
    if !changed { return RolledBack(true); }
    if rec.status != Active || rec.outcome == Waiting || rec.next.None? { return Stopped(false); }
    return Going(rec.next.value);
  }

  /** The node and edge tables Advance builds: the last node with an id, the edges by where they start. */
  ghost predicate Tables(nodes: map<Id, Node>, edges: Adjacency, g: Graph) {
    && (forall id :: FindNode(g.nodes, id) == if id in nodes then Some(nodes[id]) else None)
    && GroupedByFrom(edges, g.edges)
  }

  method BuildNodes(list: seq<Node>) returns (nodes: map<Id, Node>)
    ensures forall id :: FindNode(list, id) == if id in nodes then Some(nodes[id]) else None
  {
    nodes := map[];
    for i := 0 to |list|
      invariant forall id :: FindNode(list[..i], id) == if id in nodes then Some(nodes[id]) else None
    {
      assert list[..i + 1][..i] == list[..i];
      nodes := nodes[list[i].id := list[i]];
    }
    assert list[..|list|] == list;
  }

  method BuildEdges(list: seq<Edge>) returns (edges: Adjacency)
    ensures GroupedByFrom(edges, list)
  {
    edges := map[];
    for i := 0 to |list|
      invariant GroupedByFrom(edges, list[..i])
    {
      assert list[..i + 1][..i] == list[..i];
      ghost var before := edges;
      edges := edges[list[i].from := At(edges, list[i].from) + [list[i]]];
      forall id
        ensures At(edges, id) == Leaving(list[..i + 1], id)
      {
        assert At(before, id) == Leaving(list[..i], id);
      }
    }
    assert list[..|list|] == list;
  }

  /** One turn of the loop. */
  method Turn(s: Setup, nodes: map<Id, Node>, edges: Adjacency, store: Store, claim: Claim, at: Id, env: Env, now: int)
    returns (ending: Ending)
    requires Tables(nodes, edges, s.g)
    modifies store
    ensures Agrees(ending, store.row,
                   Visit(s.g, s.lib, s.maxAttempts, old(store.row), claim, at, old(store.row.steps), env, now))
  {
    assert FindNode(s.g.nodes, at) == if at in nodes then Some(nodes[at]) else None;
    if at !in nodes {
      ending := Fail(store, claim, at, InvalidReference, s.maxAttempts, env, now);
      return;
    }
    var node := nodes[at];
    var outs := At(edges, node.id);
    assert outs == Leaving(s.g.edges, node.id);
    match Decide(s.lib, node, outs, store.row.steps, env, now) {
      case Failing(fault) =>
        ending := Fail(store, claim, node.id, fault, s.maxAttempts, env, now);
      case Acting(act, rec) =>
        ending := Act(store, claim, node, act, rec, s.maxAttempts, env, now);
    }
  }

  method TurnUnder(s: Setup, sky: Sky, nodes: map<Id, Node>, edges: Adjacency, store: Store, claim: Claim, at: Id,
                   now: int)
    returns (ending: Ending)
    requires Tables(nodes, edges, s.g)
    modifies store
    ensures Agrees(ending, store.row, Turns(s, sky)(old(store.row), claim, at, now))
  {
    var env := sky(at, claim.attempts, StepWaiting(store.row.steps, at));
    ending := Turn(s, nodes, edges, store, claim, at, env, now);
  }

  /** The loop of Engine.Advance. */
  method Loop(s: Setup, sky: Sky, limit: nat, nodes: map<Id, Node>, edges: Adjacency, store: Store,
              enrollment: Claim, start: Id, now: int) returns (committed: bool)
    requires Tables(nodes, edges, s.g)
    modifies store
    ensures var r := Progress.Advance(Turns(s, sky), limit, old(store.row), enrollment, start, now);
            committed == r.Some? && (committed ==> store.row == r.value)
  {
    hide Once;
    var claim, current, processed := enrollment, start, 0;
    while processed < limit
      invariant 0 <= processed <= limit
      invariant Progress.Advance(Turns(s, sky), limit - processed, store.row, claim, current, now)
             == Progress.Advance(Turns(s, sky), limit, old(store.row), enrollment, start, now)
    {
      var ending := TurnUnder(s, sky, nodes, edges, store, claim, current, now);
      processed := processed + 1;
      match ending {
        case Going(next) =>
          claim, current := claim.(attempts := 0), next;
        case Stopped(_) => return true;
        case RolledBack(_) => return false;
      }
    }
    return true;
  }

  /** Engine.Advance. */
  method Advance(s: Setup, sky: Sky, maxNodes: int, store: Store, enrollment: Claim, start: Id, now: int)
    returns (committed: bool)
    modifies store
    ensures var r := Progress.Advance(Turns(s, sky), Limit(maxNodes), old(store.row), enrollment, start, now);
            committed == r.Some? && (committed ==> store.row == r.value)
  {
    var nodes := BuildNodes(s.g.nodes);
    var edges := BuildEdges(s.g.edges);
    committed := Loop(s, sky, Limit(maxNodes), nodes, edges, store, enrollment, start, now);
  }

  /** One claimed enrollment: what it runs on and the row it was claimed with. */
  datatype Job = Job(setup: Setup, sky: Sky, store: Store, claim: Claim, start: Id)

  /** What its transaction leaves: everything it did, or nothing. */
  ghost predicate Settled(job: Job, maxNodes: int, now: int, before: Row, after: Row) {
    after == match Progress.Advance(Turns(job.setup, job.sky), Limit(maxNodes), before, job.claim, job.start, now)
             case Some(r) => r
             case None => before
  }

  /** WithTx around Advance. */
  method RunClaim(job: Job, maxNodes: int, now: int)
    modifies job.store
    ensures Settled(job, maxNodes, now, old(job.store.row), job.store.row)
  {
    var saved := job.store.row;
    var committed := Advance(job.setup, job.sky, maxNodes, job.store, job.claim, job.start, now);
    if !committed {
      job.store.row := saved;
    }
  }

  /** The claimed batch, one transaction each: an enrollment that rolls back does not disturb the others. */
  method RunBatch(jobs: seq<Job>, maxNodes: int, now: int)
    requires forall i, j :: 0 <= i < j < |jobs| ==> jobs[i].store != jobs[j].store
    modifies set i | 0 <= i < |jobs| :: jobs[i].store
    ensures forall i :: 0 <= i < |jobs| ==> Settled(jobs[i], maxNodes, now, old(jobs[i].store.row), jobs[i].store.row)
  {
    hide Once;
    for k := 0 to |jobs|
      invariant forall i :: 0 <= i < k ==> Settled(jobs[i], maxNodes, now, old(jobs[i].store.row), jobs[i].store.row)
      invariant forall i :: k <= i < |jobs| ==> jobs[i].store.row == old(jobs[i].store.row)
    {
      RunClaim(jobs[k], maxNodes, now);
    }
  }

  /** Claim and advance: one tick as seen by one enrollment. */
  method TickOne(s: Setup, sky: Sky, maxNodes: int, store: Store, free: bool, now: int) returns (claimed: bool)
    modifies store
    ensures claimed <==> free && DueAt(old(store.row), now)
    ensures store.row == if claimed then Ticked(Turns(s, sky), old(store.row), Tick(maxNodes, now)) else old(store.row)
  {
    hide Once;
    var claim := store.ClaimDue(free, now);
    if claim.None? { return false; }
    var job := Job(s, sky, store, claim.value, Here(store.row));
    RunClaim(job, maxNodes, now);
    return true;
  }
}
