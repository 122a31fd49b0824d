/**
 * Validation and execution agree: on a graph without issues the engine always finds its node, can
 * read its configuration and has a successor for both answers of a condition. Only the outside world
 * can make a step fail.
 */
module Agreement {
  import opened Prelude
  import opened Graphs
  import opened Configs
  import opened Documents
  import opened Validation
  import opened WellFormed
  import opened Engine
  import opened Trails
  import opened Accounts
  import opened Enrollments

  /** A read of the outside world failed in this way. */
  ghost predicate Raised(env: Env, f: Fault) {
    || env.snapshot == Err(f) || env.waitingFault == Some(f) || env.deliveryFault == Some(f)
    || env.engagement == Err(f) || env.onList == Err(f) || env.event == Err(f)
  }

  lemma ReadableFailsOnlyOutside(lib: Library, node: Node, outs: seq<Edge>, seen: map<Id, Step>, env: Env, now: int)
    requires Readable(node, lib)
    ensures var d := Decide(lib, node, outs, seen, env, now); d.Failing? ==> Raised(env, d.fault)
  {
    match node.kind
    case Wait => WakesLater(node.config, now, lib);
    case Condition =>
      var p := ReadCondition(node.config).value;
      EvaluatesOrRaises(p, seen, env);
    case _ =>
  }

  /** When a node's execution fails, and how: its document cannot be read, or a read it depends on failed first. */
  ghost predicate MustFail(lib: Library, node: Node, seen: map<Id, Step>, env: Env, f: Fault) {
    match node.kind
    case Trigger => false
    case Exit => false
    case SendEmail =>
      env.snapshot == Err(f)
      || (env.snapshot.Ok? && env.snapshot.value.active && !Readable(node, lib) && f == InvalidReference)
    case Wait =>
      if env.waitingFault.Some? then env.waitingFault == Some(f)
      else !StepWaiting(seen, node.id) && !Readable(node, lib) && f == InvalidReference
    case Condition =>
      if !Readable(node, lib) then f == InvalidReference
      else Unanswered(ReadCondition(node.config).value, seen, env, f)
    case AddTag => if !Readable(node, lib) then f == InvalidReference else env.snapshot == Err(f)
    case RemoveTag => !Readable(node, lib) && f == InvalidReference
    case UnknownKind(_) => f == InvalidReference
  }

  lemma FailsIff(lib: Library, node: Node, outs: seq<Edge>, seen: map<Id, Step>, env: Env, now: int, f: Fault)
    ensures Decide(lib, node, outs, seen, env, now) == Failing(f) <==> MustFail(lib, node, seen, env, f)
  {
    match node.kind
    case Wait => WakesLater(node.config, now, lib);
    case Condition =>
      if ReadCondition(node.config).Some? {
        EvaluatesTruly(ReadCondition(node.config).value, seen, env);
      }
    case _ =>
  }

  lemma EvaluatesOrRaises(p: Predicate, seen: map<Id, Step>, env: Env)
    ensures var answer := Evaluate(p, seen, env); answer.Err? ==> Raised(env, answer.error)
  {
  }

  /** The last node of a walk from the trigger belongs to the graph. */
  lemma WalkedIsKnown(g: Graph, w: seq<Id>)
    requires SoundEdges(g) && |Triggers(g.nodes)| == 1
    requires w != [] && OnPath(g, w)
    ensures Known(g.nodes, Last(w))
  {
    if |w| == 1 {
      var i := TriggerNode(g.nodes, 0);
    } else {
      var i, j := |w| - 2, |w| - 1;
      assert Arc(w[i], w[j]) in Arcs(g.edges);
      var e :| e in g.edges && Arc(e.from, e.to) == Arc(w[i], w[j]);
      var k :| 0 <= k < |g.edges| && g.edges[k] == e;
    }
  }

  /** What the engine finds at the current node of a valid graph. */
  ghost predicate Answerable(g: Graph, lib: Library, at: Id, seen: map<Id, Step>, env: Env, now: int) {
    && FindNode(g.nodes, at).Some?
    && var node := FindNode(g.nodes, at).value;
       var d := Decide(lib, node, Leaving(g.edges, node.id), seen, env, now);
       && Readable(node, lib)
       && (d.Failing? ==> Raised(env, d.fault))
       && (d.Acting? && node.kind == Condition ==> d.rec.next.Some?)
  }

  lemma CurrentIsReadable(g: Graph, refs: References, lib: Library, row: Row)
    requires IsWellFormed(g, refs, lib)
    requires GoodPath(g, row) && row.status == Active
    ensures var found := FindNode(g.nodes, row.current.value);
            found.Some? && Readable(found.value, lib) && Fit(g, found.value)
  {
    var w := Nodes(Completions, row.journal) + [row.current.value];
    WalkedIsKnown(g, w);
    assert Last(w) == row.current.value;
    var node := FindNode(g.nodes, row.current.value).value;
    var i :| 0 <= i < |g.nodes| && g.nodes[i] == node;
    SoundIsReadable(node, refs, lib);
    WellFormedIsFit(g, refs, lib, node);
  }

  lemma ConditionsLead(g: Graph, lib: Library, node: Node, seen: map<Id, Step>, env: Env, now: int)
    requires Fit(g, node) && node.kind == Condition
    ensures var d := Decide(lib, node, Leaving(g.edges, node.id), seen, env, now); d.Acting? ==> d.rec.next.Some?
  {
    LabelledIsLed(g, node, Yes);
    LabelledIsLed(g, node, No);
  }

  lemma ValidGraphsAreAnswerable(g: Graph, refs: References, lib: Library, row: Row, env: Env, now: int)
    requires IsWellFormed(g, refs, lib)
    requires GoodPath(g, row) && row.status == Active
    ensures Answerable(g, lib, row.current.value, row.steps, env, now)
  {
    CurrentIsReadable(g, refs, lib, row);
    var node := FindNode(g.nodes, row.current.value).value;
    ReadableFailsOnlyOutside(lib, node, Leaving(g.edges, node.id), row.steps, env, now);
    if node.kind == Condition {
      ConditionsLead(g, lib, node, row.steps, env, now);
    }
  }

  /**
   * In every reachable state of every run, a worker whose claim stands is at a node it can answer:
   * it errors only when the world reported a failure, never because of the graph.
   */
  lemma GraphNeverFailsARun(s: Setup, now: int, acts: seq<Action>, v: World, worker: nat, env: Env)
    requires IsWellFormed(s.g, s.refs, s.lib)
    requires Runs(s, Begun(s, now), acts, v)
    requires Enabled(v, VisitNode(worker, env))
    requires var k := v.workers[worker]; v.row.status == Active && k.claim.gen == v.row.gen
    ensures var k := v.workers[worker]; Answerable(s.g, s.lib, k.at, k.seen.value, env, k.clock)
  {
    ReachableKeeps(s, now, acts, v);
    var k := v.workers[worker];
    assert GoodWorker(s, v.row, k);
    ValidGraphsAreAnswerable(s.g, s.refs, s.lib, View(v.row, k), env, k.clock);
  }

  lemma FailureIsEarned(row: Row, claim: Claim, at: Id, fault: Fault, maxAttempts: int, env: Env, now: int)
    requires row.attempts == claim.attempts
    ensures var v := ReportFailure(row, claim, at, fault, maxAttempts, env, now);
            && (!v.Abort? && v.row.status == Errored ==>
                  v.row.attempts >= AttemptCap(maxAttempts) || fault == InvalidReference || row.status == Errored)
            && (!v.Abort? && v.row.status == Active ==>
                  v.row.wakeAt.Some? && v.row.wakeAt.value >= now + RetryDelay(claim.attempts))
  {
  }

  lemma PerformErrsForCause(row: Row, claim: Claim, node: Node, d: Decision, maxAttempts: int, env: Env, now: int)
    requires row.status == Active && row.attempts == claim.attempts
    requires d.Acting? ==> d.rec.status != Errored
    requires d.Failing? ==> Raised(env, d.fault)
    ensures var v := Perform(row, claim, node, d, maxAttempts, env, now);
            !v.Abort? && v.row.status == Errored ==>
              && v.row.current == row.current
              && (|| v.row.attempts >= AttemptCap(maxAttempts) || Raised(env, InvalidReference)
                  || env.actFault == Some(InvalidReference))
  {
    match d
    case Failing(fault) => FailureIsEarned(row, claim, node.id, fault, maxAttempts, env, now);
    case Acting(act, rec) =>
      if act != NoAct && env.actFault.Some? {
        FailureIsEarned(row, claim, node.id, env.actFault.value, maxAttempts, env, now);
      }
  }

  lemma NeverDecidesError(lib: Library, node: Node, outs: seq<Edge>, seen: map<Id, Step>, env: Env, now: int)
    ensures var d := Decide(lib, node, outs, seen, env, now); d.Acting? ==> d.rec.status != Errored
  {
  }

  /** The fault a turn reports, if it fails. */
  function FaultAt(g: Graph, lib: Library, at: Id, seen: map<Id, Step>, env: Env, now: int): Option<Fault> {
    match FindNode(g.nodes, at)
    case None => Some(InvalidReference)
    case Some(node) =>
      match Decide(lib, node, Leaving(g.edges, node.id), seen, env, now)
      case Failing(fault) => Some(fault)
      case Acting(act, _) => if act != NoAct then env.actFault else None
  }

  /**
   * How a failing turn ends: by giving up at once on an invalid reference, by giving up when the attempts
   * are used up, and otherwise with a retry; a turn that does not fail never errors the enrollment.
   */
  lemma ErrsIff(g: Graph, lib: Library, maxAttempts: int, row: Row, claim: Claim, at: Id, seen: map<Id, Step>,
                env: Env, now: int)
    requires row.status == Active && !StepDone(row.steps, at)
    ensures var v := Visit(g, lib, maxAttempts, row, claim, at, seen, env, now);
            var fault := FaultAt(g, lib, at, seen, env, now);
            !v.Abort? ==>
              && (fault.Some? <==> v.Stop? && v.failed)
              && (v.row.status == Errored <==>
                    fault == Some(InvalidReference) || (fault.Some? && claim.attempts + 1 >= AttemptCap(maxAttempts)))
  {
    if FindNode(g.nodes, at).Some? {
      var node := FindNode(g.nodes, at).value;
      NeverDecidesError(lib, node, Leaving(g.edges, node.id), seen, env, now);
    }
  }

  /**
   * An enrollment on a valid graph is errored only after its node failed as often as the cap allows,
   * with nothing else in between, or because the world itself reported an invalid reference.
   */
  lemma ErrorsAreEarned(s: Setup, now: int, acts: seq<Action>, v: World, worker: nat, env: Env)
    requires IsWellFormed(s.g, s.refs, s.lib)
    requires Runs(s, Begun(s, now), acts, v)
    requires Enabled(v, VisitNode(worker, env))
    ensures var k := v.workers[worker];
            var left := Visiting(s, v.row, k, env);
            !left.Abort? && left.row.status == Errored ==>
              || Streak(left.row.journal, k.at) >= AttemptCap(s.maxAttempts) || Raised(env, InvalidReference)
              || env.actFault == Some(InvalidReference)
  {
    ReachableKeeps(s, now, acts, v);
    var k := v.workers[worker];
    assert GoodWorker(s, v.row, k);
    var view := View(v.row, k);
    VisitIsFenced(s.g, s.lib, s.maxAttempts, view, k.claim, k.at, k.seen.value, env, k.clock);
    if view.status == Active && view.gen == k.claim.gen {
      VisitAccounts(s.g, s.refs, s.lib, s.maxAttempts, view, k.claim, env, k.clock);
      ValidGraphsAreAnswerable(s.g, s.refs, s.lib, view, env, k.clock);
      var node := FindNode(s.g.nodes, k.at).value;
      var outs := Leaving(s.g.edges, node.id);
      NeverDecidesError(s.lib, node, outs, k.seen.value, env, k.clock);
      PerformErrsForCause(view, k.claim, node, Decide(s.lib, node, outs, k.seen.value, env, k.clock), s.maxAttempts,
                          env, k.clock);
    }
  }
}
