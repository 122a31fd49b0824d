/**
 * How far an enrollment gets. With a fixed world the node budget of a tick only decides where the
 * transactions end: unless a rollback takes earlier nodes of its tick with it, any sequence of bounded
 * ticks does what one unbounded walk does, and after at most two rounds of attempts per node the
 * enrollment is finished or stays where every turn rolls back.
 */
module Progress {
  import opened Prelude
  import opened Graphs
  import opened Configs
  import opened Waits
  import opened Validation
  import opened WellFormed
  import opened Engine
  import opened Trails
  import opened Ledgers
  import opened Enrollments
  import Agreement

  /** What the world answers at a node, by attempt and by whether the node is being waited at. */
  type Sky = (Id, nat, bool) -> Env

  function Limit(maxNodesPerTick: int): (limit: nat)
    ensures limit > 0 && (limit == maxNodesPerTick || (maxNodesPerTick <= 0 && limit == 25))
  {
    if maxNodesPerTick <= 0 then DEFAULT_MAX_NODES else maxNodesPerTick
  }

  /** One turn of the loop, as a function of the row, the claim, the node and the clock. */
  type Turning = (Row, Claim, Id, int) -> Visited

  /** The turns the engine takes with this setup under this sky. */
  function Turns(s: Setup, sky: Sky): Turning {
    (row: Row, claim: Claim, at: Id, now: int) => Once(s, sky, row, claim, at, now)
  }

  function Once(s: Setup, sky: Sky, row: Row, claim: Claim, at: Id, now: int): Visited {
    Visit(s.g, s.lib, s.maxAttempts, row, claim, at, row.steps,
          sky(at, claim.attempts, StepWaiting(row.steps, at)), now)
  }

  /** Engine.Advance: at most `limit` nodes; None when the transaction rolls back. */
  function Advance(turn: Turning, limit: nat, row: Row, claim: Claim, at: Id, now: int): Option<Row> {
    if limit == 0 then Some(row)
    else
      match turn(row, claim, at, now)
      case Continue(r, next) => Advance(turn, limit - 1, r, claim.(attempts := 0), next, now)
      case Stop(r, _) => Some(r)
      case Abort(_) => None
  }

  datatype Tick = Tick(maxNodes: int, now: int)

  /** Claim, advance, commit. */
  function Ticked(turn: Turning, row: Row, t: Tick): Row {
    var claimed := row.(gen := row.gen + 1);
    match Advance(turn, Limit(t.maxNodes), claimed, Claimed(claimed), Here(claimed), t.now)
    case Some(r) => r
    case None => claimed
  }

  /** The ticks that claim this enrollment, one after the other. */
  function AllTicks(turn: Turning, row: Row, ticks: seq<Tick>): Row
    decreases |ticks|
  {
    if ticks == [] || row.status != Active then row
    else AllTicks(turn, Ticked(turn, row, ticks[0]), ticks[1..])
  }

  function Claimed(row: Row): Claim { Claim(row.gen, row.attempts) }

  function Here(row: Row): Id { if row.current.Some? then row.current.value else Id("") }

  function Next(turn: Turning, row: Row, now: int): Visited { turn(row, Claimed(row), Here(row), now) }

  /** One walk without budget, claims or clock: `moves` turns of the loop. */
  function Walked(turn: Turning, row: Row, moves: nat): Row
    decreases moves
  {
    if moves == 0 || row.status != Active then row
    else
      var v := Next(turn, row, 0);
      if v.Abort? then row else Walked(turn, v.row, moves - 1)
  }

  // ---- What two executions have in common ----

  function PlainEffect(e: Effect): Effect {
    if e.Recorded? then e.(wake := None) else e
  }

  /** The effects without claim generations and times. */
  function Plain(journal: seq<Entry>): seq<Effect> {
    if journal == [] then [] else Plain(journal[..|journal| - 1]) + [PlainEffect(Last(journal).effect)]
  }

  lemma PlainGrows(journal: seq<Entry>, e: Entry)
    ensures Plain(journal + [e]) == Plain(journal) + [PlainEffect(e.effect)]
  {
    assert (journal + [e])[..|journal|] == journal;
  }

  /** Equal but for claim generations and times. */
  ghost predicate Same(a: Row, b: Row) {
    && a.status == b.status && a.current == b.current && a.attempts == b.attempts
    && a.steps == b.steps && a.mails.Keys == b.mails.Keys && Plain(a.journal) == Plain(b.journal)
  }

  /** Two turns that end alike; what a rollback gives as its reason does not matter. */
  ghost predicate SameVisit(v: Visited, w: Visited) {
    || (v.Abort? && w.Abort?)
    || (v.Continue? && w.Continue? && v.next == w.next && Same(v.row, w.row))
    || (v.Stop? && w.Stop? && v.failed == w.failed && Same(v.row, w.row))
  }

  /** The clock decides nothing but the instant of a park. */
  ghost predicate SameDecision(d: Decision, e: Decision) {
    d == e || (d.Acting? && e.Acting? && d.act == e.act == NoAct && d.rec.(wake := None) == e.rec.(wake := None))
  }

  lemma DecidesTheSame(lib: Library, node: Node, outs: seq<Edge>, seen: map<Id, Step>, env: Env, now: int, later: int)
    ensures SameDecision(Decide(lib, node, outs, seen, env, now), Decide(lib, node, outs, seen, env, later))
  {
    if node.kind == Wait {
      WakesLater(node.config, now, lib);
      WakesLater(node.config, later, lib);
    }
  }

  /** The claim stands and nothing has been done at its node yet. */
  ghost predicate Ready(row: Row, claim: Claim, at: Id) {
    && row.status == Active && row.current == Some(at)
    && row.gen == claim.gen && row.attempts == claim.attempts
    && at !in row.mails && !StepDone(row.steps, at)
  }

  /** Nothing rolls back: the database is up and the automation, subscriber, list and tenant stay open. */
  ghost predicate Clear(env: Env) {
    !env.databaseDown && env.open && env.writable && env.snapshotted
  }

  lemma FailsTheSame(a: Row, b: Row, c: Claim, d: Claim, at: Id, fault: Fault, maxAttempts: int, env: Env, now: int,
                     later: int)
    requires Ready(a, c, at) && Ready(b, d, at) && Same(a, b)
    ensures SameVisit(ReportFailure(a, c, at, fault, maxAttempts, env, now),
                      ReportFailure(b, d, at, fault, maxAttempts, env, later))
  {
    PlainGrows(a.journal, Entry(c.gen, now, Stumbled(at)));
    PlainGrows(b.journal, Entry(d.gen, later, Stumbled(at)));
  }

  lemma CarriesTheSame(a: Row, b: Row, c: Claim, d: Claim, at: Id, act: Act, env: Env, now: int, later: int)
    requires Ready(a, c, at) && Ready(b, d, at) && Same(a, b)
    ensures var x, y := Carry(a, c, at, act, env, now), Carry(b, d, at, act, env, later);
            && (x.Some? <==> y.Some?)
            && (x.Some? ==> Same(x.value, y.value) && x.value.gen == a.gen && y.value.gen == b.gen)
  {
    match act
    case NoAct =>
    case Mail(template) =>
      PlainGrows(a.journal, Entry(c.gen, now, Mailed(at, template)));
      PlainGrows(b.journal, Entry(d.gen, later, Mailed(at, template)));
    case Tag(add, tag) =>
      PlainGrows(a.journal, Entry(c.gen, now, Tagged(at, add, tag)));
      PlainGrows(b.journal, Entry(d.gen, later, Tagged(at, add, tag)));
  }

  /** The step map a record leaves does not depend on generations and times. */
  lemma RecordsSameSteps(a: Row, b: Row, node: Node, x: Record, y: Record, mailed: bool, now: int, later: int)
    requires a.steps == b.steps && a.attempts == b.attempts && a.status == b.status == Active
    requires !StepDone(a.steps, node.id) && x.outcome == y.outcome
    ensures RecordStep(a, a.gen, node, x, mailed, true, now).value.steps
         == RecordStep(b, b.gen, node, y, mailed, true, later).value.steps
  {
  }

  /** Nor do the effects it journals. */
  lemma RecordsSameEffects(a: Row, b: Row, node: Node, x: Record, y: Record, mailed: bool, now: int, later: int)
    requires Plain(a.journal) == Plain(b.journal) && a.status == b.status == Active
    requires !StepDone(a.steps, node.id) && !StepDone(b.steps, node.id) && x.(wake := None) == y.(wake := None)
    ensures Plain(RecordStep(a, a.gen, node, x, mailed, true, now).value.journal)
         == Plain(RecordStep(b, b.gen, node, y, mailed, true, later).value.journal)
  {
    PlainGrows(a.journal, Entry(a.gen, now, Recorded(node.id, x.outcome, x.next, x.wake)));
    PlainGrows(b.journal, Entry(b.gen, later, Recorded(node.id, y.outcome, y.next, y.wake)));
  }

  lemma RecordsTheSame(a: Row, b: Row, node: Node, x: Record, y: Record, mailed: bool, now: int, later: int)
    requires Same(a, b) && a.status == Active && !StepDone(a.steps, node.id) && x.(wake := None) == y.(wake := None)
    ensures var r := RecordStep(a, a.gen, node, x, mailed, true, now);
            var q := RecordStep(b, b.gen, node, y, mailed, true, later);
            r.Some? && q.Some? && Same(r.value, q.value)
  {
    RecordsSameSteps(a, b, node, x, y, mailed, now, later);
    RecordsSameEffects(a, b, node, x, y, mailed, now, later);
  }

  lemma PerformsTheSame(a: Row, b: Row, c: Claim, d: Claim, node: Node, x: Decision, y: Decision,
                        maxAttempts: int, env: Env, now: int, later: int)
    requires Ready(a, c, node.id) && Ready(b, d, node.id) && Same(a, b) && SameDecision(x, y)
    ensures SameVisit(Perform(a, c, node, x, maxAttempts, env, now), Perform(b, d, node, y, maxAttempts, env, later))
  {
    match x
    case Failing(fault) => FailsTheSame(a, b, c, d, node.id, fault, maxAttempts, env, now, later);
    case Acting(act, rec) =>
      if act != NoAct && env.actFault.Some? {
        FailsTheSame(a, b, c, d, node.id, env.actFault.value, maxAttempts, env, now, later);
      } else {
        CarriesTheSame(a, b, c, d, node.id, act, env, now, later);
        var p, q := Carry(a, c, node.id, act, env, now), Carry(b, d, node.id, act, env, later);
        if p.Some? && env.open {
          RecordsTheSame(p.value, q.value, node, rec, y.rec, act.Mail?, now, later);
        }
      }
  }

  // ---- One turn of the loop ----

  /** The attempt cap after which a failure is final. */
  function Cap(s: Setup): (cap: nat)
    ensures cap > 0
  {
    AttemptCap(s.maxAttempts)
  }

  ghost predicate Alive(s: Setup, row: Row) {
    |Triggers(s.g.nodes)| == 1 && Good(s.g, row) && (row.status == Active ==> row.attempts < Cap(s))
  }

  lemma AliveIsReady(s: Setup, row: Row)
    requires |Triggers(s.g.nodes)| == 1 && !Cyclic(Arcs(s.g.edges))
    requires Alive(s, row) && row.status == Active
    ensures Ready(row, Claimed(row), row.current.value)
  {
    Outside(s.g, row);
  }

  lemma OnceTheSame(s: Setup, sky: Sky, a: Row, b: Row, now: int, later: int)
    requires |Triggers(s.g.nodes)| == 1 && !Cyclic(Arcs(s.g.edges))
    requires Alive(s, a) && Alive(s, b) && Same(a, b) && a.status == Active
    ensures SameVisit(Once(s, sky, a, Claimed(a), a.current.value, now),
                      Once(s, sky, b, Claimed(b), b.current.value, later))
  {
    AliveIsReady(s, a);
    AliveIsReady(s, b);
    var at := a.current.value;
    var env := sky(at, a.attempts, StepWaiting(a.steps, at));
    match FindNode(s.g.nodes, at)
    case None => FailsTheSame(a, b, Claimed(a), Claimed(b), at, InvalidReference, s.maxAttempts, env, now, later);
    case Some(node) =>
      var outs := Leaving(s.g.edges, node.id);
      DecidesTheSame(s.lib, node, outs, a.steps, env, now, later);
      PerformsTheSame(a, b, Claimed(a), Claimed(b), node, Decide(s.lib, node, outs, a.steps, env, now),
                      Decide(s.lib, node, outs, b.steps, env, later), s.maxAttempts, env, now, later);
  }

  // ---- The measure ----

  /** A node takes at most one round of attempts to park and one to complete. */
  function Rounds(s: Setup): nat { 2 * Cap(s) }

  /** The nodes not yet completed, each worth two rounds of attempts, less what the current one has used up. */
  ghost function Budget(s: Setup, row: Row): int {
    if row.status != Active || row.current.None? then 0
    else
      var left := |s.g.nodes| - |Nodes(Completions, row.journal)|;
      Rounds(s) * left - (if StepWaiting(row.steps, row.current.value) then Cap(s) else 0) - row.attempts
  }

  /** How a visit spends the budget. */
  ghost predicate Spends(s: Setup, row: Row, v: Visited)
    requires row.current.Some?
  {
    match v
    case Continue(r, _) =>
      && |Nodes(Completions, r.journal)| == |Nodes(Completions, row.journal)| + 1
      && StepDone(r.steps, row.current.value)
    case Stop(r, failed) =>
      r.status == Active ==>
        && Nodes(Completions, r.journal) == Nodes(Completions, row.journal)
        && r.current == row.current
        && if failed then r.steps == row.steps && r.attempts == row.attempts + 1 < Cap(s)
           else r.attempts == 0 && StepWaiting(r.steps, row.current.value) && !StepWaiting(row.steps, row.current.value)
    case Abort(_) => true
  }

  lemma OneLess(unit: nat, left: nat)
    requires left > 0
    ensures unit * left == unit * (left - 1) + unit
    ensures 0 <= unit * (left - 1)
  {
  }

  lemma SpendingShrinks(s: Setup, row: Row, v: Visited)
    requires row.status == Active && row.current.Some? && row.attempts < Cap(s)
    requires |Nodes(Completions, row.journal)| < |s.g.nodes|
    requires Spends(s, row, v) && !v.Abort?
    requires v.Continue? ==> v.row.current == Some(v.next) && v.row.attempts == 0 && !StepWaiting(v.row.steps, v.next)
    ensures Budget(s, v.row) < Budget(s, row)
    ensures 0 < Budget(s, row)
  {
    OneLess(Rounds(s), |s.g.nodes| - |Nodes(Completions, row.journal)|);
  }

  lemma CarrySettles(row: Row, at: Id, act: Act, env: Env, now: int)
    requires Ready(row, Claimed(row), at)
    ensures var carried := Carry(row, Claimed(row), at, act, env, now);
            carried.Some? ==>
              && carried.value == row.(mails := carried.value.mails, journal := carried.value.journal)
              && Nodes(Completions, carried.value.journal) == Nodes(Completions, row.journal)
  {
    match act
    case NoAct =>
    case Mail(template) => JournalKeeps(row.journal, Entry(row.gen, now, Mailed(at, template)));
    case Tag(add, tag) => JournalKeeps(row.journal, Entry(row.gen, now, Tagged(at, add, tag)));
  }

  lemma FailureSpends(s: Setup, row: Row, at: Id, fault: Fault, env: Env, now: int)
    requires row.status == Active && row.current.Some?
    ensures Spends(s, row, ReportFailure(row, Claimed(row), at, fault, s.maxAttempts, env, now))
  {
    JournalKeeps(row.journal, Entry(row.gen, now, Stumbled(at)));
  }

  lemma RecordSpends(row: Row, acted: Row, node: Node, rec: Record, mailed: bool, now: int)
    requires Ready(row, Claimed(row), node.id)
    requires acted == row.(mails := acted.mails, journal := acted.journal)
    requires Nodes(Completions, acted.journal) == Nodes(Completions, row.journal)
    ensures var recorded := RecordStep(acted, row.gen, node, rec, mailed, true, now);
            && recorded.Some?
            && var r := recorded.value;
               && r.status == rec.status && r.attempts == 0
               && if rec.outcome != Waiting then
                    && |Nodes(Completions, r.journal)| == |Nodes(Completions, row.journal)| + 1
                    && StepDone(r.steps, node.id)
                  else Nodes(Completions, r.journal) == Nodes(Completions, row.journal)
                       && StepWaiting(r.steps, node.id)
                       && (rec.status == Active && rec.next.None? ==> r.current == row.current)
  {
    NodesGrow(Completions, acted.journal, Entry(row.gen, now, Recorded(node.id, rec.outcome, rec.next, rec.wake)));
  }

  lemma PerformSpends(s: Setup, row: Row, node: Node, d: Decision, env: Env, now: int)
    requires Ready(row, Claimed(row), node.id)
    requires Sensible(s.g.edges, node, StepWaiting(row.steps, node.id), d)
    ensures Spends(s, row, Perform(row, Claimed(row), node, d, s.maxAttempts, env, now))
  {
    match d
    case Failing(fault) => FailureSpends(s, row, node.id, fault, env, now);
    case Acting(act, rec) =>
      if act != NoAct && env.actFault.Some? {
        FailureSpends(s, row, node.id, env.actFault.value, env, now);
      } else {
        CarrySettles(row, node.id, act, env, now);
        var carried := Carry(row, Claimed(row), node.id, act, env, now);
        if carried.Some? && env.open {
          RecordSpends(row, carried.value, node, rec, act.Mail?, now);
        }
      }
  }

  /** The trail and the current node are distinct nodes of the graph. */
  lemma TrailFits(s: Setup, row: Row)
    requires IsWellFormed(s.g, s.refs, s.lib)
    requires Good(s.g, row) && row.status == Active
    ensures |Nodes(Completions, row.journal)| < |s.g.nodes|
  {
    var w := Nodes(Completions, row.journal) + [row.current.value];
    AcyclicWalksAreSimple(Arcs(s.g.edges), w);
    var ids := set n | n in s.g.nodes :: n.id;
    forall i | 0 <= i < |w|
      ensures w[i] in ids
    {
      assert OnPath(s.g, w[..i + 1]);
      Agreement.WalkedIsKnown(s.g, w[..i + 1]);
      assert Last(w[..i + 1]) == w[i];
      var k :| 0 <= k < |s.g.nodes| && s.g.nodes[k].id == w[i];
      assert s.g.nodes[k] in s.g.nodes;
    }
    DistinctFits(w, ids);
    IdsFit(s.g.nodes);
  }

  lemma {:induction false} IdsFit(nodes: seq<Node>)
    ensures |set n | n in nodes :: n.id| <= |nodes|
  {
    var ids := set n | n in nodes :: n.id;
    if nodes == [] {
      assert ids == {};
    } else {
      var front := nodes[..|nodes| - 1];
      IdsFit(front);
      var rest := set n | n in front :: n.id;
      assert nodes == front + [Last(nodes)];
      assert ids == rest + {Last(nodes).id};
    }
  }

  /** The node fails before it gets to act, or in acting. */
  predicate Fails(d: Decision, env: Env) { d.Failing? || (d.act != NoAct && env.actFault.Some?) }

  /**
   * When a turn with this decision rolls back: the database is down; or a failure cannot be reported; or
   * the step cannot be recorded, or not with its mail.
   */
  predicate RollsBack(d: Decision, env: Env) {
    env.databaseDown || if Fails(d, env) then !env.writable else !env.open || (d.act.Mail? && !env.snapshotted)
  }

  /** What is decided at a node; a node the graph does not have fails. */
  function Decided(s: Setup, sky: Sky, row: Row, at: Id, now: int): Decision {
    match FindNode(s.g.nodes, at)
    case None => Failing(InvalidReference)
    case Some(node) =>
      var env := sky(at, row.attempts, StepWaiting(row.steps, at));
      Decide(s.lib, node, Leaving(s.g.edges, node.id), row.steps, env, now)
  }

  lemma RollsBackIff(s: Setup, sky: Sky, row: Row, at: Id, now: int)
    requires Ready(row, Claimed(row), at)
    ensures Once(s, sky, row, Claimed(row), at, now).Abort? <==>
              RollsBack(Decided(s, sky, row, at, now), sky(at, row.attempts, StepWaiting(row.steps, at)))
  {
  }

  lemma OnceSpends(s: Setup, sky: Sky, row: Row, now: int)
    requires row.current.Some? && Ready(row, Claimed(row), row.current.value)
    ensures Spends(s, row, Once(s, sky, row, Claimed(row), row.current.value, now))
  {
    var at := row.current.value;
    var env := sky(at, row.attempts, StepWaiting(row.steps, at));
    match FindNode(s.g.nodes, at)
    case None => FailureSpends(s, row, at, InvalidReference, env, now);
    case Some(node) =>
      DecidesSensibly(s.lib, s.g.edges, node, row.steps, env, now);
      PerformSpends(s, row, node, Decide(s.lib, node, Leaving(s.g.edges, node.id), row.steps, env, now), env, now);
  }

  // ---- When the next tick may claim ----

  /** automation_claim_due asks for an active enrollment whose instant has come. */
  predicate DueAt(row: Row, now: int) { row.status == Active && row.wakeAt.Some? && row.wakeAt.value <= now }

  /** No park and no retry takes longer: a year. */
  const LONGEST: int := 31536000 * SECOND

  /** It becomes due, and within that time. */
  predicate Awaits(row: Row, now: int) { row.wakeAt.Some? && row.wakeAt.value <= now + LONGEST }

  /** What a turn leaves behind about the next instant: due at once if it goes on, and soon enough if it stops. */
  ghost predicate DueAgain(v: Visited, now: int) {
    match v
    case Continue(r, _) => DueAt(r, now)
    case Stop(r, _) => r.status == Active ==> Awaits(r, now)
    case Abort(_) => true
  }

  lemma DecidesSoon(lib: Library, node: Node, outs: seq<Edge>, seen: map<Id, Step>, env: Env, now: int)
    ensures var d := Decide(lib, node, outs, seen, env, now);
            d.Acting? && d.rec.wake.Some? ==> now < d.rec.wake.value <= now + LONGEST
  {
    if node.kind == Wait {
      WakesLater(node.config, now, lib);
    }
  }

  lemma PerformIsDueAgain(row: Row, claim: Claim, node: Node, d: Decision, maxAttempts: int, env: Env, now: int)
    requires !StepDone(row.steps, node.id)
    requires d.Acting? ==> Fitting(node, d.rec) && (d.rec.wake.Some? ==> d.rec.wake.value <= now + LONGEST)
    ensures DueAgain(Perform(row, claim, node, d, maxAttempts, env, now), now)
  {
  }

  /**
   * Whatever the world answers: a turn that goes on leaves the enrollment due now, one that stops leaves it
   * due later.
   */
  lemma OnceIsDueAgain(s: Setup, sky: Sky, row: Row, claim: Claim, at: Id, now: int)
    requires !StepDone(row.steps, at)
    ensures DueAgain(Once(s, sky, row, claim, at, now), now)
  {
    var env := sky(at, claim.attempts, StepWaiting(row.steps, at));
    match FindNode(s.g.nodes, at)
    case None =>
    case Some(node) =>
      var outs := Leaving(s.g.edges, node.id);
      DecidesSoon(s.lib, node, outs, row.steps, env, now);
      DecidesFittingly(s.lib, node, outs, row.steps, env, now);
      PerformIsDueAgain(row, claim, node, Decide(s.lib, node, outs, row.steps, env, now), s.maxAttempts, env, now);
  }

  /** Every turn of the loop that does not roll back keeps the state good and uses up budget. */
  lemma OnceMoves(s: Setup, sky: Sky, row: Row, now: int)
    requires IsWellFormed(s.g, s.refs, s.lib)
    requires Alive(s, row) && row.status == Active
    ensures var at := row.current.value;
            var env := sky(at, row.attempts, StepWaiting(row.steps, at));
            var v := Once(s, sky, row, Claimed(row), at, now);
            && (v.Abort? <==> RollsBack(Decided(s, sky, row, at, now), env))
            && KeptBy(s.g, row, v)
            && (!v.Abort? ==> Alive(s, v.row) && Budget(s, v.row) < Budget(s, row) && 0 < Budget(s, row))
            && (v.Continue? ==> !Same(row, v.row))
            && DueAgain(v, now)
  {
    AliveIsReady(s, row);
    TrailFits(s, row);
    var at := row.current.value;
    OnceIsDueAgain(s, sky, row, Claimed(row), at, now);
    RollsBackIff(s, sky, row, at, now);
    OnceSpends(s, sky, row, now);
    VisitKeeps(s.g, s.refs, s.lib, s.maxAttempts, row, Claimed(row),
               sky(at, row.attempts, StepWaiting(row.steps, at)), now);
    if !Once(s, sky, row, Claimed(row), at, now).Abort? {
      SpendingShrinks(s, row, Once(s, sky, row, Claimed(row), at, now));
    }
  }

  // ---- Ticks and the walk ----

  /**
   * What the turns of the engine have to satisfy: on the rows that can come up they roll back, or use up
   * budget and move on to the node they recorded; and they do not depend on generations and times.
   */
  ghost predicate Steady(turn: Turning, alive: Row -> bool, budget: Row -> int) {
    && (forall row, now :: MovesAt(turn, alive, budget, row, now))
    && (forall a, b, now, later :: RepeatsAt(turn, alive, a, b, now, later))
    && (forall row, claimed {:trigger alive(row), alive(claimed)} ::
          alive(row) && claimed == row.(gen := row.gen + 1) ==> alive(claimed))
  }

  ghost predicate MovesAt(turn: Turning, alive: Row -> bool, budget: Row -> int, row: Row, now: int) {
    alive(row) && row.status == Active ==> Moves(row, alive, budget, Next(turn, row, now), now)
  }

  ghost predicate RepeatsAt(turn: Turning, alive: Row -> bool, a: Row, b: Row, now: int, later: int) {
    alive(a) && alive(b) && Same(a, b) && a.status == Active ==> SameVisit(Next(turn, a, now), Next(turn, b, later))
  }

  ghost predicate Moves(row: Row, alive: Row -> bool, budget: Row -> int, v: Visited, now: int) {
    !v.Abort? ==>
      && alive(v.row) && budget(v.row) < budget(row) && 0 < budget(row) && v.row.gen == row.gen && DueAgain(v, now)
      && (v.Continue? ==>
            v.row.status == Active && v.row.current == Some(v.next) && v.row.attempts == 0 && !Same(row, v.row))
  }

  /** After this many moves the walk is at a turn that rolls back. */
  ghost predicate StallsAt(turn: Turning, row: Row, m: nat) {
    var x := Walked(turn, row, m);
    x.status == Active && Next(turn, x, 0).Abort?
  }

  /** After this many moves the walk goes on, in the same tick if the budget allows, to a turn that rolls back. */
  ghost predicate LosesAt(turn: Turning, row: Row, m: nat) {
    var x := Walked(turn, row, m);
    x.status == Active && Next(turn, x, 0).Continue? && StallsAt(turn, row, m + 1)
  }

  /** After this many moves the walk makes one that ends its tick. */
  ghost predicate StopsAt(turn: Turning, row: Row, m: nat) {
    var x := Walked(turn, row, m);
    x.status == Active && Next(turn, x, 0).Stop?
  }

  ghost predicate Lossless(turn: Turning, row: Row) { forall m: nat :: !LosesAt(turn, row, m) }

  ghost predicate Unstalled(turn: Turning, row: Row) { forall m: nat :: !StallsAt(turn, row, m) }

  lemma UnstalledIsLossless(turn: Turning, row: Row)
    requires Unstalled(turn, row)
    ensures Lossless(turn, row)
  {
    forall m: nat
      ensures !LosesAt(turn, row, m)
    {
      assert !StallsAt(turn, row, m + 1);
    }
  }

  lemma {:induction false} WalkedAdds(turn: Turning, row: Row, m: nat, n: nat)
    ensures Walked(turn, row, m + n) == Walked(turn, Walked(turn, row, m), n)
    decreases m
  {
    if m > 0 && row.status == Active && !Next(turn, row, 0).Abort? {
      WalkedAdds(turn, Next(turn, row, 0).row, m - 1, n);
    }
  }

  lemma {:induction false} WalkedLives(turn: Turning, alive: Row -> bool, budget: Row -> int, row: Row, moves: nat)
    requires Steady(turn, alive, budget) && alive(row)
    ensures alive(Walked(turn, row, moves))
    decreases moves
  {
    assert MovesAt(turn, alive, budget, row, 0);
    if moves > 0 && row.status == Active && !Next(turn, row, 0).Abort? {
      WalkedLives(turn, alive, budget, Next(turn, row, 0).row, moves - 1);
    }
  }

  lemma LosslessOn(turn: Turning, row: Row, m: nat)
    requires Lossless(turn, row)
    ensures Lossless(turn, Walked(turn, row, m))
  {
    forall n: nat
      ensures !LosesAt(turn, Walked(turn, row, m), n)
    {
      WalkedAdds(turn, row, m, n);
      WalkedAdds(turn, row, m, n + 1);
      assert !LosesAt(turn, row, m + n);
    }
  }

  /** The walk has ended: finished, or every further turn rolls back. */
  ghost predicate Settled(turn: Turning, row: Row) { row.status != Active || Next(turn, row, 0).Abort? }

  /** The walk ends within the budget. */
  lemma {:induction false} WalkedEnds(turn: Turning, alive: Row -> bool, budget: Row -> int, row: Row, moves: nat)
    requires Steady(turn, alive, budget) && alive(row) && budget(row) <= moves
    ensures Settled(turn, Walked(turn, row, moves))
    decreases moves
  {
    assert MovesAt(turn, alive, budget, row, 0);
    if !Settled(turn, row) {
      WalkedEnds(turn, alive, budget, Next(turn, row, 0).row, moves - 1);
    }
  }

  /** Two walks that have both ended, ended at the same place. */
  lemma WalkedSettles(turn: Turning, row: Row, m: nat, n: nat)
    requires Settled(turn, Walked(turn, row, m)) && Settled(turn, Walked(turn, row, n))
    ensures Walked(turn, row, m) == Walked(turn, row, n)
  {
    if m <= n {
      WalkedAdds(turn, row, m, n - m);
    } else {
      WalkedAdds(turn, row, n, m - n);
    }
  }

  /**
   * A bounded advance is some number of moves of the walk, as many as the budget allows unless the last
   * of them stops; or it rolls back, because the walk stalls within the budget, and then it loses whatever
   * moves came before.
   */
  lemma {:induction false} AdvanceIsWalked(turn: Turning, alive: Row -> bool, budget: Row -> int, limit: nat,
                                           row: Row, base: Row, now: int) returns (moves: nat)
    requires Steady(turn, alive, budget) && alive(row) && alive(base) && Same(row, base)
    requires row.status == Active
    ensures moves <= limit && alive(Walked(turn, base, moves))
    ensures var r := Advance(turn, limit, row, Claimed(row), Here(row), now);
            if r.Some? then
              && (limit > 0 ==> moves > 0) && alive(r.value) && Same(r.value, Walked(turn, base, moves))
              && r.value.gen == row.gen && (moves < limit ==> moves > 0 && StopsAt(turn, base, moves - 1))
            else
              moves < limit && StallsAt(turn, base, moves) && (moves > 0 ==> LosesAt(turn, base, moves - 1))
    decreases limit
  {
    if limit == 0 {
      moves := 0;
    } else {
      var v, w := Next(turn, row, now), Next(turn, base, 0);
      assert MovesAt(turn, alive, budget, row, now) && MovesAt(turn, alive, budget, base, 0);
      assert RepeatsAt(turn, alive, row, base, now, 0);
      if v.Continue? {
        var more := AdvanceIsWalked(turn, alive, budget, limit - 1, v.row, w.row, now);
        moves := more + 1;
        assert Walked(turn, base, moves) == Walked(turn, w.row, more);
        assert more > 0 ==> Walked(turn, base, more) == Walked(turn, w.row, more - 1);
        assert more > 0 && StopsAt(turn, w.row, more - 1) ==> StopsAt(turn, base, more);
        assert Walked(turn, base, 0) == base;
      } else if v.Stop? {
        moves := 1;
        assert Walked(turn, w.row, 0) == w.row;
      } else {
        moves := 0;
      }
    }
  }

  lemma TickIsWalked(turn: Turning, alive: Row -> bool, budget: Row -> int, row: Row, base: Row, t: Tick)
    returns (moves: nat)
    requires Steady(turn, alive, budget) && alive(row) && alive(base) && Same(row, base) && row.status == Active
    ensures alive(Ticked(turn, row, t)) && alive(Walked(turn, base, moves))
    ensures Same(Ticked(turn, row, t), Walked(turn, base, moves))
    ensures Lossless(turn, base) ==> moves > 0
    ensures Limit(t.maxNodes) == 1 ==> moves == 1
    ensures Ticked(turn, row, t).gen == row.gen + 1
  {
    var claimed := row.(gen := row.gen + 1);
    assert alive(claimed);
    moves := AdvanceIsWalked(turn, alive, budget, Limit(t.maxNodes), claimed, base, t.now);
    if Advance(turn, Limit(t.maxNodes), claimed, Claimed(claimed), Here(claimed), t.now).None? {
      if moves == 0 {
        moves := 1;
        assert Walked(turn, base, 0) == base;
      } else {
        moves := 0;
      }
    }
  }

  /**
   * Ticks never leave the walk; and where nothing is lost, each of them gets on, as far as there is anywhere
   * to get.
   */
  lemma {:induction false} TicksAreWalked(turn: Turning, alive: Row -> bool, budget: Row -> int,
                                          row: Row, base: Row, ticks: seq<Tick>) returns (moves: nat)
    requires Steady(turn, alive, budget) && alive(row) && alive(base) && Same(row, base)
    ensures alive(AllTicks(turn, row, ticks)) && alive(Walked(turn, base, moves))
    ensures Same(AllTicks(turn, row, ticks), Walked(turn, base, moves))
    ensures Lossless(turn, base) && AllTicks(turn, row, ticks).status == Active ==> moves >= |ticks|
    decreases |ticks|
  {
    if ticks == [] || row.status != Active {
      moves := 0;
    } else {
      var first := TickIsWalked(turn, alive, budget, row, base, ticks[0]);
      var rest := TicksAreWalked(turn, alive, budget, Ticked(turn, row, ticks[0]), Walked(turn, base, first),
                                 ticks[1..]);
      WalkedAdds(turn, base, first, rest);
      if Lossless(turn, base) {
        LosslessOn(turn, base, first);
      }
      moves := first + rest;
    }
  }

  /** Where nothing is lost, enough ticks do exactly what the walk does. */
  lemma TicksEnd(turn: Turning, alive: Row -> bool, budget: Row -> int, row: Row, enough: nat, ticks: seq<Tick>)
    requires Steady(turn, alive, budget) && alive(row) && budget(row) <= enough <= |ticks| && Lossless(turn, row)
    ensures Same(AllTicks(turn, row, ticks), Walked(turn, row, enough))
  {
    var moves := TicksAreWalked(turn, alive, budget, row, row, ticks);
    WalkedEnds(turn, alive, budget, row, enough);
    if moves >= |ticks| {
      WalkedEnds(turn, alive, budget, row, moves);
    }
    WalkedSettles(turn, row, moves, enough);
  }

  /** A walk that stalls never finishes. */
  lemma StalledIsActive(turn: Turning, row: Row, m: nat, n: nat)
    requires StallsAt(turn, row, m)
    ensures Walked(turn, row, n).status == Active
  {
    if n <= m {
      WalkedAdds(turn, row, n, m - n);
    } else {
      WalkedAdds(turn, row, m, n - m);
    }
  }

  /** Enough ticks finish if and only if the walk never stalls. */
  lemma TicksFinish(turn: Turning, alive: Row -> bool, budget: Row -> int, row: Row, enough: nat, ticks: seq<Tick>)
    requires Steady(turn, alive, budget) && alive(row) && budget(row) <= enough <= |ticks|
    ensures AllTicks(turn, row, ticks).status != Active <==> Unstalled(turn, row)
  {
    if m: nat :| StallsAt(turn, row, m) {
      var moves := TicksAreWalked(turn, alive, budget, row, row, ticks);
      StalledIsActive(turn, row, m, moves);
    } else {
      UnstalledIsLossless(turn, row);
      TicksEnd(turn, alive, budget, row, enough, ticks);
      WalkedEnds(turn, alive, budget, row, enough);
      assert !StallsAt(turn, row, enough);
    }
  }

  // ---- The engine ----

  ghost function Living(s: Setup): Row -> bool { row => Alive(s, row) }

  ghost function Spending(s: Setup): Row -> int { row => Budget(s, row) }

  lemma EngineMoves(s: Setup, sky: Sky, row: Row, now: int)
    requires IsWellFormed(s.g, s.refs, s.lib)
    ensures MovesAt(Turns(s, sky), Living(s), Spending(s), row, now)
  {
    if Alive(s, row) && row.status == Active {
      OnceMoves(s, sky, row, now);
      assert Next(Turns(s, sky), row, now) == Once(s, sky, row, Claimed(row), row.current.value, now);
    }
  }

  lemma EngineRepeats(s: Setup, sky: Sky, a: Row, b: Row, now: int, later: int)
    requires IsWellFormed(s.g, s.refs, s.lib)
    ensures RepeatsAt(Turns(s, sky), Living(s), a, b, now, later)
  {
    if Alive(s, a) && Alive(s, b) && Same(a, b) && a.status == Active {
      OnceTheSame(s, sky, a, b, now, later);
      assert Next(Turns(s, sky), a, now) == Once(s, sky, a, Claimed(a), a.current.value, now);
      assert Next(Turns(s, sky), b, later) == Once(s, sky, b, Claimed(b), b.current.value, later);
    }
  }

  lemma ClaimsChangeNothing(s: Setup)
    ensures forall row, claimed {:trigger Living(s)(row), Living(s)(claimed)} ::
              Living(s)(row) && claimed == row.(gen := row.gen + 1) ==> Living(s)(claimed)
  {
  }

  lemma EngineIsSteady(s: Setup, sky: Sky)
    requires IsWellFormed(s.g, s.refs, s.lib)
    ensures Steady(Turns(s, sky), Living(s), Spending(s))
  {
    forall row, now
      ensures MovesAt(Turns(s, sky), Living(s), Spending(s), row, now)
    {
      EngineMoves(s, sky, row, now);
    }
    forall a, b, now, later
      ensures RepeatsAt(Turns(s, sky), Living(s), a, b, now, later)
    {
      EngineRepeats(s, sky, a, b, now, later);
    }
    ClaimsChangeNothing(s);
  }

  /** The most ticks an enrollment can need. */
  function Enough(s: Setup): nat { Rounds(s) * |s.g.nodes| }

  lemma StartIsAlive(s: Setup, now: int)
    requires |Triggers(s.g.nodes)| == 1
    ensures Living(s)(Begun(s, now).row) && Spending(s)(Begun(s, now).row) <= Enough(s)
  {
    EnrolledIsGood(s.g, now);
  }

  /** After enough ticks the enrollment is finished if and only if the walk meets no turn that rolls back. */
  lemma FinishesIff(s: Setup, sky: Sky, now: int, ticks: seq<Tick>)
    requires IsWellFormed(s.g, s.refs, s.lib) && |ticks| >= Enough(s)
    ensures AllTicks(Turns(s, sky), Begun(s, now).row, ticks).status in {Completed, Exited, Errored} <==>
              Unstalled(Turns(s, sky), Begun(s, now).row)
  {
    StartIsAlive(s, now);
    EngineIsSteady(s, sky);
    TicksFinish(Turns(s, sky), Living(s), Spending(s), Begun(s, now).row, Enough(s), ticks);
  }

  /**
   * Whatever the node budget of each tick and whenever the ticks come: where no turn of the walk rolls
   * back, after enough ticks the enrollment is completed, exited or errored, and it has done exactly
   * what the walk does.
   */
  lemma BudgetsDoNotMatter(s: Setup, sky: Sky, now: int, ticks: seq<Tick>)
    requires IsWellFormed(s.g, s.refs, s.lib) && |ticks| >= Enough(s)
    requires Unstalled(Turns(s, sky), Begun(s, now).row)
    ensures var start := Begun(s, now).row;
            var end := AllTicks(Turns(s, sky), start, ticks);
            && end.status in {Completed, Exited, Errored}
            && Same(end, Walked(Turns(s, sky), start, Enough(s)))
  {
    StartIsAlive(s, now);
    EngineIsSteady(s, sky);
    UnstalledIsLossless(Turns(s, sky), Begun(s, now).row);
    TicksEnd(Turns(s, sky), Living(s), Spending(s), Begun(s, now).row, Enough(s), ticks);
    FinishesIff(s, sky, now, ticks);
  }

  /** What the world answers about the nodes of the graph, within the attempts there are, never rolls back. */
  ghost predicate Calm(s: Setup, sky: Sky) {
    forall n, k: nat, b {:trigger sky(n.id, k, b)} :: n in s.g.nodes && k < Cap(s) ==> Clear(sky(n.id, k, b))
  }

  lemma CalmTurnGoesOn(s: Setup, sky: Sky, row: Row)
    requires IsWellFormed(s.g, s.refs, s.lib) && Calm(s, sky)
    requires Alive(s, row) && row.status == Active
    ensures !Next(Turns(s, sky), row, 0).Abort?
  {
    var at := row.current.value;
    OnceMoves(s, sky, row, 0);
    Agreement.WalkedIsKnown(s.g, Nodes(Completions, row.journal) + [at]);
    var k :| 0 <= k < |s.g.nodes| && s.g.nodes[k].id == at;
    assert s.g.nodes[k] in s.g.nodes;
    assert Clear(sky(s.g.nodes[k].id, row.attempts, StepWaiting(row.steps, at)));
  }

  /** In a calm world the walk never stalls. */
  lemma CalmNeverStalls(s: Setup, sky: Sky, now: int)
    requires IsWellFormed(s.g, s.refs, s.lib) && Calm(s, sky)
    ensures Unstalled(Turns(s, sky), Begun(s, now).row)
  {
    var turn, start := Turns(s, sky), Begun(s, now).row;
    StartIsAlive(s, now);
    EngineIsSteady(s, sky);
    forall m: nat
      ensures !StallsAt(turn, start, m)
    {
      WalkedLives(turn, Living(s), Spending(s), start, m);
      if Walked(turn, start, m).status == Active {
        CalmTurnGoesOn(s, sky, Walked(turn, start, m));
      }
    }
  }
}
