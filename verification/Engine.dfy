/**
 * The enrollment engine: what Engine.Advance does at one node, the fenced store it writes through
 * (automation_execution_fence, automation_record_step, automation_fail_step, mailing_enqueue_delivery
 * and the tag functions), and the bounded walk that strings nodes together.
 */
module Engine {
  import opened Prelude
  import opened Graphs
  import opened Configs
  import opened Waits

  const DEFAULT_MAX_NODES: nat := 25
  const DEFAULT_MAX_ATTEMPTS: nat := 5

  // ---- The store ----

  datatype Status = Active | Completed | Exited | Errored

  datatype Outcome = Advanced | Sent | Waiting | BranchYes | BranchNo | Left

  /** One row of automation_enrollment_step: at most one per enrollment and node. */
  datatype Step = Step(kind: Kind, outcome: Outcome, attempt: nat, completed: bool, mailed: bool)

  /** Everything an execution can leave behind. */
  datatype Effect =
    | Recorded(node: Id, outcome: Outcome, next: Option<Id>, wake: Option<int>)
    | Mailed(node: Id, template: string)
    | Tagged(node: Id, add: bool, tag: string)
    | Stumbled(node: Id)

  /** An effect with the claim generation that caused it and the time it carries. */
  datatype Entry = Entry(gen: nat, at: int, effect: Effect)

  /**
   * One enrollment: its row, its step rows, the deliveries queued for it (by source node, with the
   * generation they were queued under), and the journal of all effects in order.
   */
  datatype Row = Row(
    status: Status,
    current: Option<Id>,
    wakeAt: Option<int>,
    gen: nat,
    attempts: nat,
    steps: map<Id, Step>,
    mails: map<Id, nat>,
    journal: seq<Entry>)

  /** The claim still stands; `open` says that automation, subscriber, list and tenant allow execution. */
  predicate Fence(row: Row, gen: nat, open: bool) {
    row.status == Active && row.gen == gen && open
  }

  datatype Record = Record(outcome: Outcome, next: Option<Id>, status: Status, wake: Option<int>)

  predicate StepDone(steps: map<Id, Step>, id: Id) { id in steps && steps[id].completed }

  /** automation_step_waiting. */
  predicate StepWaiting(steps: map<Id, Step>, id: Id) {
    id in steps && steps[id].outcome == Waiting && !steps[id].completed
  }

  /** automation_step_delivery is not null. */
  predicate StepMailed(steps: map<Id, Step>, id: Id) { id in steps && steps[id].mailed }

  /** automation_record_step; None is a lost fence, and replaying a completed node changes nothing. */
  function RecordStep(row: Row, gen: nat, node: Node, rec: Record, mailed: bool, open: bool, now: int): Option<Row> {
    if !Fence(row, gen, open) then None
    else if StepDone(row.steps, node.id) then Some(row)
    else
      var before := if node.id in row.steps then Some(row.steps[node.id]) else None;
      var step := Step(
        node.kind, rec.outcome,
        if before.Some? && before.value.attempt > row.attempts + 1 then before.value.attempt else row.attempts + 1,
        rec.outcome != Waiting,
        mailed || (before.Some? && before.value.mailed));
      Some(row.(
        status := rec.status,
        current := if rec.status != Active then None else if rec.next.Some? then rec.next else row.current,
        wakeAt := if rec.status != Active then None else if rec.wake.Some? then rec.wake else Some(now),
        attempts := 0,
        steps := row.steps[node.id := step],
        journal := row.journal + [Entry(gen, now, Recorded(node.id, rec.outcome, rec.next, rec.wake))]))
  }

  /** automation_fail_step; it does not look at the automation, only at the claim. `node` is where it failed. */
  function FailStep(row: Row, gen: nat, node: Id, terminal: bool, retryAt: int, writable: bool, now: int): Option<Row> {
    if !(row.status == Active && row.gen == gen && writable) then None
    else Some(row.(
      status := if terminal then Errored else Active,
      attempts := row.attempts + 1,
      wakeAt := if terminal then None else Some(if retryAt > now then retryAt else now),
      journal := row.journal + [Entry(gen, now, Stumbled(node))]))
  }

  /** mailing_enqueue_delivery: one delivery per source node; a row of another generation is not reused. */
  function EnqueueMail(row: Row, gen: nat, node: Id, template: string, open: bool, snapshotted: bool,
                       now: int): Option<Row>
  {
    if !Fence(row, gen, open) || !snapshotted then None
    else if node in row.mails then if row.mails[node] == gen then Some(row) else None
    else Some(row.(mails := row.mails[node := gen], journal := row.journal + [Entry(gen, now, Mailed(node, template))]))
  }

  /** mailing_automation_add_tag and mailing_automation_remove_tag. */
  function ChangeTag(row: Row, gen: nat, node: Id, add: bool, tag: string, open: bool, now: int): Option<Row> {
    if !Fence(row, gen, open) then None
    else Some(row.(journal := row.journal + [Entry(gen, now, Tagged(node, add, tag))]))
  }

  /**
   * Doing the same again under the same claim changes nothing: a completed step stays as it is, and a mail
   * already queued is not queued again; nor is one that an earlier claim queued taken for this one's.
   */
  lemma ReplaysChangeNothing(row: Row, gen: nat, node: Node, rec: Record, template: string, mailed: bool, now: int)
    requires Fence(row, gen, true)
    ensures StepDone(row.steps, node.id) ==> RecordStep(row, gen, node, rec, mailed, true, now) == Some(row)
    ensures node.id in row.mails ==>
              EnqueueMail(row, gen, node.id, template, true, true, now) ==
                if row.mails[node.id] == gen then Some(row) else None
  {
  }

  // ---- Deciding ----

  /** A failed read or call; an invalid reference is never retried. */
  datatype Fault = Transient | InvalidReference

  datatype Snapshot = Snapshot(active: bool, tags: seq<string>)

  datatype Engaged = Engaged(hasOpened: bool, clicked: seq<string>)

  /** What the world answers while one node is executed. */
  datatype Env = Env(
    snapshot: Result<Snapshot, Fault>,
    waitingFault: Option<Fault>,
    deliveryFault: Option<Fault>,
    engagement: Result<Engaged, Fault>,
    onList: Result<bool, Fault>,
    event: Result<bool, Fault>,
    actFault: Option<Fault>,
    snapshotted: bool,
    open: bool,
    writable: bool,
    databaseDown: bool)

  /** evaluateCondition, after decoding. */
  function Evaluate(p: Predicate, seen: map<Id, Step>, env: Env): Result<bool, Fault> {
    match p
    case HasTag(tag) =>
      (match env.snapshot
       case Err(f) => Err(f)
       case Ok(s) => Ok(exists i :: 0 <= i < |s.tags| && EqualFold(s.tags[i], tag)))
    case OnList(_) => if env.snapshot.Err? then Err(env.snapshot.error) else env.onList
    case EventReceived(_, _) => if env.snapshot.Err? then Err(env.snapshot.error) else env.event
    case OpenedEmail(send) =>
      (match MailAnswer(send, seen, env)
       case Err(f) => Err(f)
       case Ok(e) => Ok(e.Some? && e.value.hasOpened))
    case ClickedLink(send, url) =>
      (match MailAnswer(send, seen, env)
       case Err(f) => Err(f)
       case Ok(e) => Ok(e.Some? && if url.None? then e.value.clicked != [] else url.value in e.value.clicked))
  }

  /** What is known about the mail of an earlier node; None when it sent nothing. */
  function MailAnswer(send: Id, seen: map<Id, Step>, env: Env): Result<Option<Engaged>, Fault> {
    if env.deliveryFault.Some? then Err(env.deliveryFault.value)
    else if !StepMailed(seen, send) then Ok(None)
    else
      match env.engagement
      case Err(f) => Err(f)
      case Ok(e) => Ok(Some(e))
  }

  datatype Act = NoAct | Mail(template: string) | Tag(add: bool, tag: string)

  /** What the engine means to do at a node: act and record, or report a failure. */
  datatype Decision = Failing(fault: Fault) | Acting(act: Act, rec: Record)

  /** nextNode: the first edge with the label; `None` looks for an edge without one. */
  function NextNode(outs: seq<Edge>, branch: Option<Branch>): Option<Id> {
    if outs == [] then None
    else if outs[0].branch == branch || (branch.None? && outs[0].branch == Some(Empty)) then
      if outs[0].to.text == "" then None else Some(outs[0].to)
    else NextNode(outs[1..], branch)
  }

  function Onward(outcome: Outcome, next: Option<Id>): Record {
    Record(outcome, next, if next.None? then Completed else Active, None)
  }

  const LEAVE: Record := Record(Left, None, Exited, None)

  /** The body of the loop, up to the point where something is written. */
  function Decide(lib: Library, node: Node, outs: seq<Edge>, seen: map<Id, Step>, env: Env, now: int): Decision {
    var next := NextNode(outs, None);
    match node.kind
    case Trigger => Acting(NoAct, Onward(Advanced, next))
    case SendEmail =>
      (match env.snapshot
       case Err(f) => Failing(f)
       case Ok(s) =>
         if !s.active then Acting(NoAct, LEAVE)
         else
           match ReadSend(node.config)
           case None => Failing(InvalidReference)
           case Some(c) => Acting(Mail(c.template), Onward(Sent, next)))
    case Wait =>
      if env.waitingFault.Some? then Failing(env.waitingFault.value)
      else if StepWaiting(seen, node.id) then Acting(NoAct, Onward(Advanced, next))
      else
        (match WakeAt(node.config, now, lib)
         case None => Failing(InvalidReference)
         case Some(wake) => Acting(NoAct, Record(Waiting, None, Active, Some(wake))))
    case Condition =>
      (match ReadCondition(node.config)
       case None => Failing(InvalidReference)
       case Some(p) =>
         match Evaluate(p, seen, env)
         case Err(f) => Failing(f)
         case Ok(yes) =>
           if yes then Acting(NoAct, Onward(BranchYes, NextNode(outs, Some(Yes))))
           else Acting(NoAct, Onward(BranchNo, NextNode(outs, Some(No)))))
    case AddTag =>
      (match ReadTag(node.config)
       case None => Failing(InvalidReference)
       case Some(tag) =>
         match env.snapshot
         case Err(f) => Failing(f)
         case Ok(s) => if !s.active then Acting(NoAct, LEAVE) else Acting(Tag(true, tag), Onward(Advanced, next)))
    case RemoveTag =>
      (match ReadTag(node.config)
       case None => Failing(InvalidReference)
       case Some(tag) => Acting(Tag(false, tag), Onward(Advanced, next)))
    case Exit => Acting(NoAct, Record(Left, None, Completed, None))
    case UnknownKind(_) => Failing(InvalidReference)
  }

  // ---- Acting ----

  /** The part of a claim the engine carries along. */
  datatype Claim = Claim(gen: nat, attempts: nat)

  /** How one node ends: go on, stop and commit, or roll everything back. */
  datatype Visited =
    | Continue(row: Row, next: Id)
    | Stop(row: Row, failed: bool)
    | Abort(lost: bool)

  /** 30 s doubling up to an hour. */
  function RetryDelay(attempts: nat): (d: int)
    ensures 30 * SECOND <= d <= 3600 * SECOND
  {
    (if attempts == 0 then 30 else if attempts == 1 then 60 else if attempts == 2 then 120
     else if attempts == 3 then 240 else if attempts == 4 then 480 else if attempts == 5 then 960
     else if attempts == 6 then 1920 else 3600) * SECOND
  }

  /** Each retry waits twice as long as the one before, up to the hour. */
  lemma RetriesDouble(attempts: nat)
    ensures RetryDelay(0) == 30 * SECOND
    ensures RetryDelay(attempts + 1) ==
            if 2 * RetryDelay(attempts) < 3600 * SECOND then 2 * RetryDelay(attempts) else 3600 * SECOND
  {
    if attempts <= 6 {
      assert attempts in {0, 1, 2, 3, 4, 5, 6};
    }
  }

  /** Anything but a positive limit means the standard one. */
  function AttemptCap(maxAttempts: int): (cap: nat)
    ensures cap > 0 && (cap == maxAttempts || (maxAttempts <= 0 && cap == 5))
  {
    if maxAttempts <= 0 then DEFAULT_MAX_ATTEMPTS else maxAttempts
  }

  function ReportFailure(row: Row, claim: Claim, at: Id, fault: Fault, maxAttempts: int, env: Env, now: int): Visited {
    if env.databaseDown then Abort(false)
    else
      var terminal := fault == InvalidReference || claim.attempts + 1 >= AttemptCap(maxAttempts);
      match FailStep(row, claim.gen, at, terminal, now + RetryDelay(claim.attempts), env.writable, now)
      case None => Abort(true)
      case Some(failed) => Stop(failed, true)
  }

  /** Sending and tagging happen before the step is recorded, in the same transaction. */
  function Carry(row: Row, claim: Claim, node: Id, act: Act, env: Env, now: int): Option<Row> {
    match act
    case NoAct => Some(row)
    case Mail(template) => EnqueueMail(row, claim.gen, node, template, env.open, env.snapshotted, now)
    case Tag(add, tag) => ChangeTag(row, claim.gen, node, add, tag, env.open, now)
  }

  function Perform(row: Row, claim: Claim, node: Node, decision: Decision, maxAttempts: int, env: Env,
                   now: int): Visited
  {
    match decision
    case Failing(fault) => ReportFailure(row, claim, node.id, fault, maxAttempts, env, now)
    case Acting(act, rec) =>
      if act != NoAct && env.actFault.Some? then
        ReportFailure(row, claim, node.id, env.actFault.value, maxAttempts, env, now)
      else
        match Carry(row, claim, node.id, act, env, now)
        case None => Abort(true)
        case Some(acted) =>
          if env.databaseDown then Abort(false)
          else
            match RecordStep(acted, claim.gen, node, rec, act.Mail?, env.open, now)
            case None => Abort(true)
            case Some(recorded) =>
              if rec.status != Active || rec.outcome == Waiting then Stop(recorded, false)
              else if rec.next.Some? then Continue(recorded, rec.next.value)
              else Stop(recorded, false)
  }

  /** Nodes are looked up by id; of several with one id the last counts. */
  function FindNode(nodes: seq<Node>, id: Id): (r: Option<Node>)
    ensures r.Some? ==> r.value in nodes && r.value.id == id
    ensures r.None? ==> forall n :: n in nodes ==> n.id != id
  {
    if nodes == [] then None
    else if Last(nodes).id == id then Some(Last(nodes))
    else FindNode(nodes[..|nodes| - 1], id)
  }

  /** One turn of the loop. `seen` is what the node's own reads of the step rows returned. */
  function Visit(g: Graph, lib: Library, maxAttempts: int, row: Row, claim: Claim, at: Id,
                 seen: map<Id, Step>, env: Env, now: int): Visited
  {
    match FindNode(g.nodes, at)
    case None => ReportFailure(row, claim, at, InvalidReference, maxAttempts, env, now)
    case Some(node) =>
      Perform(row, claim, node, Decide(lib, node, Leaving(g.edges, node.id), seen, env, now), maxAttempts, env, now)
  }
}
