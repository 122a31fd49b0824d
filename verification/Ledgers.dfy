/**
 * What the columns of an enrollment and its step rows say: every one of them follows from the journal.
 * In particular an active enrollment always has an instant at which it is due, and which one.
 */
module Ledgers {
  import opened Prelude
  import opened Graphs
  import opened Configs
  import opened Validation
  import opened WellFormed
  import opened Engine
  import opened Trails

  function Front(journal: seq<Entry>): seq<Entry>
    requires journal != []
  {
    journal[..|journal| - 1]
  }

  /** How often the node has failed since a step was last recorded. */
  function Failures(journal: seq<Entry>, id: Id): nat {
    if journal == [] || Last(journal).effect.Recorded? then 0
    else Failures(Front(journal), id) + if Last(journal).effect == Stumbled(id) then 1 else 0
  }

  /** What was last recorded for the node. */
  function LastOutcome(journal: seq<Entry>, id: Id): Option<Outcome> {
    if journal == [] then None
    else
      var e := Last(journal).effect;
      if e.Recorded? && e.node == id then Some(e.outcome) else LastOutcome(Front(journal), id)
  }

  /** The number of the attempt that recorded the node; of several the highest. */
  function Tries(journal: seq<Entry>, id: Id): nat {
    if journal == [] then 0
    else
      var e, before := Last(journal).effect, Tries(Front(journal), id);
      if e.Recorded? && e.node == id && Failures(Front(journal), id) + 1 > before then Failures(Front(journal), id) + 1
      else before
  }

  /** The claim generation under which the node's mail was queued. */
  function MailedUnder(journal: seq<Entry>, id: Id): Option<nat> {
    if journal == [] then None
    else
      var e := Last(journal);
      if e.effect.Mailed? && e.effect.node == id then Some(e.gen) else MailedUnder(Front(journal), id)
  }

  /** Where the enrollment stands: at the node it parked at, or where its last step led. */
  function Position(journal: seq<Entry>, start: Id): Option<Id> {
    if journal == [] then Some(start)
    else
      match Last(journal).effect
      case Recorded(node, outcome, next, _) => if outcome == Waiting then Some(node) else next
      case _ => Position(Front(journal), start)
  }

  /** When it is due next: at the instant promised, at once after a step, or after the delay of a retry. */
  function NextDue(journal: seq<Entry>): Option<int> {
    if journal == [] then None
    else
      match Last(journal).effect
      case Recorded(_, outcome, _, wake) => if outcome == Waiting then wake else Some(Last(journal).at)
      case Stumbled(id) => Some(Last(journal).at + RetryDelay(Failures(Front(journal), id)))
      case _ => Some(Last(journal).at)
  }

  /** A mail or tag node, where an inactive subscriber is let go. */
  predicate LooksAtSubscriber(g: Graph, id: Id) {
    FindNode(g.nodes, id).Some? && FindNode(g.nodes, id).value.kind in {SendEmail, AddTag}
  }

  /** How the last step ended the enrollment, if it did: by letting the subscriber go, or by coming to an end. */
  function Ending(g: Graph, journal: seq<Entry>): Option<Status> {
    if journal == [] then None
    else
      match Last(journal).effect
      case Recorded(node, outcome, next, _) =>
        if next.Some? || outcome == Waiting then None
        else if outcome == Left && LooksAtSubscriber(g, node) then Some(Exited) else Some(Completed)
      case _ => None
  }

  predicate StepTells(g: Graph, journal: seq<Entry>, id: Id, step: Step) {
    && FindNode(g.nodes, id).Some? && step.kind == FindNode(g.nodes, id).value.kind
    && LastOutcome(journal, id) == Some(step.outcome) && step.attempt == Tries(journal, id)
  }

  /** Attempts, step rows and deliveries say what the journal says. */
  ghost predicate Columns(g: Graph, row: Row) {
    && (row.current.Some? ==> row.attempts == Failures(row.journal, row.current.value))
    && (forall id :: LastOutcome(row.journal, id).Some? ==> id in row.steps)
    && (forall id :: id in row.steps ==> StepTells(g, row.journal, id, row.steps[id]))
    && (forall id :: MailedUnder(row.journal, id) == if id in row.mails then Some(row.mails[id]) else None)
  }

  /** So do the instant it is due, the node it stands at and its status. Anybody may have ended it meanwhile. */
  ghost predicate Standing(g: Graph, cap: nat, row: Row)
    requires |Triggers(g.nodes)| == 1
  {
    && (row.status == Active ==>
          && row.wakeAt.Some? && (row.journal != [] ==> row.wakeAt == NextDue(row.journal))
          && row.current == Position(row.journal, TriggerOf(g)) && row.attempts < cap)
    && (row.status != Active ==> row.wakeAt.None?)
    && (row.status in {Completed, Exited} ==> row.current.None?)
    && (match Ending(g, row.journal)
        case Some(end) => row.status == end
        case None =>
          || row.status in {Active, Exited}
          || (row.status == Errored && row.journal != [] && Last(row.journal).effect.Stumbled?))
  }

  ghost predicate Ledger(g: Graph, cap: nat, row: Row)
    requires |Triggers(g.nodes)| == 1
  {
    Columns(g, row) && Standing(g, cap, row)
  }

  // ---- Every write keeps the columns ----

  lemma EntriesGrow(journal: seq<Entry>, e: Entry)
    ensures Front(journal + [e]) == journal && Last(journal + [e]) == e
  {
  }

  /** A failure leaves the step rows and counts at its node. */
  lemma FailureLedger(g: Graph, row: Row, claim: Claim, at: Id, fault: Fault, maxAttempts: int, env: Env, now: int)
    requires |Triggers(g.nodes)| == 1 && Ledger(g, AttemptCap(maxAttempts), row)
    requires row.status == Active && row.current == Some(at) && row.attempts == claim.attempts
    ensures var v := ReportFailure(row, claim, at, fault, maxAttempts, env, now);
            v.Abort? || Ledger(g, AttemptCap(maxAttempts), v.row)
  {
    EntriesGrow(row.journal, Entry(claim.gen, now, Stumbled(at)));
  }

  /** A queued mail or a changed tag touches no column but its own. */
  lemma CarryLedger(g: Graph, row: Row, claim: Claim, node: Id, act: Act, env: Env, now: int)
    requires Columns(g, row) && node !in row.mails
    ensures var carried := Carry(row, claim, node, act, env, now);
            carried.Some? ==> Columns(g, carried.value)
  {
    match act
    case NoAct =>
    case Mail(template) => EntriesGrow(row.journal, Entry(claim.gen, now, Mailed(node, template)));
    case Tag(add, tag) => EntriesGrow(row.journal, Entry(claim.gen, now, Tagged(node, add, tag)));
  }

  lemma RecordColumns(g: Graph, row: Row, gen: nat, node: Node, rec: Record, mailed: bool, open: bool, now: int)
    requires Columns(g, row) && Fence(row, gen, open) && !StepDone(row.steps, node.id)
    requires row.current == Some(node.id) && FindNode(g.nodes, node.id) == Some(node)
    ensures Columns(g, RecordStep(row, gen, node, rec, mailed, open, now).value)
  {
    EntriesGrow(row.journal, Entry(gen, now, Recorded(node.id, rec.outcome, rec.next, rec.wake)));
    if LastOutcome(row.journal, node.id).None? {
      UnrecordedIsUntried(row.journal, node.id);
    }
  }

  lemma {:induction false} UnrecordedIsUntried(journal: seq<Entry>, id: Id)
    requires LastOutcome(journal, id).None?
    ensures Tries(journal, id) == 0
  {
    if journal != [] {
      UnrecordedIsUntried(Front(journal), id);
    }
  }

  /** What a decision to record must look like: only a park carries an instant, and the status fits the outcome. */
  ghost predicate Fitting(node: Node, rec: Record) {
    && (rec.outcome == Waiting <==> rec.wake.Some?)
    && (rec.outcome == Waiting ==> rec.next.None?)
    && rec.status == (if rec.next.Some? || rec.outcome == Waiting then Active
                      else if rec.outcome == Left && node.kind in {SendEmail, AddTag} then Exited else Completed)
  }

  lemma DecidesFittingly(lib: Library, node: Node, outs: seq<Edge>, seen: map<Id, Step>, env: Env, now: int)
    ensures var d := Decide(lib, node, outs, seen, env, now); d.Acting? ==> Fitting(node, d.rec)
  {
  }

  lemma RecordStanding(g: Graph, cap: nat, row: Row, gen: nat, node: Node, rec: Record, mailed: bool, open: bool,
                       now: int)
    requires |Triggers(g.nodes)| == 1 && cap > 0
    requires Fence(row, gen, open) && !StepDone(row.steps, node.id)
    requires row.current == Some(node.id) && FindNode(g.nodes, node.id) == Some(node) && Fitting(node, rec)
    ensures Standing(g, cap, RecordStep(row, gen, node, rec, mailed, open, now).value)
  {
    EntriesGrow(row.journal, Entry(gen, now, Recorded(node.id, rec.outcome, rec.next, rec.wake)));
  }

  lemma PerformLedger(g: Graph, row: Row, claim: Claim, node: Node, d: Decision, maxAttempts: int, env: Env, now: int)
    requires |Triggers(g.nodes)| == 1 && Ledger(g, AttemptCap(maxAttempts), row)
    requires row.status == Active && row.current == Some(node.id) && row.attempts == claim.attempts
    requires FindNode(g.nodes, node.id) == Some(node) && node.id !in row.mails && !StepDone(row.steps, node.id)
    requires d.Acting? ==> Fitting(node, d.rec)
    ensures var v := Perform(row, claim, node, d, maxAttempts, env, now);
            v.Abort? || Ledger(g, AttemptCap(maxAttempts), v.row)
  {
    hide Columns, Standing, Fitting;
    match d
    case Failing(fault) => FailureLedger(g, row, claim, node.id, fault, maxAttempts, env, now);
    case Acting(act, rec) =>
      if act != NoAct && env.actFault.Some? {
        FailureLedger(g, row, claim, node.id, env.actFault.value, maxAttempts, env, now);
      } else {
        CarryLedger(g, row, claim, node.id, act, env, now);
        var carried := Carry(row, claim, node.id, act, env, now);
        if carried.Some? && Fence(carried.value, claim.gen, env.open) {
          RecordColumns(g, carried.value, claim.gen, node, rec, act.Mail?, env.open, now);
          RecordStanding(g, AttemptCap(maxAttempts), carried.value, claim.gen, node, rec, act.Mail?, env.open, now);
        }
      }
  }

  /** One turn of the loop leaves every column as the journal has it. */
  lemma VisitKeepsLedger(g: Graph, refs: References, lib: Library, maxAttempts: int, row: Row, claim: Claim, env: Env,
                         now: int)
    requires IsWellFormed(g, refs, lib)
    requires Good(g, row) && row.status == Active && row.attempts == claim.attempts
    requires Ledger(g, AttemptCap(maxAttempts), row)
    ensures var v := Visit(g, lib, maxAttempts, row, claim, row.current.value, row.steps, env, now);
            v.Abort? || Ledger(g, AttemptCap(maxAttempts), v.row)
  {
    Outside(g, row);
    var at := row.current.value;
    match FindNode(g.nodes, at)
    case None => FailureLedger(g, row, claim, at, InvalidReference, maxAttempts, env, now);
    case Some(node) =>
      var outs := Leaving(g.edges, node.id);
      DecidesFittingly(lib, node, outs, row.steps, env, now);
      PerformLedger(g, row, claim, node, Decide(lib, node, outs, row.steps, env, now), maxAttempts, env, now);
  }

  lemma EnrolledLedger(g: Graph, cap: nat, now: int)
    requires |Triggers(g.nodes)| == 1 && cap > 0
    ensures Ledger(g, cap, Enrolled(TriggerOf(g), now))
  {
  }
}
