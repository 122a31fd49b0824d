/**
 * What every journal entry stands for: each recorded step is explained by its node's kind, its
 * configuration and the edge it follows, and each mail or tag change by the step recorded with it.
 */
module Accounts {
  import opened Prelude
  import opened Graphs
  import opened Configs
  import opened Validation
  import opened WellFormed
  import opened Engine
  import opened Trails

  /** The successor is the one the label leads to; none only if no edge has the label. */
  ghost predicate Led(edges: seq<Edge>, id: Id, branch: Option<Branch>, next: Option<Id>) {
    if next.Some? then exists e :: e in edges && e.from == id && e.to == next.value && e.branch == branch
    else forall e :: e in edges && e.from == id ==> e.branch != branch
  }

  /** What may be recorded at a node, and what must have been done with it. */
  ghost predicate Meaning(edges: seq<Edge>, lib: Library, node: Node, at: int, act: Act,
                          outcome: Outcome, next: Option<Id>, wake: Option<int>)
  {
    match node.kind
    case Trigger => act == NoAct && outcome == Advanced && Led(edges, node.id, None, next)
    case SendEmail =>
      || (act == NoAct && outcome == Left && next.None?)
      || (ReadSend(node.config).Some? && act == Mail(ReadSend(node.config).value.template)
          && outcome == Sent && Led(edges, node.id, None, next))
    case Wait =>
      act == NoAct &&
      (|| (outcome == Waiting && next.None? && wake.Some? && wake == WakeAt(node.config, at, lib))
       || (outcome == Advanced && Led(edges, node.id, None, next)))
    case Condition =>
      act == NoAct && next.Some? &&
      (|| (outcome == BranchYes && Led(edges, node.id, Some(Yes), next))
       || (outcome == BranchNo && Led(edges, node.id, Some(No), next)))
    case AddTag =>
      || (act == NoAct && outcome == Left && next.None?)
      || (ReadTag(node.config).Some? && act == Tag(true, ReadTag(node.config).value)
          && outcome == Advanced && Led(edges, node.id, None, next))
    case RemoveTag =>
      ReadTag(node.config).Some? && act == Tag(false, ReadTag(node.config).value)
      && outcome == Advanced && Led(edges, node.id, None, next)
    case Exit => act == NoAct && outcome == Left && next.None?
    case UnknownKind(_) => false
  }

  // ---- Decisions ----

  lemma {:induction false} NextLeads(outs: seq<Edge>, branch: Option<Branch>)
    requires forall e :: e in outs ==> e.to.text != "" && e.branch != Some(Empty)
    ensures var next := NextNode(outs, branch);
            if next.Some? then exists e :: e in outs && e.to == next.value && e.branch == branch
            else forall e :: e in outs ==> e.branch != branch
  {
    if outs != [] {
      assert outs[0] in outs;
      if outs[0].branch != branch {
        NextLeads(outs[1..], branch);
        assert forall e :: e in outs ==> e == outs[0] || e in outs[1..];
      }
    }
  }

  /** What a well-formed graph gives at one of its nodes: edges to known nodes, in the node's shape. */
  ghost predicate Fit(g: Graph, node: Node) {
    SoundEdges(g) && (forall i :: 0 <= i < |g.nodes| ==> IdOk(g.nodes[i].id)) && Shaped(node, Leaving(g.edges, node.id))
  }

  lemma WellFormedIsFit(g: Graph, refs: References, lib: Library, node: Node)
    requires IsWellFormed(g, refs, lib) && node in g.nodes
    ensures Fit(g, node)
  {
    var i :| 0 <= i < |g.nodes| && g.nodes[i] == node;
    assert Shaped(g.nodes[i], Leaving(g.edges, g.nodes[i].id));
  }

  /** Such edges lead somewhere, and none is labelled with empty text. */
  lemma EdgesAreSound(g: Graph, node: Node, e: Edge)
    requires Fit(g, node) && e in Leaving(g.edges, node.id)
    ensures e.to.text != "" && e.branch != Some(Empty)
  {
    var k :| 0 <= k < |g.edges| && g.edges[k] == e;
    assert Known(g.nodes, g.edges[k].to);
  }

  lemma NextIsLed(g: Graph, node: Node, branch: Option<Branch>)
    requires Fit(g, node)
    ensures Led(g.edges, node.id, branch, NextNode(Leaving(g.edges, node.id), branch))
  {
    var outs := Leaving(g.edges, node.id);
    forall e | e in outs
      ensures e.to.text != "" && e.branch != Some(Empty)
    {
      EdgesAreSound(g, node, e);
    }
    NextLeads(outs, branch);
  }

  /** A condition takes the branch of its answer, or fails as its question failed. */
  ghost predicate Answered(node: Node, seen: map<Id, Step>, env: Env, d: Decision) {
    node.kind == Condition && ReadCondition(node.config).Some? ==>
      match Evaluate(ReadCondition(node.config).value, seen, env)
      case Err(f) => d == Failing(f)
      case Ok(yes) => d.Acting? && d.rec.outcome == if yes then BranchYes else BranchNo
  }

  lemma DecidesTheAnswer(lib: Library, node: Node, outs: seq<Edge>, seen: map<Id, Step>, env: Env, now: int)
    ensures Answered(node, seen, env, Decide(lib, node, outs, seen, env, now))
  {
  }

  /** What a condition asks, in terms of what the world knows; mail that was never sent was not opened. */
  ghost predicate Holds(p: Predicate, seen: map<Id, Step>, env: Env) {
    match p
    case OpenedEmail(send) => StepMailed(seen, send) && env.engagement.Ok? && env.engagement.value.hasOpened
    case ClickedLink(send, url) =>
      && StepMailed(seen, send) && env.engagement.Ok?
      && exists link :: link in env.engagement.value.clicked && (url.Some? ==> link == url.value)
    case HasTag(tag) => env.snapshot.Ok? && exists t :: t in env.snapshot.value.tags && EqualFold(t, tag)
    case OnList(_) => env.onList == Ok(true)
    case EventReceived(_, _) => env.event == Ok(true)
  }

  /** Which failed read keeps a condition from being answered: the first of those it takes. */
  ghost predicate Unanswered(p: Predicate, seen: map<Id, Step>, env: Env, f: Fault) {
    if p.OpenedEmail? || p.ClickedLink? then
      if env.deliveryFault.Some? then env.deliveryFault == Some(f)
      else StepMailed(seen, p.send) && env.engagement == Err(f)
    else if env.snapshot.Err? then env.snapshot == Err(f)
    else (p.OnList? && env.onList == Err(f)) || (p.EventReceived? && env.event == Err(f))
  }

  lemma EvaluatesTruly(p: Predicate, seen: map<Id, Step>, env: Env)
    ensures var answer := Evaluate(p, seen, env); answer.Ok? ==> (answer.value <==> Holds(p, seen, env))
    ensures forall f :: Evaluate(p, seen, env) == Err(f) <==> Unanswered(p, seen, env, f)
  {
    if p.ClickedLink? && env.engagement.Ok? && env.engagement.value.clicked != [] {
      assert env.engagement.value.clicked[0] in env.engagement.value.clicked;
    }
  }

  /** At a mail or tag node the engine decides to exit, and to do nothing, exactly for inactive subscribers. */
  lemma LeavesOnlyInactive(lib: Library, node: Node, outs: seq<Edge>, seen: map<Id, Step>, env: Env, now: int)
    ensures var d := Decide(lib, node, outs, seen, env, now);
            node.kind in {SendEmail, AddTag} && d.Acting? ==>
              && env.snapshot.Ok?
              && (d.rec.outcome == Left <==> !env.snapshot.value.active)
              && (d.act == NoAct <==> !env.snapshot.value.active)
  {
  }

  lemma BothLabelsLead(outs: seq<Edge>)
    requires TwoBranches(outs)
    ensures exists e :: e in outs && e.branch == Some(Yes)
    ensures exists e :: e in outs && e.branch == Some(No)
  {
    assert outs[0] in outs && outs[1] in outs;
  }

  lemma LabelledIsLed(g: Graph, node: Node, branch: Branch)
    requires Fit(g, node) && node.kind == Condition && branch in {Yes, No}
    ensures NextNode(Leaving(g.edges, node.id), Some(branch)).Some?
  {
    BothLabelsLead(Leaving(g.edges, node.id));
    NextIsLed(g, node, Some(branch));
  }

  lemma LedIsMeaning(edges: seq<Edge>, lib: Library, node: Node, outs: seq<Edge>, seen: map<Id, Step>, env: Env,
                     now: int)
    requires Led(edges, node.id, None, NextNode(outs, None))
    requires Led(edges, node.id, Some(Yes), NextNode(outs, Some(Yes)))
    requires Led(edges, node.id, Some(No), NextNode(outs, Some(No)))
    requires node.kind == Condition ==> NextNode(outs, Some(Yes)).Some? && NextNode(outs, Some(No)).Some?
    ensures var d := Decide(lib, node, outs, seen, env, now);
            d.Acting? ==> Meaning(edges, lib, node, now, d.act, d.rec.outcome, d.rec.next, d.rec.wake)
  {
  }

  lemma DecidesMeaningfully(g: Graph, lib: Library, node: Node, seen: map<Id, Step>, env: Env, now: int)
    requires Fit(g, node)
    ensures var d := Decide(lib, node, Leaving(g.edges, node.id), seen, env, now);
            d.Acting? ==> Meaning(g.edges, lib, node, now, d.act, d.rec.outcome, d.rec.next, d.rec.wake)
  {
    if node.kind == Condition {
      LabelledIsLed(g, node, Yes);
      LabelledIsLed(g, node, No);
    }
    NextIsLed(g, node, Some(Yes));
    NextIsLed(g, node, Some(No));
    NextIsLed(g, node, None);
    LedIsMeaning(g.edges, lib, node, Leaving(g.edges, node.id), seen, env, now);
  }

  // ---- Journals ----

  /** A step without a mail or tag change. */
  ghost predicate Plainly(g: Graph, lib: Library, e: Entry) {
    && e.effect.Recorded? && FindNode(g.nodes, e.effect.node).Some?
    && Meaning(g.edges, lib, FindNode(g.nodes, e.effect.node).value, e.at, NoAct, e.effect.outcome, e.effect.next,
               e.effect.wake)
  }

  /** A mail or tag change and the step it belongs to, by the same claim at the same time. */
  ghost predicate Together(g: Graph, lib: Library, done: Entry, e: Entry) {
    && (done.effect.Mailed? || done.effect.Tagged?) && e.effect.Recorded?
    && done.gen == e.gen && done.at == e.at && done.effect.node == e.effect.node
    && FindNode(g.nodes, e.effect.node).Some?
    && Meaning(g.edges, lib, FindNode(g.nodes, e.effect.node).value, e.at,
               if done.effect.Mailed? then Mail(done.effect.template) else Tag(done.effect.add, done.effect.tag),
               e.effect.outcome, e.effect.next, e.effect.wake)
  }

  /** The journal consists of failures and explained steps and nothing else: no mail or tag change stands alone. */
  ghost predicate Told(g: Graph, lib: Library, journal: seq<Entry>) {
    || journal == []
    || ((Last(journal).effect.Stumbled? || Plainly(g, lib, Last(journal))) && Told(g, lib, journal[..|journal| - 1]))
    || (|journal| >= 2 && Together(g, lib, journal[|journal| - 2], Last(journal))
        && Told(g, lib, journal[..|journal| - 2]))
  }

  lemma ToldGrows(g: Graph, lib: Library, journal: seq<Entry>, e: Entry)
    requires Told(g, lib, journal) && (e.effect.Stumbled? || Plainly(g, lib, e))
    ensures Told(g, lib, journal + [e])
  {
    assert (journal + [e])[..|journal|] == journal;
  }

  lemma ToldGrowsByTwo(g: Graph, lib: Library, journal: seq<Entry>, done: Entry, e: Entry)
    requires Told(g, lib, journal) && Together(g, lib, done, e)
    ensures Told(g, lib, journal + [done] + [e])
  {
    var longer := journal + [done] + [e];
    assert longer[..|longer| - 2] == journal;
  }

  /** The entries a decision leaves when it goes through. */
  lemma ActedTells(g: Graph, lib: Library, row: Row, claim: Claim, node: Node, act: Act, rec: Record, env: Env,
                   now: int)
    requires Told(g, lib, row.journal) && FindNode(g.nodes, node.id) == Some(node)
    requires Meaning(g.edges, lib, node, now, act, rec.outcome, rec.next, rec.wake)
    requires node.id !in row.mails && !StepDone(row.steps, node.id)
    ensures var r := Acted(row, claim, node, act, rec, env, now); r.Some? ==> Told(g, lib, r.value.journal)
  {
    var e := Entry(claim.gen, now, Recorded(node.id, rec.outcome, rec.next, rec.wake));
    match act
    case NoAct => ToldGrows(g, lib, row.journal, e);
    case Mail(template) => ToldGrowsByTwo(g, lib, row.journal, Entry(claim.gen, now, Mailed(node.id, template)), e);
    case Tag(add, tag) => ToldGrowsByTwo(g, lib, row.journal, Entry(claim.gen, now, Tagged(node.id, add, tag)), e);
  }

  lemma PerformTells(g: Graph, lib: Library, row: Row, claim: Claim, node: Node, d: Decision, maxAttempts: int,
                     env: Env, now: int)
    requires Told(g, lib, row.journal) && FindNode(g.nodes, node.id) == Some(node)
    requires d.Acting? ==> Meaning(g.edges, lib, node, now, d.act, d.rec.outcome, d.rec.next, d.rec.wake)
    requires node.id !in row.mails && !StepDone(row.steps, node.id)
    ensures var v := Perform(row, claim, node, d, maxAttempts, env, now); v.Abort? || Told(g, lib, v.row.journal)
  {
    ToldGrows(g, lib, row.journal, Entry(claim.gen, now, Stumbled(node.id)));
    if d.Acting? {
      ActedTells(g, lib, row, claim, node, d.act, d.rec, env, now);
    }
  }

  // ---- A yes about a mail ----

  /** The node whose mail a condition asks about. */
  function AskedAbout(g: Graph, id: Id): Option<Id> {
    match FindNode(g.nodes, id)
    case None => None
    case Some(node) =>
      if node.kind != Condition then None
      else
        match ReadCondition(node.config)
        case Some(OpenedEmail(send)) => Some(send)
        case Some(ClickedLink(send, _)) => Some(send)
        case _ => None
  }

  /** The condition at a node was answered yes. */
  predicate SaysYes(e: Entry) { e.effect.Recorded? && e.effect.outcome == BranchYes }

  /** Every yes about a mail comes after that mail was queued. */
  ghost predicate Grounded(g: Graph, journal: seq<Entry>) {
    journal == [] ||
    var front, last := journal[..|journal| - 1], Last(journal);
    && Grounded(g, front)
    && (SaysYes(last) && AskedAbout(g, last.effect.node).Some? ==>
          AskedAbout(g, last.effect.node).value in Nodes(Mailings, front))
  }

  lemma GroundedGrows(g: Graph, journal: seq<Entry>, e: Entry)
    requires Grounded(g, journal)
    requires SaysYes(e) && AskedAbout(g, e.effect.node).Some? ==>
               AskedAbout(g, e.effect.node).value in Nodes(Mailings, journal)
    ensures Grounded(g, journal + [e])
  {
    assert (journal + [e])[..|journal|] == journal;
  }

  /** A yes is an answer, an answer is true, and only a mail that was queued is linked to its step. */
  lemma YesIsGrounded(g: Graph, lib: Library, row: Row, node: Node, outs: seq<Edge>, env: Env, now: int)
    requires Linked(row) && GoodMails(row) && FindNode(g.nodes, node.id) == Some(node)
    requires var d := Decide(lib, node, outs, row.steps, env, now); d.Acting? && d.rec.outcome == BranchYes
    ensures AskedAbout(g, node.id).Some? ==> AskedAbout(g, node.id).value in Nodes(Mailings, row.journal)
  {
    if AskedAbout(g, node.id).Some? {
      var p := ReadCondition(node.config).value;
      DecidesTheAnswer(lib, node, outs, row.steps, env, now);
      EvaluatesTruly(p, row.steps, env);
      assert StepMailed(row.steps, p.send);
    }
  }

  lemma ActedGrounds(g: Graph, row: Row, claim: Claim, node: Node, act: Act, rec: Record, env: Env, now: int)
    requires Grounded(g, row.journal) && !StepDone(row.steps, node.id)
    requires rec.outcome == BranchYes && AskedAbout(g, node.id).Some? ==>
               AskedAbout(g, node.id).value in Nodes(Mailings, row.journal)
    ensures var r := Acted(row, claim, node, act, rec, env, now); r.Some? ==> Grounded(g, r.value.journal)
  {
    var e := Entry(claim.gen, now, Recorded(node.id, rec.outcome, rec.next, rec.wake));
    GroundedGrows(g, row.journal, e);
    match act
    case NoAct =>
    case Mail(template) => GroundedGrowsByTwo(g, row.journal, Entry(claim.gen, now, Mailed(node.id, template)), e);
    case Tag(add, tag) => GroundedGrowsByTwo(g, row.journal, Entry(claim.gen, now, Tagged(node.id, add, tag)), e);
  }

  lemma PerformGrounds(g: Graph, row: Row, claim: Claim, node: Node, d: Decision, maxAttempts: int, env: Env, now: int)
    requires Grounded(g, row.journal) && !StepDone(row.steps, node.id)
    requires d.Acting? && d.rec.outcome == BranchYes && AskedAbout(g, node.id).Some? ==>
               AskedAbout(g, node.id).value in Nodes(Mailings, row.journal)
    ensures var v := Perform(row, claim, node, d, maxAttempts, env, now); v.Abort? || Grounded(g, v.row.journal)
  {
    GroundedGrows(g, row.journal, Entry(claim.gen, now, Stumbled(node.id)));
    if d.Acting? {
      ActedGrounds(g, row, claim, node, d.act, d.rec, env, now);
    }
  }

  lemma GroundedGrowsByTwo(g: Graph, journal: seq<Entry>, done: Entry, e: Entry)
    requires Grounded(g, journal) && (done.effect.Mailed? || done.effect.Tagged?)
    requires SaysYes(e) && AskedAbout(g, e.effect.node).Some? ==>
               AskedAbout(g, e.effect.node).value in Nodes(Mailings, journal)
    ensures Grounded(g, journal + [done] + [e])
  {
    JournalKeeps(journal, done);
    GroundedGrows(g, journal, done);
    GroundedGrows(g, journal + [done], e);
  }

  lemma {:induction false} MailedEarlier(journal: seq<Entry>, id: Id) returns (j: nat)
    requires id in Nodes(Mailings, journal)
    ensures j < |journal| && journal[j].effect.Mailed? && journal[j].effect.node == id
  {
    var k := |journal| - 1;
    if journal[k].effect.Mailed? && journal[k].effect.node == id {
      j := k;
    } else {
      j := MailedEarlier(journal[..k], id);
    }
  }

  ghost predicate MailedBefore(journal: seq<Entry>, i: int, id: Id)
    requires 0 <= i <= |journal|
  {
    exists j :: 0 <= j < i && journal[j].effect.Mailed? && journal[j].effect.node == id
  }

  lemma {:induction false} GroundedAt(g: Graph, journal: seq<Entry>, i: int)
    requires Grounded(g, journal) && 0 <= i < |journal|
    requires SaysYes(journal[i]) && AskedAbout(g, journal[i].effect.node).Some?
    ensures MailedBefore(journal, i, AskedAbout(g, journal[i].effect.node).value)
    decreases |journal|
  {
    var front, send := journal[..|journal| - 1], AskedAbout(g, journal[i].effect.node).value;
    if i == |journal| - 1 {
      var j := MailedEarlier(front, send);
      assert journal[j] == front[j];
    } else {
      GroundedAt(g, front, i);
      var j :| 0 <= j < i && front[j].effect.Mailed? && front[j].effect.node == send;
      assert journal[j] == front[j];
    }
  }

  // ---- Waits are waited for ----

  predicate IsWait(g: Graph, id: Id) { FindNode(g.nodes, id).Some? && FindNode(g.nodes, id).value.kind == Wait }

  /** Every park names its instant, and every wait node was parked before it was completed. */
  ghost predicate Waited(g: Graph, journal: seq<Entry>) {
    journal == [] ||
    var front, last := journal[..|journal| - 1], Last(journal);
    && Waited(g, front)
    && (last.effect.Recorded? ==> WaitedBy(g, front, last.effect))
  }

  ghost predicate WaitedBy(g: Graph, front: seq<Entry>, effect: Effect)
    requires effect.Recorded?
  {
    if effect.outcome == Waiting then effect.wake.Some?
    else IsWait(g, effect.node) ==> effect.node in Nodes(Parkings, front)
  }

  lemma WaitedGrows(g: Graph, journal: seq<Entry>, e: Entry)
    requires Waited(g, journal) && (e.effect.Recorded? ==> WaitedBy(g, journal, e.effect))
    ensures Waited(g, journal + [e])
  {
    assert (journal + [e])[..|journal|] == journal;
  }

  lemma WaitedGrowsByTwo(g: Graph, journal: seq<Entry>, done: Entry, e: Entry)
    requires Waited(g, journal) && (done.effect.Mailed? || done.effect.Tagged?)
    requires e.effect.Recorded? && WaitedBy(g, journal, e.effect)
    ensures Waited(g, journal + [done] + [e])
  {
    JournalKeeps(journal, done);
    WaitedGrows(g, journal, done);
    WaitedGrows(g, journal + [done], e);
  }

  /** At a wait node the engine parks first, and goes on only once it has. */
  lemma ParksFirst(g: Graph, lib: Library, row: Row, node: Node, outs: seq<Edge>, env: Env, now: int)
    requires GoodSteps(row) && FindNode(g.nodes, node.id) == Some(node)
    requires Decide(lib, node, outs, row.steps, env, now).Acting?
    ensures var rec := Decide(lib, node, outs, row.steps, env, now).rec;
            WaitedBy(g, row.journal, Recorded(node.id, rec.outcome, rec.next, rec.wake))
  {
  }

  lemma ActedWaits(g: Graph, row: Row, claim: Claim, node: Node, act: Act, rec: Record, env: Env, now: int)
    requires Waited(g, row.journal) && !StepDone(row.steps, node.id)
    requires WaitedBy(g, row.journal, Recorded(node.id, rec.outcome, rec.next, rec.wake))
    ensures var r := Acted(row, claim, node, act, rec, env, now); r.Some? ==> Waited(g, r.value.journal)
  {
    var e := Entry(claim.gen, now, Recorded(node.id, rec.outcome, rec.next, rec.wake));
    WaitedGrows(g, row.journal, e);
    match act
    case NoAct =>
    case Mail(template) => WaitedGrowsByTwo(g, row.journal, Entry(claim.gen, now, Mailed(node.id, template)), e);
    case Tag(add, tag) => WaitedGrowsByTwo(g, row.journal, Entry(claim.gen, now, Tagged(node.id, add, tag)), e);
  }

  lemma PerformWaits(g: Graph, row: Row, claim: Claim, node: Node, d: Decision, maxAttempts: int, env: Env, now: int)
    requires Waited(g, row.journal) && !StepDone(row.steps, node.id)
    requires d.Acting? ==> WaitedBy(g, row.journal, Recorded(node.id, d.rec.outcome, d.rec.next, d.rec.wake))
    ensures var v := Perform(row, claim, node, d, maxAttempts, env, now); v.Abort? || Waited(g, v.row.journal)
  {
    WaitedGrows(g, row.journal, Entry(claim.gen, now, Stumbled(node.id)));
    if d.Acting? {
      ActedWaits(g, row, claim, node, d.act, d.rec, env, now);
    }
  }

  lemma {:induction false} ParkedEarlier(journal: seq<Entry>, id: Id) returns (j: nat)
    requires id in Nodes(Parkings, journal)
    ensures j < |journal| && journal[j].effect.Recorded? && journal[j].effect.node == id
    ensures journal[j].effect.outcome == Waiting && Promised(journal, id) == journal[j].effect.wake
  {
    var k := |journal| - 1;
    if journal[k].effect.Recorded? && journal[k].effect.node == id && journal[k].effect.outcome == Waiting {
      j := k;
    } else {
      j := ParkedEarlier(journal[..k], id);
    }
  }

  /** Some earlier park of the node had run out by now. */
  ghost predicate ParkedBefore(journal: seq<Entry>, i: int, id: Id)
    requires 0 <= i < |journal|
  {
    exists j :: 0 <= j < i && ParkedUntil(journal[j], id, journal[i].at)
  }

  predicate ParkedUntil(e: Entry, id: Id, at: int) {
    && e.effect.Recorded? && e.effect.node == id && e.effect.outcome == Waiting
    && e.effect.wake.Some? && e.effect.wake.value <= at
  }

  lemma {:induction false} ParksAreTimed(g: Graph, journal: seq<Entry>, j: nat)
    requires Waited(g, journal) && j < |journal| && journal[j].effect.Recorded? && journal[j].effect.outcome == Waiting
    ensures journal[j].effect.wake.Some?
    decreases |journal|
  {
    if j < |journal| - 1 {
      ParksAreTimed(g, journal[..|journal| - 1], j);
    }
  }

  lemma {:induction false} WaitedAt(g: Graph, journal: seq<Entry>, i: int)
    requires Waited(g, journal) && OnTime(journal) && 0 <= i < |journal|
    requires journal[i].effect.Recorded? && journal[i].effect.outcome != Waiting && IsWait(g, journal[i].effect.node)
    ensures ParkedBefore(journal, i, journal[i].effect.node)
    decreases |journal|
  {
    var front, id := journal[..|journal| - 1], journal[i].effect.node;
    if i == |journal| - 1 {
      var j := ParkedEarlier(front, id);
      ParksAreTimed(g, front, j);
      assert journal[j] == front[j];
      assert ParkedUntil(journal[j], id, journal[i].at);
    } else {
      WaitedAt(g, front, i);
      var j :| 0 <= j < i && ParkedUntil(front[j], id, front[i].at);
      assert journal[j] == front[j];
    }
  }

  // ---- Failures ----

  /** How often the node has failed in a row, up to now. */
  function Streak(journal: seq<Entry>, id: Id): nat {
    if journal == [] || Last(journal).effect != Stumbled(id) then 0 else Streak(journal[..|journal| - 1], id) + 1
  }

  lemma StreakGrows(journal: seq<Entry>, e: Entry, id: Id)
    ensures Streak(journal + [e], id) == if e.effect == Stumbled(id) then Streak(journal, id) + 1 else 0
  {
    assert (journal + [e])[..|journal|] == journal;
  }

  /**
   * The attempt counter of an enrollment is the number of failures of its current node since anything else
   * happened.
   */
  ghost predicate Counted(row: Row) {
    row.current.Some? ==> row.attempts == Streak(row.journal, row.current.value)
  }

  lemma FailureCounts(row: Row, claim: Claim, at: Id, fault: Fault, maxAttempts: int, env: Env, now: int)
    requires Counted(row) && row.current == Some(at)
    ensures var v := ReportFailure(row, claim, at, fault, maxAttempts, env, now); v.Abort? || Counted(v.row)
  {
    StreakGrows(row.journal, Entry(claim.gen, now, Stumbled(at)), at);
  }

  lemma RecordCounts(row: Row, gen: nat, node: Node, rec: Record, mailed: bool, open: bool, now: int)
    requires row.current == Some(node.id) && !StepDone(row.steps, node.id) && Fence(row, gen, open)
    ensures Counted(RecordStep(row, gen, node, rec, mailed, open, now).value)
  {
    var e := Entry(gen, now, Recorded(node.id, rec.outcome, rec.next, rec.wake));
    StreakGrows(row.journal, e, node.id);
    if rec.next.Some? {
      StreakGrows(row.journal, e, rec.next.value);
    }
  }

  lemma PerformCounts(row: Row, claim: Claim, node: Node, d: Decision, maxAttempts: int, env: Env, now: int)
    requires Counted(row) && row.current == Some(node.id) && !StepDone(row.steps, node.id)
    ensures var v := Perform(row, claim, node, d, maxAttempts, env, now); v.Abort? || Counted(v.row)
  {
    match d
    case Failing(fault) => FailureCounts(row, claim, node.id, fault, maxAttempts, env, now);
    case Acting(act, rec) =>
      if act != NoAct && env.actFault.Some? {
        FailureCounts(row, claim, node.id, env.actFault.value, maxAttempts, env, now);
      } else {
        var acted := Carry(row, claim, node.id, act, env, now);
        if acted.Some? && Fence(acted.value, claim.gen, env.open) {
          RecordCounts(acted.value, claim.gen, node, rec, act.Mail?, env.open, now);
        }
      }
  }

  // ---- All of it ----

  ghost predicate Accounted(g: Graph, lib: Library, row: Row) {
    Told(g, lib, row.journal) && Grounded(g, row.journal) && Waited(g, row.journal) && Counted(row)
  }

  lemma MissingNodeAccounts(g: Graph, lib: Library, row: Row, claim: Claim, at: Id, maxAttempts: int, env: Env,
                            now: int)
    requires Accounted(g, lib, row) && row.current == Some(at)
    ensures var v := ReportFailure(row, claim, at, InvalidReference, maxAttempts, env, now);
            v.Abort? || Accounted(g, lib, v.row)
  {
    var e := Entry(claim.gen, now, Stumbled(at));
    ToldGrows(g, lib, row.journal, e);
    GroundedGrows(g, row.journal, e);
    WaitedGrows(g, row.journal, e);
    FailureCounts(row, claim, at, InvalidReference, maxAttempts, env, now);
  }

  /** Whatever a visit leaves behind is accounted for. */
  lemma VisitAccounts(g: Graph, refs: References, lib: Library, maxAttempts: int, row: Row, claim: Claim, env: Env,
                      now: int)
    requires IsWellFormed(g, refs, lib)
    requires Good(g, row) && row.status == Active && Accounted(g, lib, row)
    ensures var v := Visit(g, lib, maxAttempts, row, claim, row.current.value, row.steps, env, now);
            v.Abort? || Accounted(g, lib, v.row)
  {
    Outside(g, row);
    var at := row.current.value;
    match FindNode(g.nodes, at)
    case None => MissingNodeAccounts(g, lib, row, claim, at, maxAttempts, env, now);
    case Some(node) =>
      var outs := Leaving(g.edges, node.id);
      var d := Decide(lib, node, outs, row.steps, env, now);
      WellFormedIsFit(g, refs, lib, node);
      DecidesMeaningfully(g, lib, node, row.steps, env, now);
      if d.Acting? && d.rec.outcome == BranchYes {
        YesIsGrounded(g, lib, row, node, outs, env, now);
      }
      PerformTells(g, lib, row, claim, node, d, maxAttempts, env, now);
      if d.Acting? {
        ParksFirst(g, lib, row, node, outs, env, now);
      }
      PerformGrounds(g, row, claim, node, d, maxAttempts, env, now);
      PerformWaits(g, row, claim, node, d, maxAttempts, env, now);
      PerformCounts(row, claim, node, d, maxAttempts, env, now);
  }

  // ---- Exits of inactive subscribers ----

  /** The fence and the snapshot read the same subscriber status. */
  predicate Consistent(env: Env) { env.open && env.snapshot.Ok? ==> env.snapshot.value.active }

  /** The engine ended an enrollment at a mail or tag node because the subscriber was not active. */
  ghost predicate Dismisses(g: Graph, e: Entry) {
    && e.effect.Recorded? && e.effect.outcome == Left
    && FindNode(g.nodes, e.effect.node).Some? && FindNode(g.nodes, e.effect.node).value.kind in {SendEmail, AddTag}
  }

  ghost predicate NobodyDismissed(g: Graph, journal: seq<Entry>) {
    forall i :: 0 <= i < |journal| ==> !Dismisses(g, journal[i])
  }

  lemma PerformDismissesNobody(g: Graph, row: Row, claim: Claim, node: Node, d: Decision, maxAttempts: int, env: Env,
                               now: int)
    requires NobodyDismissed(g, row.journal) && FindNode(g.nodes, node.id) == Some(node)
    requires d.Acting? && d.rec.outcome == Left && node.kind in {SendEmail, AddTag} ==> !env.open
    ensures var v := Perform(row, claim, node, d, maxAttempts, env, now); v.Abort? || NobodyDismissed(g, v.row.journal)
  {
  }

  /** The subscriber is inactive in the snapshot of a node that looks, and the fence still lets the record through. */
  predicate LetsGo(g: Graph, at: Id, env: Env) {
    && env.open && !env.databaseDown && env.snapshot.Ok? && !env.snapshot.value.active
    && var node := FindNode(g.nodes, at);
       node.Some? && (node.value.kind == SendEmail || (node.value.kind == AddTag && ReadTag(node.value.config).Some?))
  }

  lemma LetGoIsDismissed(g: Graph, lib: Library, maxAttempts: int, row: Row, claim: Claim, at: Id,
                         seen: map<Id, Step>, env: Env, now: int)
    requires Fence(row, claim.gen, true) && !StepDone(row.steps, at) && LetsGo(g, at, env)
    ensures var v := Visit(g, lib, maxAttempts, row, claim, at, seen, env, now);
            v.Stop? && v.row.status == Exited && !NobodyDismissed(g, v.row.journal)
  {
    var v := Visit(g, lib, maxAttempts, row, claim, at, seen, env, now);
    assert v.row.journal == row.journal + [Entry(claim.gen, now, Recorded(at, Left, None, None))];
    assert Dismisses(g, v.row.journal[|row.journal|]);
  }

  lemma NotLetGoIsKept(g: Graph, lib: Library, maxAttempts: int, row: Row, claim: Claim, at: Id,
                       seen: map<Id, Step>, env: Env, now: int)
    requires NobodyDismissed(g, row.journal) && !LetsGo(g, at, env)
    ensures var v := Visit(g, lib, maxAttempts, row, claim, at, seen, env, now);
            v.Abort? || NobodyDismissed(g, v.row.journal)
  {
    match FindNode(g.nodes, at)
    case None =>
    case Some(node) =>
      var outs := Leaving(g.edges, node.id);
      var d := Decide(lib, node, outs, seen, env, now);
      LeavesOnlyInactive(lib, node, outs, seen, env, now);
      if !env.databaseDown {
        PerformDismissesNobody(g, row, claim, node, d, maxAttempts, env, now);
      }
  }

  /** While the two reads agree, the decision to exit an inactive subscriber is rolled back by the fence. */
  lemma VisitDismissesNobody(g: Graph, lib: Library, maxAttempts: int, row: Row, claim: Claim, at: Id,
                             seen: map<Id, Step>, env: Env, now: int)
    requires NobodyDismissed(g, row.journal) && Consistent(env)
    ensures var v := Visit(g, lib, maxAttempts, row, claim, at, seen, env, now);
            v.Abort? || NobodyDismissed(g, v.row.journal)
  {
    NotLetGoIsKept(g, lib, maxAttempts, row, claim, at, seen, env, now);
  }

  /** Under a standing claim, the exit of an inactive subscriber commits if and only if fence and snapshot disagree. */
  lemma DismissesIff(g: Graph, lib: Library, maxAttempts: int, row: Row, claim: Claim, at: Id,
                     seen: map<Id, Step>, env: Env, now: int)
    requires NobodyDismissed(g, row.journal) && Fence(row, claim.gen, true) && !StepDone(row.steps, at)
    ensures var v := Visit(g, lib, maxAttempts, row, claim, at, seen, env, now);
            !v.Abort? && !NobodyDismissed(g, v.row.journal) <==> LetsGo(g, at, env)
  {
    if LetsGo(g, at, env) {
      LetGoIsDismissed(g, lib, maxAttempts, row, claim, at, seen, env, now);
    } else {
      NotLetGoIsKept(g, lib, maxAttempts, row, claim, at, seen, env, now);
    }
  }
}
