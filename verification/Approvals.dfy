/**
 * Approved actions: the states of an approval item and the executor that handles its event, delivered
 * at least once and possibly several times at the same time (internal/agents/approval.go,
 * internal/agents/approval_executor.go).
 */
module Approvals {
  import opened Prelude

  datatype State = Pending | Approved | Denied | Expired | Executed | Failed

  // ---- The store's transitions ----

  /** Only a pending item that has not reached its expiry is decided. */
  function Decided(s: State, approve: bool, expires: int, now: int): Option<State> {
    if s == Pending && now < expires then Some(if approve then Approved else Denied) else None
  }

  function Swept(s: State, expires: int, now: int): State { if s == Pending && expires <= now then Expired else s }

  /** The claims of the executor: only an approved item is executed or failed. */
  function Claimed(s: State, to: State): Option<State> { if s == Approved then Some(to) else None }

  // ---- Deliveries ----

  /** What a tool call comes back with; a complaint is a completed call that reports an error. */
  datatype Outcome = Answer(complaint: bool) | Fault | NoTool

  /** Where a delivery of the event stands. */
  datatype Phase =
    | Started(final: bool)
    | Cleared(final: bool)
    | Called
    | Won
    | Doomed
    | Written

  /**
   * One approval: its state and when it expires, whether its event was enqueued, the deliveries under
   * way, and what has happened so far: tool calls, replies sent under the approval's key, audit rows, and
   * how often the state left "approved".
   */
  datatype World = World(
    expires: int,
    state: State,
    enqueued: bool,
    deliveries: map<nat, Phase>,
    calls: nat,
    replies: nat,
    keyUsed: bool,
    executedRows: nat,
    failedRows: nat,
    departures: nat)

  datatype Action =
    | Approve(now: int)
    | Deny(now: int)
    | Sweep(now: int)
    | Start(d: nat, final: bool)
    | Look(d: nat)
    | Call(d: nat, outcome: Outcome, reply: bool)
    | Claim(d: nat)
    | GiveUp(d: nat)
    | Audit(d: nat)
    | Drop(d: nat)

  predicate At(w: World, d: nat, phase: Phase) { d in w.deliveries && w.deliveries[d] == phase }

  predicate Enabled(w: World, a: Action) {
    match a
    case Approve(_) => true
    case Deny(_) => true
    case Sweep(_) => true
    case Start(d, _) => w.enqueued && d !in w.deliveries
    case Look(d) => d in w.deliveries && w.deliveries[d].Started?
    case Call(d, _, _) => d in w.deliveries && w.deliveries[d].Cleared?
    case Claim(d) => At(w, d, Called)
    case GiveUp(d) => At(w, d, Doomed)
    case Audit(d) => At(w, d, Won) || At(w, d, Written)
    case Drop(d) => d in w.deliveries
  }

  function Gone(w: World, d: nat): World { w.(deliveries := w.deliveries - {d}) }

  function Moved(w: World, d: nat, phase: Phase): World { w.(deliveries := w.deliveries[d := phase]) }

  /** A reply carries the approval's key and is sent once per key; a faulty call may have got through. */
  function Invoked(w: World, reply: bool): World {
    if reply && !w.keyUsed then w.(calls := w.calls + 1, replies := w.replies + 1, keyUsed := true)
    else w.(calls := w.calls + 1)
  }

  function Left(w: World, to: State): World {
    if Claimed(w.state, to).Some? then w.(state := to, departures := w.departures + 1) else w
  }

  function After(w: World, a: Action): World
    requires Enabled(w, a)
  {
    match a
    case Approve(now) =>
      (match Decided(w.state, true, w.expires, now) case Some(s) => w.(state := s, enqueued := true) case None => w)
    case Deny(now) =>
      (match Decided(w.state, false, w.expires, now) case Some(s) => w.(state := s) case None => w)
    case Sweep(now) => w.(state := Swept(w.state, w.expires, now))
    case Start(d, final) => Moved(w, d, Started(final))
    case Look(d) => if w.state == Approved then Moved(w, d, Cleared(w.deliveries[d].final)) else Gone(w, d)
    case Call(d, outcome, reply) =>
      (match outcome
       case Answer(_) => Moved(Invoked(w, reply), d, Called)
       case Fault => if w.deliveries[d].final then Moved(Invoked(w, reply), d, Doomed) else Gone(Invoked(w, reply), d)
       case NoTool => Moved(w, d, Doomed))
    case Claim(d) => if w.state == Approved then Moved(Left(w, Executed), d, Won) else Gone(w, d)
    case GiveUp(d) => Moved(Left(w, Failed), d, Written)
    case Audit(d) =>
      if w.deliveries[d] == Won then Gone(w.(executedRows := w.executedRows + 1), d)
      else Gone(w.(failedRows := w.failedRows + 1), d)
    case Drop(d) => Gone(w, d)
  }

  // ---- The invariant ----

  predicate WasApproved(s: State) { s in {Approved, Executed, Failed} }

  ghost predicate Inv(w: World) {
    && (w.enqueued <==> WasApproved(w.state))
    && (w.deliveries != map[] ==> w.enqueued)
    && (w.calls > 0 ==> w.enqueued)
    && w.departures == (if w.state in {Executed, Failed} then 1 else 0)
    && w.replies == (if w.keyUsed then 1 else 0)
    && (forall d, e :: At(w, d, Won) && At(w, e, Won) ==> d == e)
    && (forall d :: At(w, d, Won) ==> w.state == Executed && w.executedRows == 0)
    && w.executedRows <= (if w.state == Executed then 1 else 0)
  }

  lemma StepKeeps(w: World, a: Action)
    requires Inv(w) && Enabled(w, a)
    ensures Inv(After(w, a))
  {
    var after := After(w, a);
    forall d | At(after, d, Won)
      ensures At(w, d, Won) || a == Claim(d)
    {
    }
  }

  // ---- Runs ----

  ghost predicate Runs(w: World, acts: seq<Action>, v: World)
    decreases |acts|
  {
    if acts == [] then w == v else Enabled(w, acts[0]) && Runs(After(w, acts[0]), acts[1..], v)
  }

  lemma {:induction false} RunKeeps(w: World, acts: seq<Action>, v: World)
    requires Inv(w) && Runs(w, acts, v)
    ensures Inv(v)
    decreases |acts|
  {
    if acts != [] {
      StepKeeps(w, acts[0]);
      RunKeeps(After(w, acts[0]), acts[1..], v);
    }
  }

  function Fresh(expires: int): World { World(expires, Pending, false, map[], 0, 0, false, 0, 0, 0) }

  /**
   * Whatever is decided, swept and delivered in whatever order: the item leaves "approved" at most
   * once, at most one executed row is written and only for an executed item, a denied, expired or
   * undecided item never has its tool called, and a reply keyed by the approval goes out at most once.
   */
  lemma ApprovalsRunOnce(expires: int, acts: seq<Action>, w: World)
    requires Runs(Fresh(expires), acts, w)
    ensures w.departures <= 1 && w.replies <= 1
    ensures w.executedRows <= 1 && (w.executedRows == 1 ==> w.state == Executed)
    ensures w.state in {Pending, Denied, Expired} ==> w.calls == 0 && w.deliveries == map[] && !w.enqueued
  {
    RunKeeps(Fresh(expires), acts, w);
  }

  // ---- Decisions in time ----

  /** The action decides an item that is still pending: a decision before the expiry, or a sweep after it. */
  predicate Decides(a: Action, expires: int) {
    ((a.Approve? || a.Deny?) && a.now < expires) || (a.Sweep? && expires <= a.now)
  }

  ghost predicate NoDecision(acts: seq<Action>, expires: int) {
    forall i :: 0 <= i < |acts| ==> !Decides(acts[i], expires)
  }

  ghost predicate FirstDecision(acts: seq<Action>, expires: int, i: int) {
    0 <= i < |acts| && Decides(acts[i], expires) && forall j :: 0 <= j < i ==> !Decides(acts[j], expires)
  }

  /** Where an item stands for which this decision came first; an approved one may have been executed since. */
  ghost predicate StandsAs(a: Action, s: State) {
    match a
    case Approve(_) => WasApproved(s)
    case Deny(_) => s == Denied
    case Sweep(_) => s == Expired
    case _ => false
  }

  lemma DecidesAtOnce(w: World, a: Action)
    requires Inv(w) && w.state == Pending && Enabled(w, a)
    ensures After(w, a).expires == w.expires
    ensures if Decides(a, w.expires) then StandsAs(a, After(w, a).state) else After(w, a).state == Pending
  {
  }

  /**
   * Over every run: an item is pending as long as nothing has decided it, and from then on it stands as
   * the first deciding action left it.
   */
  lemma {:induction false} FirstDecisionStands(w: World, acts: seq<Action>, v: World)
    requires Inv(w) && w.state == Pending && Runs(w, acts, v)
    ensures NoDecision(acts, w.expires) ==> v.state == Pending
    ensures forall i :: FirstDecision(acts, w.expires, i) ==> StandsAs(acts[i], v.state)
    decreases |acts|
  {
    if acts != [] {
      var next, rest := After(w, acts[0]), acts[1..];
      assert forall i :: 0 <= i < |rest| ==> rest[i] == acts[i + 1];
      StepKeeps(w, acts[0]);
      DecidesAtOnce(w, acts[0]);
      if Decides(acts[0], w.expires) {
        DecisionsAreFinal(next, rest, v);
      } else {
        FirstDecisionStands(next, rest, v);
        forall i | FirstDecision(acts, w.expires, i)
          ensures StandsAs(acts[i], v.state)
        {
          assert i > 0 && FirstDecision(rest, w.expires, i - 1);
        }
      }
    }
  }

  lemma {:induction false} SomeDecisionIsFirst(acts: seq<Action>, expires: int) returns (i: int)
    requires !NoDecision(acts, expires)
    ensures FirstDecision(acts, expires, i)
    decreases |acts|
  {
    if Decides(acts[0], expires) {
      i := 0;
    } else {
      var rest := acts[1..];
      assert forall k :: 0 <= k < |rest| ==> rest[k] == acts[k + 1];
      var k :| 0 <= k < |acts| && Decides(acts[k], expires);
      assert Decides(rest[k - 1], expires);
      var j := SomeDecisionIsFirst(rest, expires);
      i := j + 1;
    }
  }

  /**
   * The event of an item goes out, and its tool is called, only if someone approved it before its expiry
   * and nobody had denied it by then; an item nobody decided in time is never executed.
   */
  lemma OnlyTimelyApprovalsExecute(expires: int, acts: seq<Action>, w: World) returns (i: int)
    requires Runs(Fresh(expires), acts, w) && (w.enqueued || w.calls > 0)
    ensures FirstDecision(acts, expires, i) && acts[i].Approve? && acts[i].now < expires
  {
    RunKeeps(Fresh(expires), acts, w);
    FirstDecisionStands(Fresh(expires), acts, w);
    i := SomeDecisionIsFirst(acts, expires);
  }

  /** A decision is final, and so is what the executor made of an approval. */
  lemma {:induction false} DecisionsAreFinal(w: World, acts: seq<Action>, v: World)
    requires Runs(w, acts, v)
    ensures w.state in {Denied, Expired, Executed, Failed} ==> v.state == w.state
    ensures w.state == Approved ==> v.state in {Approved, Executed, Failed}
    decreases |acts|
  {
    if acts != [] {
      DecisionsAreFinal(After(w, acts[0]), acts[1..], v);
    }
  }

  // ---- How often the tool is called ----

  lemma RunsBack(w: World, acts: seq<Action>, i: nat, v: World)
    requires i < |acts| && Enabled(w, acts[i]) && Runs(After(w, acts[i]), acts[i + 1..], v)
    ensures Runs(w, acts[i..], v)
  {
    assert acts[i..][0] == acts[i] && acts[i..][1..] == acts[i + 1..];
  }

  ghost predicate AnyCleared(w: World) { exists d :: d in w.deliveries && w.deliveries[d].Cleared? }

  /** A further call is possible: the item is still approved, or a delivery has already looked. */
  ghost predicate MayCall(w: World) { w.state == Approved || AnyCleared(w) }

  lemma SettledStays(w: World, a: Action)
    requires Inv(w) && w.enqueued && !MayCall(w) && Enabled(w, a)
    ensures After(w, a).enqueued && !MayCall(After(w, a)) && After(w, a).calls == w.calls
  {
    var after := After(w, a);
    forall d | d in after.deliveries
      ensures !after.deliveries[d].Cleared?
    {
      assert d in w.deliveries ==> !w.deliveries[d].Cleared?;
    }
  }

  lemma {:induction false} SettledCallsNoMore(w: World, acts: seq<Action>, v: World)
    requires Inv(w) && w.enqueued && !MayCall(w) && Runs(w, acts, v)
    ensures v.calls == w.calls
    decreases |acts|
  {
    if acts != [] {
      StepKeeps(w, acts[0]);
      SettledStays(w, acts[0]);
      SettledCallsNoMore(After(w, acts[0]), acts[1..], v);
    }
  }

  /** A name no delivery has. */
  lemma {:induction false} FreshName(used: set<nat>) returns (d: nat)
    ensures d !in used && forall k :: k in used ==> k < d
    decreases |used|
  {
    if used == {} {
      d := 0;
    } else {
      var k :| k in used;
      var e := FreshName(used - {k});
      d := if k < e then e else k + 1;
      assert forall x :: x in used ==> x == k || x in used - {k};
    }
  }

  /** One more call: by a delivery that has looked, or by a new one. */
  lemma OneMoreCall(w: World) returns (acts: seq<Action>, v: World)
    requires Inv(w) && w.enqueued && MayCall(w)
    ensures |acts| <= 3 && Runs(w, acts, v) && v.calls == w.calls + 1
  {
    if AnyCleared(w) {
      var d :| d in w.deliveries && w.deliveries[d].Cleared?;
      acts := [Call(d, Answer(false), false)];
      v := After(w, acts[0]);
      RunsBack(w, acts, 0, v);
      assert acts[0..] == acts;
    } else {
      var d := FreshName(w.deliveries.Keys);
      acts := [Start(d, false), Look(d), Call(d, Answer(false), false)];
      var w1 := After(w, acts[0]);
      var w2 := After(w1, acts[1]);
      v := After(w2, acts[2]);
      RunsBack(w2, acts, 2, v);
      RunsBack(w1, acts, 1, v);
      RunsBack(w, acts, 0, v);
      assert acts[0..] == acts;
    }
  }

  ghost predicate CallsAgain(w: World, acts: seq<Action>, v: World) { Runs(w, acts, v) && v.calls > w.calls }

  /** Once approved, the tool can be called again if and only if the item is still approved or a delivery has looked. */
  lemma MoreCallsIff(expires: int, first: seq<Action>, w: World)
    requires Runs(Fresh(expires), first, w) && w.enqueued
    ensures MayCall(w) <==> exists acts, v :: CallsAgain(w, acts, v)
  {
    RunKeeps(Fresh(expires), first, w);
    if MayCall(w) {
      var acts, v := OneMoreCall(w);
      assert CallsAgain(w, acts, v);
    } else {
      forall acts, v | Runs(w, acts, v)
        ensures !CallsAgain(w, acts, v)
      {
        SettledCallsNoMore(w, acts, v);
      }
    }
  }

  /**
   * Deliveries take turns: one looks only when no other has looked and not yet called, and every call so far
   * was claimed.
   */
  ghost predicate InTurn(w: World, a: Action) {
    a.Look? && w.state == Approved ==> w.calls == 0 && !AnyCleared(w)
  }

  ghost predicate RunsInTurn(w: World, acts: seq<Action>, v: World)
    decreases |acts|
  {
    if acts == [] then w == v
    else Enabled(w, acts[0]) && InTurn(w, acts[0]) && RunsInTurn(After(w, acts[0]), acts[1..], v)
  }

  ghost predicate CalledOnce(w: World) {
    && w.calls <= 1
    && (forall d :: d in w.deliveries && w.deliveries[d].Cleared? ==> w.calls == 0)
    && (forall d, e ::
          d in w.deliveries && e in w.deliveries && w.deliveries[d].Cleared? && w.deliveries[e].Cleared? ==> d == e)
  }

  lemma StepCallsOnce(w: World, a: Action)
    requires CalledOnce(w) && Enabled(w, a) && InTurn(w, a)
    ensures CalledOnce(After(w, a))
  {
    var after := After(w, a);
    forall d | d in after.deliveries && after.deliveries[d].Cleared?
      ensures a == Look(d) || (d in w.deliveries && w.deliveries[d].Cleared?)
    {
    }
  }

  lemma {:induction false} TurnsCallOnce(w: World, acts: seq<Action>, v: World)
    requires CalledOnce(w) && RunsInTurn(w, acts, v)
    ensures CalledOnce(v)
    decreases |acts|
  {
    if acts != [] {
      StepCallsOnce(w, acts[0]);
      TurnsCallOnce(After(w, acts[0]), acts[1..], v);
    }
  }

  /** When deliveries take turns, the tool is called at most once, in every run. */
  lemma ToolsRunOnceInTurn(expires: int, acts: seq<Action>, w: World)
    requires RunsInTurn(Fresh(expires), acts, w)
    ensures w.calls <= 1
  {
    TurnsCallOnce(Fresh(expires), acts, w);
  }

  /** And only then: a delivery that looks out of turn can always be followed by a second call. */
  lemma OutOfTurnCallsTwice(w: World, d: nat) returns (acts: seq<Action>, v: World)
    requires Inv(w) && Enabled(w, Look(d)) && !InTurn(w, Look(d))
    ensures Runs(w, acts, v) && v.calls >= 2
  {
    var w1 := After(w, Look(d));
    if w.calls > 0 {
      acts := [Look(d), Call(d, Answer(false), false)];
      v := After(w1, acts[1]);
      RunsBack(w1, acts, 1, v);
      RunsBack(w, acts, 0, v);
      assert acts[0..] == acts;
    } else {
      var e :| e in w.deliveries && w.deliveries[e].Cleared?;
      acts := [Look(d), Call(d, Answer(false), false), Call(e, Answer(false), false)];
      var w2 := After(w1, acts[1]);
      v := After(w2, acts[2]);
      RunsBack(w2, acts, 2, v);
      RunsBack(w1, acts, 1, v);
      RunsBack(w, acts, 0, v);
      assert acts[0..] == acts;
    }
  }

  /** A delivery starts only when no other is under way. */
  ghost predicate RunsAlone(w: World, acts: seq<Action>, v: World)
    decreases |acts|
  {
    if acts == [] then w == v
    else Enabled(w, acts[0]) && (acts[0].Start? ==> w.deliveries == map[]) && RunsAlone(After(w, acts[0]), acts[1..], v)
  }

  lemma AloneBack(w: World, acts: seq<Action>, i: nat, v: World)
    requires i < |acts| && Enabled(w, acts[i]) && (acts[i].Start? ==> w.deliveries == map[])
    requires RunsAlone(After(w, acts[i]), acts[i + 1..], v)
    ensures RunsAlone(w, acts[i..], v)
  {
    assert acts[i..][0] == acts[i] && acts[i..][1..] == acts[i + 1..];
  }

  lemma {:induction false} AloneJoin(u: World, first: seq<Action>, v: World, second: seq<Action>, w: World)
    requires RunsAlone(u, first, v) && RunsAlone(v, second, w)
    ensures RunsAlone(u, first + second, w)
    decreases |first|
  {
    if first == [] {
      assert first + second == second;
    } else {
      AloneJoin(After(u, first[0]), first[1..], v, second, w);
      assert (first + second)[1..] == first[1..] + second;
    }
  }

  /** A delivery that looked, called and then went away without its claim. */
  lemma AbandonedDelivery(w: World, d: nat) returns (v: World)
    requires w.state == Approved && w.enqueued && w.deliveries == map[]
    ensures RunsAlone(w, [Start(d, false), Look(d), Call(d, Answer(false), true), Drop(d)], v)
    ensures v == Invoked(w, true)
  {
    var acts := [Start(d, false), Look(d), Call(d, Answer(false), true), Drop(d)];
    var w1 := After(w, acts[0]);
    var w2 := After(w1, acts[1]);
    var w3 := After(w2, acts[2]);
    v := After(w3, acts[3]);
    assert v.deliveries == map[];
    AloneBack(w3, acts, 3, v);
    AloneBack(w2, acts, 2, v);
    AloneBack(w1, acts, 1, v);
    AloneBack(w, acts, 0, v);
    assert acts[0..] == acts;
  }

  /**
   * What the claim does not give: one delivery after the other, never two at a time, the tool is called
   * twice when the first goes away before its claim. Only the key protects the reply.
   */
  lemma ToolsMayRunTwice(expires: int) returns (acts: seq<Action>, w: World)
    ensures RunsAlone(Fresh(expires), acts, w) && w.calls == 2 && w.replies == 1
  {
    var approve := [Approve(expires - 1)];
    var approved := After(Fresh(expires), approve[0]);
    AloneBack(Fresh(expires), approve, 0, approved);
    assert approve[0..] == approve;
    var once := AbandonedDelivery(approved, 0);
    w := AbandonedDelivery(once, 1);
    var first := [Start(0, false), Look(0), Call(0, Answer(false), true), Drop(0)];
    var second := [Start(1, false), Look(1), Call(1, Answer(false), true), Drop(1)];
    AloneJoin(Fresh(expires), approve, approved, first, once);
    AloneJoin(Fresh(expires), approve + first, once, second, w);
    acts := approve + first + second;
  }

  /**
   * A delivery whose claim comes too late leaves no executed row; one that gives up leaves a failed row in
   * any case.
   */
  lemma LateDeliveries(w: World, d: nat)
    ensures At(w, d, Called) && w.state != Approved ==> After(w, Claim(d)) == w.(deliveries := w.deliveries - {d})
    ensures At(w, d, Doomed) ==>
              && At(After(w, GiveUp(d)), d, Written)
              && var v := After(After(w, GiveUp(d)), Audit(d));
                 && v.failedRows == w.failedRows + 1 && v.executedRows == w.executedRows && v.calls == w.calls
                 && v.deliveries == w.deliveries - {d}
                 && v.state == if w.state == Approved then Failed else w.state
  {
  }

  // ---- As it runs ----

  /** What one delivery that nothing interrupts makes of an item: its state, calls and audit rows. */
  ghost predicate HandledAs(before: State, outcome: Outcome, final: bool, after: State, calls: int, executed: int,
                            failed: int)
  {
    if before != Approved then after == before && calls == executed == failed == 0
    else
      && calls == (if outcome == NoTool then 0 else 1)
      && after == (if outcome.Answer? then Executed else if outcome == Fault && !final then Approved else Failed)
      && executed == (if after == Executed then 1 else 0)
      && failed == (if after == Failed then 1 else 0)
  }

  /** The actions of such a delivery. */
  function Steps(approved: bool, d: nat, outcome: Outcome, final: bool): seq<Action> {
    [Start(d, final), Look(d)] +
    (if !approved then []
     else if outcome.Answer? then [Call(d, outcome, false), Claim(d), Audit(d)]
     else if outcome == Fault && !final then [Call(d, outcome, false)]
     else [Call(d, outcome, false), GiveUp(d), Audit(d)])
  }

  /** The delivery has seen the approval and is about to call. */
  lemma {:induction false} LookingIsARun(w: World, d: nat, final: bool, rest: seq<Action>, v: World)
    requires w.enqueued && w.state == Approved && d !in w.deliveries
    requires Runs(Moved(w, d, Cleared(final)), rest, v)
    ensures Runs(w, [Start(d, final), Look(d)] + rest, v)
  {
    var acts := [Start(d, final), Look(d)] + rest;
    var w1 := After(w, acts[0]);
    assert After(w1, acts[1]) == Moved(w, d, Cleared(final));
    assert acts[2..] == rest && acts[0..] == acts;
    RunsBack(w1, acts, 1, v);
    RunsBack(w, acts, 0, v);
  }

  lemma AnsweringIsARun(w: World, d: nat, outcome: Outcome) returns (v: World)
    requires w.state == Approved && d in w.deliveries && w.deliveries[d].Cleared? && outcome.Answer?
    ensures Runs(w, [Call(d, outcome, false), Claim(d), Audit(d)], v)
    ensures v == Gone(w, d).(state := Executed, calls := w.calls + 1,
                             executedRows := w.executedRows + 1, departures := w.departures + 1)
  {
    var acts := [Call(d, outcome, false), Claim(d), Audit(d)];
    var w1 := After(w, acts[0]);
    var w2 := After(w1, acts[1]);
    v := After(w2, acts[2]);
    assert v.deliveries == w.deliveries - {d};
    RunsBack(w2, acts, 2, v);
    RunsBack(w1, acts, 1, v);
    RunsBack(w, acts, 0, v);
    assert acts[0..] == acts;
  }

  lemma GivingUpIsARun(w: World, d: nat, outcome: Outcome) returns (v: World)
    requires w.state == Approved && d in w.deliveries && w.deliveries[d].Cleared?
    requires outcome == NoTool || (outcome == Fault && w.deliveries[d].final)
    ensures Runs(w, [Call(d, outcome, false), GiveUp(d), Audit(d)], v)
    ensures v == Gone(w, d).(state := Failed, calls := w.calls + (if outcome == NoTool then 0 else 1),
                             failedRows := w.failedRows + 1, departures := w.departures + 1)
  {
    var acts := [Call(d, outcome, false), GiveUp(d), Audit(d)];
    var w1 := After(w, acts[0]);
    var w2 := After(w1, acts[1]);
    v := After(w2, acts[2]);
    assert v.deliveries == w.deliveries - {d};
    RunsBack(w2, acts, 2, v);
    RunsBack(w1, acts, 1, v);
    RunsBack(w, acts, 0, v);
    assert acts[0..] == acts;
  }

  lemma ShortIsARun(w: World, acts: seq<Action>, v: World)
    requires |acts| == 1 && Enabled(w, acts[0]) && v == After(w, acts[0])
    ensures Runs(w, acts, v)
  {
  }

  /** An uninterrupted delivery is a run of the actions above, and leaves what Handle leaves. */
  lemma HandlingIsARun(w: World, d: nat, outcome: Outcome, final: bool) returns (v: World)
    requires w.enqueued && d !in w.deliveries
    ensures Runs(w, Steps(w.state == Approved, d, outcome, final), v) && v.deliveries == w.deliveries
    ensures HandledAs(w.state, outcome, final, v.state, v.calls - w.calls, v.executedRows - w.executedRows,
                      v.failedRows - w.failedRows)
  {
    var cleared := Moved(w, d, Cleared(final));
    assert cleared.deliveries - {d} == w.deliveries;
    if w.state != Approved {
      var acts := [Start(d, final), Look(d)];
      var w1 := After(w, acts[0]);
      v := After(w1, acts[1]);
      RunsBack(w1, acts, 1, v);
      RunsBack(w, acts, 0, v);
      assert acts[0..] == acts;
    } else if outcome.Answer? {
      v := AnsweringIsARun(cleared, d, outcome);
      LookingIsARun(w, d, final, [Call(d, outcome, false), Claim(d), Audit(d)], v);
    } else if outcome == Fault && !final {
      v := After(cleared, Call(d, outcome, false));
      ShortIsARun(cleared, [Call(d, outcome, false)], v);
      LookingIsARun(w, d, final, [Call(d, outcome, false)], v);
    } else {
      v := GivingUpIsARun(cleared, d, outcome);
      LookingIsARun(w, d, final, [Call(d, outcome, false), GiveUp(d), Audit(d)], v);
    }
  }

  /** The item row, and the tool, reply and audit effects of the deliveries that touch it. */
  class Item {
    const expires: int
    var state: State
    var calls: nat
    var executedRows: nat
    var failedRows: nat
    var enqueued: bool

    constructor (expires: int)
      ensures this.expires == expires && state == Pending && !enqueued && calls == executedRows == failedRows == 0
    {
      this.expires := expires;
      state, enqueued := Pending, false;
      calls, executedRows, failedRows := 0, 0, 0;
    }

    /** Decision and event in one transaction: an approval is never committed without its event. */
    method Approve(now: int) returns (ok: bool)
      modifies this`state, this`enqueued
      ensures ok <==> old(state) == Pending && now < expires
      ensures ok ==> state == Approved && enqueued
      ensures !ok ==> state == old(state) && enqueued == old(enqueued)
      ensures Decided(old(state), true, expires, now) == if ok then Some(state) else None
    {
      ok := state == Pending && now < expires;
      if ok { state, enqueued := Approved, true; }
    }

    method Deny(now: int) returns (ok: bool)
      modifies this`state
      ensures ok <==> old(state) == Pending && now < expires
      ensures state == if ok then Denied else old(state)
      ensures Decided(old(state), false, expires, now) == if ok then Some(state) else None
    {
      ok := state == Pending && now < expires;
      if ok { state := Denied; }
    }

    /** expire_stale_approvals, as this item sees it. */
    method Sweep(now: int)
      modifies this`state
      ensures state == if old(state) == Pending && now >= expires then Expired else old(state)
      ensures state == Swept(old(state), expires, now)
    {
      if state == Pending && now >= expires { state := Expired; }
    }

    method Mark(to: State) returns (ok: bool)
      modifies this`state
      ensures ok <==> old(state) == Approved
      ensures state == if ok then to else old(state)
    {
      ok := state == Approved;
      if ok { state := to; }
    }

    /** markTerminalFailure: the row is written whether or not the claim succeeded. */
    method GiveUp()
      modifies this`state, this`failedRows
      ensures state == (if old(state) == Approved then Failed else old(state)) && failedRows == old(failedRows) + 1
    {
      var _ := Mark(Failed);
      failedRows := failedRows + 1;
    }

    /** One delivery that nothing interrupts; `retry` asks for another one. */
    method Handle(outcome: Outcome, final: bool) returns (retry: bool)
      modifies this`state, this`calls, this`executedRows, this`failedRows
      ensures HandledAs(old(state), outcome, final, state, calls - old(calls), executedRows - old(executedRows),
                        failedRows - old(failedRows))
      ensures retry <==> old(state) == Approved && outcome == Fault && !final
    {
      if state != Approved { return false; }
      if outcome == NoTool {
        GiveUp();
        return false;
      }
      calls := calls + 1;
      if outcome == Fault {
        if final {
          GiveUp();
          return false;
        }
        return true;
      }
      var ok := Mark(Executed);
      if ok { executedRows := executedRows + 1; }
      return false;
    }
  }
}
