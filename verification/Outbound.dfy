/**
 * The queue of outbound connector operations: claims with a lease, dispatch outside any transaction,
 * write-back, and failure records that do not check who is recording (internal/connectors/outbound.go).
 */
module Outbound {
  import opened Prelude

  const MAX_ATTEMPTS: nat := 5
  const DEFAULT_BATCH: nat := 20

  datatype Status = Pending | InProgress | Done | Failed | Dismissed

  datatype Op = Op(status: Status, attempts: nat, updatedAt: int)

  /** Pending, or in progress for longer than the lease. */
  predicate Claimable(op: Op, now: int, lease: int) {
    op.status == Pending || (op.status == InProgress && op.updatedAt < now - lease)
  }

  function Taken(op: Op, now: int): Op { Op(InProgress, op.attempts + 1, now) }

  /** fail_outbound_op: back to pending, or failed for good. */
  function FailedOp(op: Op, terminal: bool, now: int): Op {
    op.(status := if terminal then Failed else Pending, updatedAt := now)
  }

  /** The completion functions: done, whatever the status was. */
  function CompletedOp(op: Op, now: int): Op { op.(status := Done, updatedAt := now) }

  // ---- One operation under several dispatchers ----

  datatype Phase = Starting | Posting | Answered | Erred(terminal: bool)

  /**
   * What a dispatcher carries: the attempt number it claimed with, when the batch was claimed, when it
   * turned to this operation, and how far it is.
   */
  datatype Job = Job(attempt: nat, since: int, begun: Option<int>, phase: Phase)

  /**
   * The row, whether its write-back has committed, the dispatchers at work, the database clock, and
   * what has happened: posts, posts after the write-back, and claims whose end was never recorded,
   * since the last reset.
   */
  datatype World = World(
    op: Op,
    written: bool,
    jobs: map<nat, Job>,
    now: int,
    posts: nat,
    late: nat,
    strands: nat)

  datatype Action =
    | Clock(to: int)
    | Claim(d: nat)
    | Begin(d: nat, seen: bool)
    | Stumble(d: nat, terminal: bool)
    | Post(d: nat, ok: bool)
    | WriteBack(d: nat, ok: bool)
    | Record(d: nat)
    | Strand(d: nat)
    | Retry
    | Dismiss

  predicate In(w: World, d: nat, phase: Phase) { d in w.jobs && w.jobs[d].phase == phase }

  predicate Enabled(w: World, a: Action, lease: int) {
    match a
    case Clock(to) => w.now <= to
    case Claim(d) => d !in w.jobs && Claimable(w.op, w.now, lease)
    case Begin(d, seen) => In(w, d, Starting) && (seen ==> w.written)
    case Stumble(d, _) => In(w, d, Starting) || In(w, d, Posting)
    case Post(d, _) => In(w, d, Posting)
    case WriteBack(d, _) => In(w, d, Answered)
    case Record(d) => d in w.jobs && w.jobs[d].phase.Erred?
    case Strand(d) => d in w.jobs
    case Retry => w.op.status == Failed
    case Dismiss => w.op.status == Failed
  }

  function Moved(w: World, d: nat, phase: Phase): World
    requires d in w.jobs
  {
    w.(jobs := w.jobs[d := w.jobs[d].(phase := phase)])
  }

  function Ended(w: World, d: nat): World { w.(jobs := w.jobs - {d}) }

  /** The attempt that reaches the cap is the last. */
  function Capped(w: World, d: nat): Phase
    requires d in w.jobs
  {
    Erred(w.jobs[d].attempt >= MAX_ATTEMPTS)
  }

  function After(w: World, a: Action, lease: int): World
    requires Enabled(w, a, lease)
  {
    match a
    case Clock(to) => w.(now := to)
    case Claim(d) =>
      var op := Taken(w.op, w.now);
      w.(op := op, jobs := w.jobs[d := Job(op.attempts, w.now, None, Starting)])
    case Begin(d, seen) =>
      var job := w.jobs[d];
      w.(jobs := w.jobs[d := job.(begun := Some(w.now), phase := if seen then Answered else Posting)])
    case Stumble(d, terminal) => Moved(w, d, if terminal then Erred(true) else Capped(w, d))
    case Post(d, ok) =>
      var posted := w.(posts := w.posts + 1, late := w.late + if w.written then 1 else 0);
      Moved(posted, d, if ok then Answered else Capped(w, d))
    case WriteBack(d, ok) =>
      if ok then Ended(w.(op := CompletedOp(w.op, w.now), written := true), d) else Moved(w, d, Capped(w, d))
    case Record(d) => Ended(w.(op := FailedOp(w.op, w.jobs[d].phase.terminal, w.now)), d)
    case Strand(d) => Ended(w.(strands := w.strands + 1), d)
    case Retry => w.(op := Op(Pending, 0, w.now), strands := 0)
    case Dismiss => w.(op := w.op.(status := Dismissed, updatedAt := w.now))
  }

  // ---- What the lease buys ----

  /** Every job in flight was claimed no longer ago than the lease: the whole batch fits into it. */
  ghost predicate Prompt(w: World, lease: int) {
    forall d :: d in w.jobs ==> w.now <= w.jobs[d].since + lease
  }

  /** Every operation turned to was turned to no longer ago than `span`. */
  ghost predicate Quick(w: World, span: int) {
    forall d :: d in w.jobs && w.jobs[d].begun.Some? ==> w.now <= w.jobs[d].begun.value + span
  }

  ghost predicate Inv(w: World) {
    && (forall d, e :: d in w.jobs && e in w.jobs ==> d == e)
    && (forall d :: d in w.jobs ==>
          && w.op.status == InProgress && w.op.updatedAt == w.jobs[d].since
          && w.op.attempts == w.jobs[d].attempt && !w.written
          && (w.jobs[d].phase.Erred? && w.op.attempts >= MAX_ATTEMPTS ==> w.jobs[d].phase.terminal))
    && (w.op.status == Pending ==> w.op.attempts < MAX_ATTEMPTS)
    && w.op.attempts <= MAX_ATTEMPTS + w.strands
    && (w.op.status == InProgress && w.jobs == map[] ==> w.op.attempts < MAX_ATTEMPTS + w.strands && w.strands > 0)
    && (w.written ==> w.op.status == Done)
    && w.late == 0
  }

  lemma StepKeeps(w: World, a: Action, lease: int)
    requires Inv(w) && Enabled(w, a, lease) && Prompt(w, lease)
    ensures Inv(After(w, a, lease))
  {
    var after := After(w, a, lease);
    match a
    case Claim(d) =>
      assert forall e :: e in w.jobs ==> w.op.status == InProgress && w.now <= w.op.updatedAt + lease;
      assert forall e :: e !in w.jobs;
    case Stumble(d, _) => assert d in w.jobs && d in after.jobs;
    case Post(d, _) => assert d in w.jobs && d in after.jobs;
    case WriteBack(d, ok) => assert d in w.jobs && (ok ==> after.jobs == map[]);
    case Record(d) => assert d in w.jobs && after.jobs == map[];
    case Strand(d) => assert d in w.jobs && after.jobs == map[];
    case _ =>
  }

  // ---- Runs ----

  ghost predicate Runs(w: World, acts: seq<Action>, v: World, lease: int)
    decreases |acts|
  {
    if acts == [] then w == v
    else Enabled(w, acts[0], lease) && Runs(After(w, acts[0], lease), acts[1..], v, lease)
  }

  /** A run in which every dispatcher is done with its batch before the lease runs out. */
  ghost predicate PromptRun(w: World, acts: seq<Action>, v: World, lease: int)
    decreases |acts|
  {
    && Prompt(w, lease)
    && if acts == [] then w == v
       else Enabled(w, acts[0], lease) && PromptRun(After(w, acts[0], lease), acts[1..], v, lease)
  }

  /** A run in which every single operation is done within `span` of being turned to. */
  ghost predicate QuickRun(w: World, acts: seq<Action>, v: World, lease: int, span: int)
    decreases |acts|
  {
    && Quick(w, span)
    && if acts == [] then w == v
       else Enabled(w, acts[0], lease) && QuickRun(After(w, acts[0], lease), acts[1..], v, lease, span)
  }

  lemma {:induction false} RunKeeps(w: World, acts: seq<Action>, v: World, lease: int)
    requires Inv(w) && PromptRun(w, acts, v, lease)
    ensures Inv(v)
    decreases |acts|
  {
    if acts != [] {
      StepKeeps(w, acts[0], lease);
      RunKeeps(After(w, acts[0], lease), acts[1..], v, lease);
    }
  }

  function Queued(now: int): World { World(Op(Pending, 0, now), false, map[], now, 0, 0, 0) }

  /**
   * If every batch is finished within the lease: one dispatcher at most has the operation in flight;
   * between resets it is dispatched at most five times, plus once for every claim whose end was never
   * recorded; without such claims it rests pending, done, failed or dismissed; and once its write-back
   * has committed it is done for good and never posted again.
   */
  lemma PromptDispatchIsSafe(now: int, acts: seq<Action>, w: World, lease: int)
    requires PromptRun(Queued(now), acts, w, lease)
    ensures forall d, e :: d in w.jobs && e in w.jobs ==> d == e
    ensures w.op.attempts <= MAX_ATTEMPTS + w.strands
    ensures w.strands == 0 && w.jobs == map[] ==> w.op.status != InProgress
    ensures w.op.status == Pending ==> w.op.attempts < MAX_ATTEMPTS
    ensures w.written ==> w.op.status == Done && w.jobs == map[]
    ensures w.late == 0
  {
    RunKeeps(Queued(now), acts, w, lease);
    if w.written {
      assert forall d :: d !in w.jobs;
    }
  }

  /** After the write-back nothing but the clock moves. */
  lemma {:induction false} WrittenIsFinal(w: World, acts: seq<Action>, v: World, lease: int)
    requires Inv(w) && w.written && w.jobs == map[] && Runs(w, acts, v, lease)
    ensures v.op == w.op && v.posts == w.posts && v.jobs == map[]
    decreases |acts|
  {
    if acts != [] {
      WrittenIsFinal(After(w, acts[0], lease), acts[1..], v, lease);
    }
  }

  /**
   * Exactly when: while an operation is in flight, another dispatcher can claim it if and only if its
   * batch has outlived the lease, and then two have it in flight.
   */
  lemma ReclaimedIffOverdue(w: World, d: nat, lease: int)
    requires Inv(w) && w.jobs != map[] && d !in w.jobs
    ensures Enabled(w, Claim(d), lease) <==> !Prompt(w, lease)
    ensures Enabled(w, Claim(d), lease) ==>
              exists e :: e != d && e in After(w, Claim(d), lease).jobs && d in After(w, Claim(d), lease).jobs
  {
    var e :| e in w.jobs;
    assert forall k :: k in w.jobs ==> k == e;
    if Enabled(w, Claim(d), lease) {
      var after := After(w, Claim(d), lease).jobs;
      assert e != d && e in after && d in after;
    }
  }

  // ---- A lease for one operation is not enough ----

  lemma {:induction false} QuickRunsJoin(u: World, first: seq<Action>, v: World, second: seq<Action>, w: World,
                                         lease: int, span: int)
    requires QuickRun(u, first, v, lease, span) && QuickRun(v, second, w, lease, span)
    ensures QuickRun(u, first + second, w, lease, span)
    decreases |first|
  {
    if first == [] {
      assert first + second == second;
    } else {
      QuickRunsJoin(After(u, first[0], lease), first[1..], v, second, w, lease, span);
      assert (first + second)[1..] == first[1..] + second;
    }
  }

  lemma QuickBack(w: World, acts: seq<Action>, i: nat, v: World, lease: int, span: int)
    requires i < |acts| && Quick(w, span) && Enabled(w, acts[i], lease)
    requires QuickRun(After(w, acts[i], lease), acts[i + 1..], v, lease, span)
    ensures QuickRun(w, acts[i..], v, lease, span)
  {
    assert acts[i..][0] == acts[i] && acts[i..][1..] == acts[i + 1..];
  }

  /** Two dispatchers that have just turned to the same operation. */
  function Crossed(lease: nat): World {
    var t := lease + 1;
    World(Op(InProgress, 2, t), false, map[0 := Job(1, 0, Some(t), Posting), 1 := Job(2, t, Some(t), Posting)],
          t, 0, 0, 0)
  }

  /** Two dispatchers that hold the same operation and have not turned to it. */
  function Reclaimed(lease: nat): World {
    var t := lease + 1;
    World(Op(InProgress, 2, t), false, map[0 := Job(1, 0, None, Starting), 1 := Job(2, t, None, Starting)], t, 0, 0, 0)
  }

  lemma SlowBatchesReclaim(lease: nat)
    ensures QuickRun(Queued(0), [Claim(0), Clock(lease + 1), Claim(1)], Reclaimed(lease), lease, 0)
  {
    var acts := [Claim(0), Clock(lease + 1), Claim(1)];
    var w1 := After(Queued(0), acts[0], lease);
    var w2 := After(w1, acts[1], lease);
    assert After(w2, acts[2], lease) == Reclaimed(lease);
    QuickBack(w2, acts, 2, Reclaimed(lease), lease, 0);
    QuickBack(w1, acts, 1, Reclaimed(lease), lease, 0);
    QuickBack(Queued(0), acts, 0, Reclaimed(lease), lease, 0);
    assert acts[0..] == acts;
  }

  lemma SlowBatchesCross(lease: nat)
    ensures QuickRun(Reclaimed(lease), [Begin(0, false), Begin(1, false)], Crossed(lease), lease, 0)
  {
    var acts := [Begin(0, false), Begin(1, false)];
    var w1 := After(Reclaimed(lease), acts[0], lease);
    assert After(w1, acts[1], lease) == Crossed(lease);
    QuickBack(w1, acts, 1, Crossed(lease), lease, 0);
    QuickBack(Reclaimed(lease), acts, 0, Crossed(lease), lease, 0);
    assert acts[0..] == acts;
  }

  lemma SlowBatchesEnd(lease: nat) returns (w: World)
    ensures QuickRun(Crossed(lease), [Post(0, true), WriteBack(0, true), Post(1, true)], w, lease, 0)
    ensures w.posts == 2 && w.late == 1
  {
    var acts := [Post(0, true), WriteBack(0, true), Post(1, true)];
    var w1 := After(Crossed(lease), acts[0], lease);
    var w2 := After(w1, acts[1], lease);
    w := After(w2, acts[2], lease);
    QuickBack(w2, acts, 2, w, lease, 0);
    QuickBack(w1, acts, 1, w, lease, 0);
    QuickBack(Crossed(lease), acts, 0, w, lease, 0);
    assert acts[0..] == acts;
  }

  /**
   * However quick the operations are, even if each is done the moment it is turned to: for every lease
   * there is a run whose batch outlives the lease, in which an operation at the end of the batch is
   * claimed again before its dispatcher gets to it, and is posted a second time after the write-back.
   */
  lemma SlowBatchesPostTwice(lease: nat) returns (acts: seq<Action>, w: World)
    ensures QuickRun(Queued(0), acts, w, lease, 0) && !PromptRun(Queued(0), acts, w, lease)
    ensures w.posts == 2 && w.late == 1
  {
    var claims, begins := [Claim(0), Clock(lease + 1), Claim(1)], [Begin(0, false), Begin(1, false)];
    SlowBatchesReclaim(lease);
    SlowBatchesCross(lease);
    w := SlowBatchesEnd(lease);
    QuickRunsJoin(Queued(0), claims, Reclaimed(lease), begins, Crossed(lease), lease, 0);
    var posts := [Post(0, true), WriteBack(0, true), Post(1, true)];
    QuickRunsJoin(Queued(0), claims + begins, Crossed(lease), posts, w, lease, 0);
    acts := claims + begins + posts;
    if PromptRun(Queued(0), acts, w, lease) {
      PromptDispatchIsSafe(0, acts, w, lease);
    }
  }

  // ---- As it runs ----

  /** How dispatching one operation ends: written back, or with an error that was or was not recorded. */
  datatype Ending = Completed | Error(hopeless: bool, recorded: bool)

  /** What one pass makes of a claimed operation. */
  function Dispatched(op: Op, now: int, ending: Ending): Op {
    var taken := Taken(op, now);
    match ending
    case Completed => CompletedOp(taken, now)
    case Error(hopeless, recorded) =>
      if recorded then FailedOp(taken, hopeless || taken.attempts >= MAX_ATTEMPTS, now) else taken
  }

  /** The same, column by column: every pass counts, and a recorded error ends the operation only when it must. */
  predicate PassLeaves(before: Op, now: int, ending: Ending, after: Op) {
    && after.attempts == before.attempts + 1 && after.updatedAt == now
    && after.status == match ending
                       case Completed => Done
                       case Error(hopeless, recorded) =>
                         if !recorded then InProgress
                         else if hopeless || before.attempts + 1 >= 5 then Failed else Pending
  }

  lemma DispatchedLeaves(op: Op, now: int, ending: Ending)
    ensures PassLeaves(op, now, ending, Dispatched(op, now, ending))
  {
  }

  /** The operation after passes at the given times that each ended in a recorded error with hope. */
  function Tried(op: Op, times: seq<int>): Op {
    if times == [] then op else Dispatched(Tried(op, times[..|times| - 1]), Last(times), Error(false, true))
  }

  /**
   * An operation that keeps failing is offered again after each of its first four passes, and fails for good
   * with the fifth.
   */
  lemma {:induction false} FivePasses(now: int, times: seq<int>, later: int, lease: int)
    requires |times| <= 5
    ensures var op := Tried(Op(Pending, 0, now), times);
            && op.attempts == |times|
            && op.status == (if |times| < 5 then Pending else Failed)
            && (Claimable(op, later, lease) <==> |times| < 5)
  {
    if times != [] {
      FivePasses(now, times[..|times| - 1], later, lease);
      DispatchedLeaves(Tried(Op(Pending, 0, now), times[..|times| - 1]), Last(times), Error(false, true));
    }
  }

  lemma RunsBack(w: World, acts: seq<Action>, i: nat, v: World, lease: int)
    requires i < |acts| && Enabled(w, acts[i], lease) && Runs(After(w, acts[i], lease), acts[i + 1..], v, lease)
    ensures Runs(w, acts[i..], v, lease)
  {
    assert acts[i..][0] == acts[i] && acts[i..][1..] == acts[i + 1..];
  }

  lemma CompletionIsARun(w: World, d: nat, lease: int) returns (v: World)
    requires d !in w.jobs && Claimable(w.op, w.now, lease)
    ensures Runs(w, [Claim(d), Begin(d, false), Post(d, true), WriteBack(d, true)], v, lease)
    ensures v.op == Dispatched(w.op, w.now, Completed) && v.jobs == w.jobs
  {
    var acts := [Claim(d), Begin(d, false), Post(d, true), WriteBack(d, true)];
    var w1 := After(w, acts[0], lease);
    var w2 := After(w1, acts[1], lease);
    var w3 := After(w2, acts[2], lease);
    v := After(w3, acts[3], lease);
    RunsBack(w3, acts, 3, v, lease);
    RunsBack(w2, acts, 2, v, lease);
    RunsBack(w1, acts, 1, v, lease);
    RunsBack(w, acts, 0, v, lease);
    assert acts[0..] == acts;
  }

  lemma ErrorIsARun(w: World, d: nat, hopeless: bool, recorded: bool, lease: int) returns (acts: seq<Action>, v: World)
    requires d !in w.jobs && Claimable(w.op, w.now, lease)
    ensures Runs(w, acts, v, lease) && v.op == Dispatched(w.op, w.now, Error(hopeless, recorded)) && v.jobs == w.jobs
  {
    acts := [Claim(d), Stumble(d, hopeless), if recorded then Record(d) else Strand(d)];
    var w1 := After(w, acts[0], lease);
    var w2 := After(w1, acts[1], lease);
    v := After(w2, acts[2], lease);
    RunsBack(w2, acts, 2, v, lease);
    RunsBack(w1, acts, 1, v, lease);
    RunsBack(w, acts, 0, v, lease);
    assert acts[0..] == acts;
  }

  /** The same error when the post or the write-back fails. */
  lemma PostErrorIsARun(w: World, d: nat, recorded: bool, lease: int) returns (acts: seq<Action>, v: World)
    requires d !in w.jobs && Claimable(w.op, w.now, lease)
    ensures Runs(w, acts, v, lease) && v.op == Dispatched(w.op, w.now, Error(false, recorded)) && v.jobs == w.jobs
    ensures v.posts == w.posts + 1 && v.written == w.written
  {
    acts := [Claim(d), Begin(d, false), Post(d, false), if recorded then Record(d) else Strand(d)];
    var w1 := After(w, acts[0], lease);
    var w2 := After(w1, acts[1], lease);
    var w3 := After(w2, acts[2], lease);
    v := After(w3, acts[3], lease);
    RunsBack(w3, acts, 3, v, lease);
    RunsBack(w2, acts, 2, v, lease);
    RunsBack(w1, acts, 1, v, lease);
    RunsBack(w, acts, 0, v, lease);
    assert acts[0..] == acts;
  }

  /** From the post on, when the write-back fails. */
  lemma FailedBackIsARun(w: World, d: nat, recorded: bool, lease: int) returns (acts: seq<Action>, v: World)
    requires In(w, d, Posting)
    ensures acts == [Post(d, true), WriteBack(d, false), if recorded then Record(d) else Strand(d)]
    ensures Runs(w, acts, v, lease) && v.jobs == w.jobs - {d} && v.posts == w.posts + 1 && v.written == w.written
    ensures v.op == if recorded then FailedOp(w.op, w.jobs[d].attempt >= MAX_ATTEMPTS, w.now) else w.op
  {
    acts := [Post(d, true), WriteBack(d, false), if recorded then Record(d) else Strand(d)];
    var w1 := After(w, acts[0], lease);
    var w2 := After(w1, acts[1], lease);
    v := After(w2, acts[2], lease);
    RunsBack(w2, acts, 2, v, lease);
    RunsBack(w1, acts, 1, v, lease);
    RunsBack(w, acts, 0, v, lease);
    assert acts[0..] == acts;
  }

  lemma BackErrorIsARun(w: World, d: nat, recorded: bool, lease: int) returns (acts: seq<Action>, v: World)
    requires d !in w.jobs && Claimable(w.op, w.now, lease)
    ensures Runs(w, acts, v, lease) && v.op == Dispatched(w.op, w.now, Error(false, recorded)) && v.jobs == w.jobs
    ensures v.posts == w.posts + 1 && v.written == w.written
  {
    var w1 := After(w, Claim(d), lease);
    var w2 := After(w1, Begin(d, false), lease);
    var rest;
    rest, v := FailedBackIsARun(w2, d, recorded, lease);
    acts := [Claim(d), Begin(d, false)] + rest;
    assert acts[2..] == rest && acts[0..] == acts;
    RunsBack(w1, acts, 1, v, lease);
    RunsBack(w, acts, 0, v, lease);
  }

  /** A dispatcher that sees the write-back does not post again. */
  lemma SeenIsNotPosted(w: World, d: nat, lease: int) returns (v: World)
    requires In(w, d, Starting) && w.written
    ensures Runs(w, [Begin(d, true), WriteBack(d, true)], v, lease)
    ensures v.posts == w.posts && v.late == w.late && v.op.status == Done && d !in v.jobs
  {
    var acts := [Begin(d, true), WriteBack(d, true)];
    var w1 := After(w, acts[0], lease);
    v := After(w1, acts[1], lease);
    RunsBack(w1, acts, 1, v, lease);
    RunsBack(w, acts, 0, v, lease);
    assert acts[0..] == acts;
  }

  /** A failed operation can be tried anew, from its first attempt on, or put aside for good. */
  lemma FailedIsRetriedOrDismissed(w: World, acts: seq<Action>, v: World, lease: int)
    requires w.op.status == Failed && w.jobs == map[]
    ensures var again := After(w, Retry, lease);
            && again.op.status == Pending && again.op.attempts == 0 && again.strands == 0
            && Claimable(again.op, w.now, lease)
    ensures Runs(After(w, Dismiss, lease), acts, v, lease) ==>
              v.op.status == Dismissed && v.op.attempts == w.op.attempts && v.posts == w.posts
  {
    if Runs(After(w, Dismiss, lease), acts, v, lease) {
      DismissedIsFinal(After(w, Dismiss, lease), acts, v, lease);
    }
  }

  lemma {:induction false} DismissedIsFinal(w: World, acts: seq<Action>, v: World, lease: int)
    requires w.op.status == Dismissed && w.jobs == map[] && Runs(w, acts, v, lease)
    ensures v.op == w.op && v.posts == w.posts && v.jobs == map[]
    decreases |acts|
  {
    if acts != [] {
      DismissedIsFinal(After(w, acts[0], lease), acts[1..], v, lease);
    }
  }

  /** What a pass makes of a claimable operation is what some uninterrupted run of one dispatcher makes of it. */
  lemma DispatchedIsARun(w: World, d: nat, ending: Ending, lease: int) returns (acts: seq<Action>, v: World)
    requires d !in w.jobs && Claimable(w.op, w.now, lease)
    ensures Runs(w, acts, v, lease) && v.op == Dispatched(w.op, w.now, ending) && v.jobs == w.jobs
  {
    match ending
    case Completed =>
      acts := [Claim(d), Begin(d, false), Post(d, true), WriteBack(d, true)];
      v := CompletionIsARun(w, d, lease);
    case Error(hopeless, recorded) =>
      acts, v := ErrorIsARun(w, d, hopeless, recorded, lease);
  }

  /** The operations in order of creation. */
  class Queue {
    var ops: seq<Op>

    constructor (initial: seq<Op>)
      ensures ops == initial
    {
      ops := initial;
    }

    /** claim_outbound_ops: the oldest claimable operations, as many as the limit allows. */
    method ClaimBatch(limit: nat, now: int, lease: int) returns (claimed: seq<nat>)
      modifies this
      ensures |ops| == |old(ops)| && |claimed| <= limit
      ensures forall i, j :: 0 <= i < j < |claimed| ==> claimed[i] < claimed[j]
      ensures forall i :: 0 <= i < |claimed| ==> claimed[i] < |ops| && Claimable(old(ops)[claimed[i]], now, lease)
      ensures forall k :: 0 <= k < |ops| ==> ops[k] == if k in claimed then Taken(old(ops)[k], now) else old(ops)[k]
      ensures forall k :: 0 <= k < |ops| && k in claimed ==> ops[k] == Op(InProgress, old(ops)[k].attempts + 1, now)
      ensures forall k :: 0 <= k < |ops| && k !in claimed && Claimable(old(ops)[k], now, lease) ==>
                |claimed| == limit && forall i :: 0 <= i < |claimed| ==> claimed[i] < k
    {
      claimed := [];
      for n := 0 to |ops|
        invariant |ops| == |old(ops)| && |claimed| <= limit
        invariant forall i, j :: 0 <= i < j < |claimed| ==> claimed[i] < claimed[j]
        invariant forall i :: 0 <= i < |claimed| ==> claimed[i] < n && Claimable(old(ops)[claimed[i]], now, lease)
        invariant forall k :: 0 <= k < |ops| ==> ops[k] == if k in claimed then Taken(old(ops)[k], now) else old(ops)[k]
        invariant forall k :: 0 <= k < n && k !in claimed && Claimable(old(ops)[k], now, lease) ==>
                    |claimed| == limit && forall i :: 0 <= i < |claimed| ==> claimed[i] < k
      {
        if |claimed| < limit && Claimable(ops[n], now, lease) {
          ops := ops[n := Taken(ops[n], now)];
          claimed := claimed + [n];
        }
      }
    }

    /** dispatchOnce: each claimed operation ends on its own; one that fails does not stop the rest. */
    method DispatchOnce(batch: int, now: int, lease: int, endings: nat -> Ending) returns (claimed: seq<nat>)
      modifies this
      ensures |ops| == |old(ops)| && |claimed| <= if batch <= 0 then DEFAULT_BATCH else batch
      ensures forall i :: 0 <= i < |claimed| ==> claimed[i] < |ops| && Claimable(old(ops)[claimed[i]], now, lease)
      ensures forall k :: 0 <= k < |ops| ==>
                ops[k] == if k in claimed then Dispatched(old(ops)[k], now, endings(k)) else old(ops)[k]
      ensures forall k :: 0 <= k < |ops| && k in claimed ==> PassLeaves(old(ops)[k], now, endings(k), ops[k])
    {
      claimed := ClaimBatch(if batch <= 0 then DEFAULT_BATCH else batch, now, lease);
      for n := 0 to |claimed|
        invariant |ops| == |old(ops)|
        invariant forall k :: 0 <= k < |ops| ==>
                    ops[k] == if k in claimed[..n] then Dispatched(old(ops)[k], now, endings(k))
                              else if k in claimed then Taken(old(ops)[k], now)
                              else old(ops)[k]
      {
        var k := claimed[n];
        assert k !in claimed[..n];
        match endings(k) {
          case Completed => ops := ops[k := CompletedOp(ops[k], now)];
          case Error(hopeless, recorded) =>
            if recorded {
              ops := ops[k := FailedOp(ops[k], hopeless || ops[k].attempts >= MAX_ATTEMPTS, now)];
            }
        }
      }
      assert claimed[..|claimed|] == claimed;
      forall k | 0 <= k < |ops| && k in claimed
        ensures PassLeaves(old(ops)[k], now, endings(k), ops[k])
      {
        DispatchedLeaves(old(ops)[k], now, endings(k));
      }
    }
  }
}
