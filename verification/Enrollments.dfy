/**
 * One enrollment under concurrent workers. A claim and the advance that follows it are separate
 * transactions; anything may happen between two steps of a worker: other claims, crashes, pauses,
 * exits. A worker that has passed the fence holds the row lock until it commits or rolls back.
 */
module Enrollments {
  import opened Prelude
  import opened Graphs
  import opened Configs
  import opened Validation
  import opened WellFormed
  import opened Engine
  import opened Trails
  import opened Accounts
  import opened Ledgers

  datatype Setup = Setup(g: Graph, refs: References, lib: Library, maxAttempts: int)

  /**
   * A claim being worked on: the engine's local variables, the step rows it last read, and, once it
   * has written anything, the uncommitted row. `clock` is the one instant an advance works with.
   */
  datatype Worker = Worker(claim: Claim, at: Id, clock: int, seen: Option<map<Id, Step>>, draft: Option<Row>,
                           done: bool)

  datatype World = World(row: Row, workers: map<nat, Worker>)

  datatype Action =
    | TakeClaim(worker: nat, asked: int, clock: int)
    | ReadSteps(worker: nat)
    | VisitNode(worker: nat, env: Env)
    | Commit(worker: nat)
    | Crash(worker: nat)
    | Pause
    | Leave

  ghost predicate Unlocked(w: World) {
    forall k :: k in w.workers ==> w.workers[k].draft.None?
  }

  ghost predicate UnlockedFor(w: World, worker: nat) {
    forall k :: k in w.workers && k != worker ==> w.workers[k].draft.None?
  }

  /** The row as a worker's own transaction sees it. */
  function View(row: Row, k: Worker): Row {
    if k.draft.Some? then k.draft.value else row
  }

  /** When an action can happen at all. Leases only make claims rarer, so they are not consulted. */
  ghost predicate Enabled(w: World, a: Action) {
    match a
    case TakeClaim(worker, asked, clock) =>
      && worker !in w.workers && Unlocked(w)
      && w.row.status == Active && w.row.current.Some? && w.row.wakeAt.Some?
      && w.row.wakeAt.value <= asked <= clock
    case ReadSteps(worker) => worker in w.workers && !w.workers[worker].done
    case VisitNode(worker, _) =>
      && worker in w.workers && !w.workers[worker].done && w.workers[worker].seen.Some?
      && UnlockedFor(w, worker)
    case Commit(worker) => worker in w.workers && w.workers[worker].draft.Some?
    case Crash(worker) => worker in w.workers
    case Pause => Unlocked(w) && w.row.status == Active
    case Leave => Unlocked(w) && w.row.status == Active
  }

  function Took(row: Row, clock: int): Worker
    requires row.current.Some?
  {
    Worker(Claim(row.gen + 1, row.attempts), row.current.value, clock, None, None, false)
  }

  function Visiting(s: Setup, row: Row, k: Worker, env: Env): Visited
    requires k.seen.Some?
  {
    Visit(s.g, s.lib, s.maxAttempts, View(row, k), k.claim, k.at, k.seen.value, env, k.clock)
  }

  /** The worker after its visit; None when its transaction rolled back. */
  function Moved(k: Worker, v: Visited): Option<Worker> {
    match v
    case Continue(r, next) =>
      Some(k.(claim := k.claim.(attempts := 0), at := next, seen := None, draft := Some(r)))
    case Stop(r, _) => Some(k.(draft := Some(r), done := true))
    case Abort(_) => None
  }

  function After(s: Setup, w: World, a: Action): World
    requires Enabled(w, a)
  {
    match a
    case TakeClaim(worker, _, clock) =>
      World(w.row.(gen := w.row.gen + 1), w.workers[worker := Took(w.row, clock)])
    case ReadSteps(worker) =>
      var k := w.workers[worker];
      w.(workers := w.workers[worker := k.(seen := Some(View(w.row, k).steps))])
    case VisitNode(worker, env) =>
      var k := w.workers[worker];
      (match Moved(k, Visiting(s, w.row, k, env))
       case Some(moved) => w.(workers := w.workers[worker := moved])
       case None => w.(workers := w.workers - {worker}))
    case Commit(worker) => World(w.workers[worker].draft.value, w.workers - {worker})
    case Crash(worker) => w.(workers := w.workers - {worker})
    case Pause => w.(row := w.row.(gen := w.row.gen + 1))
    case Leave => w.(row := w.row.(status := Exited, current := None, wakeAt := None, gen := w.row.gen + 1))
  }

  // ---- The invariant ----

  /** A worker whose claim still stands sees exactly what it is about to write. */
  ghost predicate InStep(view: Row, k: Worker) {
    && view.status == Active && view.current == Some(k.at) && view.attempts == k.claim.attempts
    && (k.seen.Some? ==> k.seen.value == view.steps)
    && Due(view, k.clock)
  }

  ghost predicate GoodRow(s: Setup, row: Row)
    requires |Triggers(s.g.nodes)| == 1
  {
    && Good(s.g, row) && Timely(row) && Accounted(s.g, s.lib, row)
    && Ledger(s.g, AttemptCap(s.maxAttempts), row)
  }

  ghost predicate GoodWorker(s: Setup, row: Row, k: Worker)
    requires |Triggers(s.g.nodes)| == 1
  {
    && k.claim.gen <= row.gen
    && (k.draft.Some? ==>
          && row.status == Active && k.claim.gen == row.gen
          && GoodRow(s, k.draft.value) && k.draft.value.gen == row.gen
          && ExtendedBy(row.gen, row.journal, k.draft.value.journal))
    && (k.done ==> k.draft.Some?)
    && (!k.done && row.status == Active && k.claim.gen == row.gen ==> InStep(View(row, k), k))
  }

  ghost predicate Inv(s: Setup, w: World)
    requires |Triggers(s.g.nodes)| == 1
  {
    && GoodRow(s, w.row)
    && (forall k :: k in w.workers ==> GoodWorker(s, w.row, w.workers[k]))
    && OneEach(w.workers)
  }

  /** No generation was handed out twice. */
  ghost predicate OneEach(workers: map<nat, Worker>) {
    forall k, l :: k in workers && l in workers && workers[k].claim.gen == workers[l].claim.gen ==> k == l
  }

  lemma NewClaimIsUnique(workers: map<nat, Worker>, worker: nat, k: Worker, gen: nat)
    requires OneEach(workers) && k.claim.gen > gen && forall l :: l in workers ==> workers[l].claim.gen <= gen
    ensures OneEach(workers[worker := k])
  {
  }

  lemma ClaimsAreNoNewer(s: Setup, w: World)
    requires |Triggers(s.g.nodes)| == 1 && Inv(s, w)
    ensures forall k :: k in w.workers ==> w.workers[k].claim.gen <= w.row.gen
  {
  }

  /** The generation moves on, with or without ending the enrollment. */
  ghost predicate BumpedFrom(row: Row, bumped: Row) {
    || bumped == row.(gen := row.gen + 1)
    || bumped == row.(status := Exited, current := None, wakeAt := None, gen := row.gen + 1)
  }

  lemma BumpIsGood(g: Graph, row: Row, bumped: Row)
    requires |Triggers(g.nodes)| == 1 && Good(g, row) && BumpedFrom(row, bumped)
    ensures Good(g, bumped)
  {
  }

  lemma BumpIsAccounted(g: Graph, lib: Library, row: Row, bumped: Row)
    requires Accounted(g, lib, row) && Timely(row) && BumpedFrom(row, bumped)
    ensures Accounted(g, lib, bumped) && Timely(bumped)
  {
  }

  lemma BumpLedger(g: Graph, cap: nat, row: Row, bumped: Row)
    requires |Triggers(g.nodes)| == 1 && Ledger(g, cap, row) && row.status == Active && BumpedFrom(row, bumped)
    ensures Ledger(g, cap, bumped)
  {
  }

  lemma BumpKeepsRow(s: Setup, row: Row, bumped: Row)
    requires |Triggers(s.g.nodes)| == 1
    requires GoodRow(s, row) && row.status == Active && BumpedFrom(row, bumped)
    ensures GoodRow(s, bumped)
  {
    hide Good, Accounted, Timely, Ledger;
    BumpIsGood(s.g, row, bumped);
    BumpIsAccounted(s.g, s.lib, row, bumped);
    BumpLedger(s.g, AttemptCap(s.maxAttempts), row, bumped);
  }

  /** It leaves every older claim harmless. */
  lemma BumpKeepsWorker(s: Setup, row: Row, bumped: Row, k: Worker)
    requires |Triggers(s.g.nodes)| == 1
    requires GoodWorker(s, row, k) && k.draft.None? && BumpedFrom(row, bumped)
    ensures GoodWorker(s, bumped, k)
  {
  }

  lemma BumpKeepsWorkers(s: Setup, w: World, bumped: Row)
    requires |Triggers(s.g.nodes)| == 1 && Inv(s, w) && Unlocked(w) && BumpedFrom(w.row, bumped)
    ensures forall k :: k in w.workers ==> GoodWorker(s, bumped, w.workers[k])
  {
    forall k | k in w.workers
      ensures GoodWorker(s, bumped, w.workers[k])
    {
      BumpKeepsWorker(s, w.row, bumped, w.workers[k]);
    }
  }

  lemma ClaimKeeps(s: Setup, row: Row, asked: int, clock: int)
    requires |Triggers(s.g.nodes)| == 1
    requires GoodRow(s, row) && row.status == Active && row.current.Some? && row.wakeAt.Some?
    requires row.wakeAt.value <= asked <= clock
    ensures GoodWorker(s, row.(gen := row.gen + 1), Took(row, clock))
  {
  }

  lemma MovedKeeps(s: Setup, row: Row, k: Worker, v: Visited)
    requires |Triggers(s.g.nodes)| == 1
    requires GoodWorker(s, row, k) && !k.done
    requires FencedBy(k.claim, View(row, k), v)
    requires v.Abort? || (KeptBy(s.g, View(row, k), v) && Timely(v.row) && Accounted(s.g, s.lib, v.row)
                          && Ledger(s.g, AttemptCap(s.maxAttempts), v.row))
    ensures var moved := Moved(k, v);
            moved.Some? ==> GoodWorker(s, row, moved.value) && moved.value.claim.gen == k.claim.gen
  {
  }

  /** A visit by a standing claim keeps the uncommitted row good and the worker in step with it. */
  lemma VisitingKeeps(s: Setup, row: Row, k: Worker, env: Env)
    requires IsWellFormed(s.g, s.refs, s.lib)
    requires GoodRow(s, row) && GoodWorker(s, row, k) && !k.done && k.seen.Some?
    ensures var moved := Moved(k, Visiting(s, row, k, env));
            moved.Some? ==> GoodWorker(s, row, moved.value) && moved.value.claim.gen == k.claim.gen
  {
    var view := View(row, k);
    VisitIsFenced(s.g, s.lib, s.maxAttempts, view, k.claim, k.at, k.seen.value, env, k.clock);
    if view.status == Active && view.gen == k.claim.gen {
      VisitKeeps(s.g, s.refs, s.lib, s.maxAttempts, view, k.claim, env, k.clock);
      VisitIsTimely(s.g, s.refs, s.lib, s.maxAttempts, view, k.claim, env, k.clock);
      VisitAccounts(s.g, s.refs, s.lib, s.maxAttempts, view, k.claim, env, k.clock);
      VisitKeepsLedger(s.g, s.refs, s.lib, s.maxAttempts, view, k.claim, env, k.clock);
    }
    MovedKeeps(s, row, k, Visiting(s, row, k, env));
  }

  lemma RemoveKeeps(s: Setup, w: World, worker: nat)
    requires |Triggers(s.g.nodes)| == 1 && Inv(s, w)
    ensures Inv(s, w.(workers := w.workers - {worker}))
  {
  }

  lemma ReplaceKeeps(s: Setup, w: World, worker: nat, k: Worker)
    requires |Triggers(s.g.nodes)| == 1 && Inv(s, w) && worker in w.workers
    requires GoodWorker(s, w.row, k) && k.claim.gen == w.workers[worker].claim.gen
    ensures Inv(s, w.(workers := w.workers[worker := k]))
  {
  }

  /** A commit makes the draft the row; every other worker holds an older claim. */
  lemma CommitKeeps(s: Setup, w: World, worker: nat)
    requires |Triggers(s.g.nodes)| == 1 && Inv(s, w) && worker in w.workers && w.workers[worker].draft.Some?
    ensures Inv(s, World(w.workers[worker].draft.value, w.workers - {worker}))
  {
    var row := w.workers[worker].draft.value;
    assert GoodWorker(s, w.row, w.workers[worker]);
    forall k | k in w.workers && k != worker
      ensures GoodWorker(s, row, w.workers[k])
    {
      assert GoodWorker(s, w.row, w.workers[k]);
    }
  }

  lemma AddKeeps(s: Setup, w: World, worker: nat, k: Worker)
    requires |Triggers(s.g.nodes)| == 1 && Inv(s, w) && worker !in w.workers
    requires GoodWorker(s, w.row, k) && OneEach(w.workers[worker := k])
    ensures Inv(s, w.(workers := w.workers[worker := k]))
  {
  }

  lemma BumpedKeeps(s: Setup, w: World, bumped: Row)
    requires |Triggers(s.g.nodes)| == 1 && Inv(s, w) && Unlocked(w)
    requires w.row.status == Active && BumpedFrom(w.row, bumped)
    ensures Inv(s, w.(row := bumped))
  {
    BumpKeepsRow(s, w.row, bumped);
    BumpKeepsWorkers(s, w, bumped);
  }

  lemma TakeClaimKeeps(s: Setup, w: World, worker: nat, asked: int, clock: int)
    requires |Triggers(s.g.nodes)| == 1 && Inv(s, w) && Enabled(w, TakeClaim(worker, asked, clock))
    ensures Inv(s, After(s, w, TakeClaim(worker, asked, clock)))
  {
    hide GoodRow, GoodWorker, OneEach;
    var bumped := w.row.(gen := w.row.gen + 1);
    BumpedKeeps(s, w, bumped);
    ClaimKeeps(s, w.row, asked, clock);
    ClaimsAreNoNewer(s, w);
    NewClaimIsUnique(w.workers, worker, Took(w.row, clock), w.row.gen);
    AddKeeps(s, w.(row := bumped), worker, Took(w.row, clock));
  }

  lemma ReadStepsKeeps(s: Setup, w: World, worker: nat)
    requires |Triggers(s.g.nodes)| == 1 && Inv(s, w) && Enabled(w, ReadSteps(worker))
    ensures Inv(s, After(s, w, ReadSteps(worker)))
  {
    var k := w.workers[worker];
    ReplaceKeeps(s, w, worker, k.(seen := Some(View(w.row, k).steps)));
  }

  lemma VisitNodeKeeps(s: Setup, w: World, worker: nat, env: Env)
    requires IsWellFormed(s.g, s.refs, s.lib)
    requires Inv(s, w) && Enabled(w, VisitNode(worker, env))
    ensures Inv(s, After(s, w, VisitNode(worker, env)))
  {
    var k := w.workers[worker];
    VisitingKeeps(s, w.row, k, env);
    var moved := Moved(k, Visiting(s, w.row, k, env));
    if moved.Some? {
      ReplaceKeeps(s, w, worker, moved.value);
    } else {
      RemoveKeeps(s, w, worker);
    }
  }

  lemma BumpsKeep(s: Setup, w: World, a: Action)
    requires |Triggers(s.g.nodes)| == 1 && Inv(s, w) && a in {Pause, Leave} && Enabled(w, a)
    ensures Inv(s, After(s, w, a))
  {
    BumpedKeeps(s, w, After(s, w, a).row);
  }

  lemma StepKeeps(s: Setup, w: World, a: Action)
    requires IsWellFormed(s.g, s.refs, s.lib)
    requires Inv(s, w) && Enabled(w, a)
    ensures Inv(s, After(s, w, a))
  {
    match a
    case TakeClaim(worker, asked, clock) => TakeClaimKeeps(s, w, worker, asked, clock);
    case ReadSteps(worker) => ReadStepsKeeps(s, w, worker);
    case VisitNode(worker, env) => VisitNodeKeeps(s, w, worker, env);
    case Commit(worker) => CommitKeeps(s, w, worker);
    case Crash(worker) => RemoveKeeps(s, w, worker);
    case Pause => BumpsKeep(s, w, a);
    case Leave => BumpsKeep(s, w, a);
  }

  // ---- Runs ----

  function Begun(s: Setup, now: int): World
    requires |Triggers(s.g.nodes)| == 1
  {
    World(Enrolled(Triggers(s.g.nodes)[0], now), map[])
  }

  /** The world after some actions, each possible when its turn comes. */
  ghost predicate Runs(s: Setup, w: World, acts: seq<Action>, v: World)
    decreases acts
  {
    if acts == [] then w == v
    else Enabled(w, acts[0]) && Runs(s, After(s, w, acts[0]), acts[1..], v)
  }

  lemma {:induction false} RunKeeps(s: Setup, w: World, acts: seq<Action>, v: World)
    requires IsWellFormed(s.g, s.refs, s.lib)
    requires Inv(s, w) && Runs(s, w, acts, v)
    ensures Inv(s, v)
    decreases acts
  {
    if acts != [] {
      StepKeeps(s, w, acts[0]);
      RunKeeps(s, After(s, w, acts[0]), acts[1..], v);
    }
  }

  lemma BeginningIsGood(s: Setup, now: int)
    requires |Triggers(s.g.nodes)| == 1
    ensures Inv(s, Begun(s, now))
  {
    hide Ledger;
    EnrolledIsGood(s.g, now);
    EnrolledLedger(s.g, AttemptCap(s.maxAttempts), now);
  }

  lemma ReachableKeeps(s: Setup, now: int, acts: seq<Action>, v: World)
    requires IsWellFormed(s.g, s.refs, s.lib)
    requires Runs(s, Begun(s, now), acts, v)
    ensures Inv(s, v)
  {
    BeginningIsGood(s, now);
    RunKeeps(s, Begun(s, now), acts, v);
  }

  /**
   * Whatever claims, retries, crashes and interruptions happen: the completed nodes are a simple walk
   * from the trigger, every delivery belongs to a completed node and there is one per node, a wait
   * parks once, no wait is completed without having been parked, nor before its instant, every entry is
   * explained by the graph, and a condition that said yes about a mail was reached after that mail was
   * queued.
   */
  lemma {:induction false} EveryRunIsASimpleWalk(s: Setup, now: int, acts: seq<Action>, v: World)
    requires IsWellFormed(s.g, s.refs, s.lib)
    requires Runs(s, Begun(s, now), acts, v)
    ensures var trail := Nodes(Completions, v.row.journal);
            && Distinct(trail)
            && (trail != [] ==> trail[0] == TriggerOf(s.g) && Walk(Arcs(s.g.edges), trail))
            && Distinct(Nodes(Mailings, v.row.journal))
            && (forall id :: id in Nodes(Mailings, v.row.journal) ==> id in trail)
            && Distinct(Nodes(Parkings, v.row.journal))
            && OnTime(v.row.journal)
            && (forall i :: 0 <= i < |v.row.journal| && CompletesWait(s.g, v.row.journal[i]) ==>
                  ParkedBefore(v.row.journal, i, v.row.journal[i].effect.node))
            && Told(s.g, s.lib, v.row.journal)
            && forall i :: 0 <= i < |v.row.journal| && SaysYes(v.row.journal[i]) ==>
                 var asked := AskedAbout(s.g, v.row.journal[i].effect.node);
                 asked.Some? ==> MailedBefore(v.row.journal, i, asked.value)
  {
    ReachableKeeps(s, now, acts, v);
    var trail := Nodes(Completions, v.row.journal);
    if trail != [] {
      AcyclicWalksAreSimple(Arcs(s.g.edges), trail);
    }
    YesMeansMailed(s.g, v.row.journal);
    forall i | 0 <= i < |v.row.journal| && CompletesWait(s.g, v.row.journal[i])
      ensures ParkedBefore(v.row.journal, i, v.row.journal[i].effect.node)
    {
      WaitedAt(s.g, v.row.journal, i);
    }
  }

  predicate CompletesWait(g: Graph, e: Entry) {
    e.effect.Recorded? && e.effect.outcome != Waiting && IsWait(g, e.effect.node)
  }

  /**
   * In every state of every run each column follows from the journal: the status, the node the enrollment
   * stands at, its attempts, its step rows and the generations of its deliveries. An active enrollment
   * always has an instant at which it is due, the one its last entry calls for, and has attempts left.
   */
  lemma EveryColumnFollows(s: Setup, now: int, acts: seq<Action>, v: World)
    requires IsWellFormed(s.g, s.refs, s.lib)
    requires Runs(s, Begun(s, now), acts, v)
    ensures Columns(s.g, v.row) && Standing(s.g, AttemptCap(s.maxAttempts), v.row)
    ensures v.row.status == Active ==> v.row.wakeAt.Some?
  {
    ReachableKeeps(s, now, acts, v);
  }

  lemma YesMeansMailed(g: Graph, journal: seq<Entry>)
    requires Grounded(g, journal)
    ensures forall i :: 0 <= i < |journal| && SaysYes(journal[i]) ==>
              var asked := AskedAbout(g, journal[i].effect.node);
              asked.Some? ==> MailedBefore(journal, i, asked.value)
  {
    forall i | 0 <= i < |journal| && SaysYes(journal[i])
      ensures var asked := AskedAbout(g, journal[i].effect.node);
              asked.Some? ==> MailedBefore(journal, i, asked.value)
    {
      if AskedAbout(g, journal[i].effect.node).Some? {
        GroundedAt(g, journal, i);
      }
    }
  }

  // ---- Nothing from a claim taken before a bump ----

  /** Relative to a generation nobody holds: whatever was added since stems from later claims. */
  ghost predicate SinceBump(gen: nat, journal: seq<Entry>, w: World) {
    && gen <= w.row.gen
    && journal <= w.row.journal
    && (forall i :: |journal| <= i < |w.row.journal| ==> w.row.journal[i].gen > gen)
    && (forall k :: k in w.workers ==> w.workers[k].claim.gen != gen)
  }

  lemma StepSinceBump(s: Setup, gen: nat, journal: seq<Entry>, w: World, a: Action)
    requires IsWellFormed(s.g, s.refs, s.lib)
    requires Inv(s, w) && Enabled(w, a) && SinceBump(gen, journal, w)
    ensures SinceBump(gen, journal, After(s, w, a))
  {
    hide GoodRow, OneEach, Visit, InStep, Visiting;
    match a
    case VisitNode(worker, env) => MovedClaim(s, w.row, w.workers[worker], env);
    case Commit(worker) =>
      assert GoodWorker(s, w.row, w.workers[worker]);
      CommitSinceBump(gen, journal, w.row, w.workers[worker].draft.value.journal);
    case _ =>
  }

  lemma MovedClaim(s: Setup, row: Row, k: Worker, env: Env)
    requires k.seen.Some?
    ensures var moved := Moved(k, Visiting(s, row, k, env));
            moved.Some? ==> moved.value.claim.gen == k.claim.gen
  {
  }

  lemma CommitSinceBump(gen: nat, journal: seq<Entry>, row: Row, longer: seq<Entry>)
    requires gen < row.gen || longer == row.journal
    requires journal <= row.journal && forall i :: |journal| <= i < |row.journal| ==> row.journal[i].gen > gen
    requires ExtendedBy(row.gen, row.journal, longer)
    ensures journal <= longer && forall i :: |journal| <= i < |longer| ==> longer[i].gen > gen
  {
    forall i | |journal| <= i < |longer|
      ensures longer[i].gen > gen
    {
      if i < |row.journal| {
        assert longer[i] == row.journal[i];
      }
    }
  }

  lemma {:induction false} RunSinceBump(s: Setup, gen: nat, journal: seq<Entry>, w: World, acts: seq<Action>, v: World)
    requires IsWellFormed(s.g, s.refs, s.lib)
    requires Inv(s, w) && SinceBump(gen, journal, w) && Runs(s, w, acts, v)
    ensures SinceBump(gen, journal, v)
    decreases acts
  {
    if acts != [] {
      StepKeeps(s, w, acts[0]);
      StepSinceBump(s, gen, journal, w, acts[0]);
      RunSinceBump(s, gen, journal, After(s, w, acts[0]), acts[1..], v);
    }
  }

  lemma BumpBegins(s: Setup, w: World, bump: Action)
    requires |Triggers(s.g.nodes)| == 1 && Inv(s, w) && bump in {Pause, Leave} && Enabled(w, bump)
    ensures SinceBump(w.row.gen + 1, w.row.journal, After(s, w, bump))
    ensures forall k :: k in w.workers ==> w.workers[k].claim.gen <= w.row.gen
  {
  }

  /**
   * After a pause or an exit, nothing is recorded, mailed or tagged on behalf of a claim taken before
   * it: every journal entry added later carries a generation above the one the bump produced.
   */
  lemma OldClaimsDoNothing(s: Setup, now: int, before: seq<Action>, w: World, bump: Action, acts: seq<Action>, v: World)
    requires IsWellFormed(s.g, s.refs, s.lib)
    requires Runs(s, Begun(s, now), before, w)
    requires bump in {Pause, Leave} && Enabled(w, bump)
    requires Runs(s, After(s, w, bump), acts, v)
    ensures w.row.journal <= v.row.journal
    ensures forall k :: k in w.workers ==> w.workers[k].claim.gen <= w.row.gen
    ensures forall i :: |w.row.journal| <= i < |v.row.journal| ==> v.row.journal[i].gen > w.row.gen + 1
  {
    ReachableKeeps(s, now, before, w);
    BumpBegins(s, w, bump);
    StepKeeps(s, w, bump);
    RunSinceBump(s, w.row.gen + 1, w.row.journal, After(s, w, bump), acts, v);
  }

  lemma DraftsAreActive(s: Setup, w: World)
    requires |Triggers(s.g.nodes)| == 1 && Inv(s, w)
    ensures forall k :: k in w.workers && w.workers[k].draft.Some? ==> w.row.status == Active
  {
    hide GoodRow, OneEach;
  }

  lemma FinishedStays(s: Setup, w: World, a: Action)
    requires |Triggers(s.g.nodes)| == 1 && Inv(s, w) && w.row.status != Active && Enabled(w, a)
    ensures After(s, w, a).row == w.row
  {
    DraftsAreActive(s, w);
    hide Inv;
  }

  /** A finished enrollment never changes again. */
  lemma {:induction false} FinishedIsFinal(s: Setup, w: World, acts: seq<Action>, v: World)
    requires IsWellFormed(s.g, s.refs, s.lib)
    requires Inv(s, w) && w.row.status != Active && Runs(s, w, acts, v)
    ensures v.row == w.row
    decreases acts
  {
    hide Inv, After, Enabled;
    if acts != [] {
      FinishedStays(s, w, acts[0]);
      StepKeeps(s, w, acts[0]);
      FinishedIsFinal(s, After(s, w, acts[0]), acts[1..], v);
    }
  }

  /** Leaving ends an enrollment at once and for good. */
  lemma LeavingIsFinal(s: Setup, now: int, before: seq<Action>, w: World, acts: seq<Action>, v: World)
    requires IsWellFormed(s.g, s.refs, s.lib)
    requires Runs(s, Begun(s, now), before, w) && Enabled(w, Leave)
    requires Runs(s, After(s, w, Leave), acts, v)
    ensures v.row.status == Exited && v.row.current.None? && v.row.wakeAt.None?
    ensures v.row.journal == w.row.journal && v.row.steps == w.row.steps && v.row.mails == w.row.mails
  {
    ReachableKeeps(s, now, before, w);
    StepKeeps(s, w, Leave);
    FinishedIsFinal(s, After(s, w, Leave), acts, v);
  }

  /** A crash takes the worker and whatever it had not committed, and nothing else; the row is free again. */
  lemma CrashLosesTheDraft(s: Setup, w: World, worker: nat)
    requires |Triggers(s.g.nodes)| == 1 && Inv(s, w) && Enabled(w, Crash(worker))
    ensures var after := After(s, w, Crash(worker));
            && after.row == w.row && after.workers == w.workers - {worker}
            && (w.workers[worker].draft.Some? ==> Unlocked(after))
  {
    hide GoodRow;
    forall k | k in w.workers && w.workers[worker].draft.Some? && w.workers[k].draft.Some?
      ensures k == worker
    {
      assert GoodWorker(s, w.row, w.workers[k]) && GoodWorker(s, w.row, w.workers[worker]);
    }
  }

  // ---- Inactive subscribers ----

  /** Fence and snapshot agree about the subscriber whenever a node is visited. */
  ghost predicate ConsistentRun(acts: seq<Action>) {
    forall i :: 0 <= i < |acts| && acts[i].VisitNode? ==> Consistent(acts[i].env)
  }

  ghost predicate NoExits(s: Setup, w: World) {
    && NobodyDismissed(s.g, w.row.journal)
    && forall k :: k in w.workers && w.workers[k].draft.Some? ==> NobodyDismissed(s.g, w.workers[k].draft.value.journal)
  }

  lemma StepExitsNobody(s: Setup, w: World, a: Action)
    requires NoExits(s, w) && Enabled(w, a) && (a.VisitNode? ==> Consistent(a.env))
    ensures NoExits(s, After(s, w, a))
  {
    if a.VisitNode? {
      var k := w.workers[a.worker];
      VisitDismissesNobody(s.g, s.lib, s.maxAttempts, View(w.row, k), k.claim, k.at, k.seen.value, a.env, k.clock);
    }
  }

  lemma {:induction false} RunExitsNobody(s: Setup, w: World, acts: seq<Action>, v: World)
    requires NoExits(s, w) && Runs(s, w, acts, v) && ConsistentRun(acts)
    ensures NoExits(s, v)
    decreases acts
  {
    if acts != [] {
      StepExitsNobody(s, w, acts[0]);
      assert forall i :: 0 <= i < |acts| - 1 ==> acts[1..][i] == acts[i + 1];
      RunExitsNobody(s, After(s, w, acts[0]), acts[1..], v);
    }
  }

  /**
   * The engine's own exit of an inactive subscriber never commits while fence and snapshot agree: such
   * subscribers leave only through the exit that follows their status change.
   */
  lemma EngineExitsNobody(s: Setup, now: int, acts: seq<Action>, v: World)
    requires |Triggers(s.g.nodes)| == 1
    requires Runs(s, Begun(s, now), acts, v) && ConsistentRun(acts)
    ensures NobodyDismissed(s.g, v.row.journal)
  {
    RunExitsNobody(s, Begun(s, now), acts, v);
  }
}
