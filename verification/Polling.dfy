/**
 * Ticks as they come: a tick claims an enrollment only when its instant has come, and otherwise leaves it
 * alone. However the ticks are spaced, as long as they keep coming the enrollment gets where the walk gets.
 */
module Polling {
  import opened Prelude
  import opened Graphs
  import opened Configs
  import opened Validation
  import opened WellFormed
  import opened Engine
  import opened Trails
  import opened Enrollments
  import opened Progress

  /** The ticks one after the other, each claiming only what is due. */
  function AllClaims(turn: Turning, row: Row, ticks: seq<Tick>): Row
    decreases |ticks|
  {
    if ticks == [] then row
    else AllClaims(turn, if DueAt(row, ticks[0].now) then Ticked(turn, row, ticks[0]) else row, ticks[1..])
  }

  /** Those of the ticks that claim. */
  function Claiming(turn: Turning, row: Row, ticks: seq<Tick>): seq<Tick>
    decreases |ticks|
  {
    if ticks == [] then []
    else if DueAt(row, ticks[0].now) then [ticks[0]] + Claiming(turn, Ticked(turn, row, ticks[0]), ticks[1..])
    else Claiming(turn, row, ticks[1..])
  }

  lemma {:induction false} FinishedClaimsNothing(turn: Turning, row: Row, ticks: seq<Tick>)
    requires row.status != Active
    ensures AllClaims(turn, row, ticks) == row && Claiming(turn, row, ticks) == []
    decreases |ticks|
  {
    if ticks != [] {
      FinishedClaimsNothing(turn, row, ticks[1..]);
    }
  }

  lemma {:induction false} ClaimsAreTicks(turn: Turning, row: Row, ticks: seq<Tick>)
    ensures AllClaims(turn, row, ticks) == AllTicks(turn, row, Claiming(turn, row, ticks))
    decreases |ticks|
  {
    if ticks != [] {
      if DueAt(row, ticks[0].now) {
        var next := Ticked(turn, row, ticks[0]);
        ClaimsAreTicks(turn, next, ticks[1..]);
        var rest := Claiming(turn, next, ticks[1..]);
        assert ([ticks[0]] + rest)[1..] == rest;
      } else {
        ClaimsAreTicks(turn, row, ticks[1..]);
      }
    }
  }

  /** The first tick comes within `gap` of `prev`, and each of the others within `gap` of the one before. */
  ghost predicate Polled(prev: int, gap: int, ticks: seq<Tick>)
    decreases |ticks|
  {
    ticks == [] || (prev <= ticks[0].now <= prev + gap && Polled(ticks[0].now, gap, ticks[1..]))
  }

  // ---- A claim leaves the next instant within reach ----

  lemma {:induction false} AdvanceAwaits(turn: Turning, alive: Row -> bool, budget: Row -> int, limit: nat, row: Row,
                                         now: int)
    requires Steady(turn, alive, budget) && alive(row) && row.status == Active && Awaits(row, now)
    ensures var r := Advance(turn, limit, row, Claimed(row), Here(row), now);
            r.Some? ==> alive(r.value) && (r.value.status == Active ==> Awaits(r.value, now))
    decreases limit
  {
    if limit > 0 {
      assert MovesAt(turn, alive, budget, row, now);
      var v := Next(turn, row, now);
      if v.Continue? {
        AdvanceAwaits(turn, alive, budget, limit - 1, v.row, now);
      }
    }
  }

  lemma TickAwaits(turn: Turning, alive: Row -> bool, budget: Row -> int, row: Row, t: Tick)
    requires Steady(turn, alive, budget) && alive(row) && DueAt(row, t.now)
    ensures var r := Ticked(turn, row, t); alive(r) && (r.status == Active ==> Awaits(r, t.now))
  {
    var claimed := row.(gen := row.gen + 1);
    assert alive(claimed);
    AdvanceAwaits(turn, alive, budget, Limit(t.maxNodes), claimed, t.now);
  }

  /** The time `n` claims can take at most. */
  function Span(n: nat, gap: nat): int { n * (LONGEST + gap) }

  lemma SpanGrows(n: nat, gap: nat)
    ensures Span(n + 1, gap) == Span(n, gap) + LONGEST + gap
    ensures Span(0, gap) == 0 && Span(n, gap) >= 0
  {
  }

  /** If the ticks last long enough, that many of them claim, unless the enrollment is finished first. */
  lemma {:induction false} PollingClaims(turn: Turning, alive: Row -> bool, budget: Row -> int, row: Row,
                                         prev: int, due: int, gap: nat, ticks: seq<Tick>, n: nat)
    requires Steady(turn, alive, budget) && alive(row) && prev <= due
    requires row.status == Active ==> row.wakeAt.Some? && row.wakeAt.value <= due
    requires Polled(prev, gap, ticks)
    requires n > 0 ==> ticks != [] && Last(ticks).now >= due + Span(n - 1, gap)
    ensures AllClaims(turn, row, ticks).status != Active || |Claiming(turn, row, ticks)| >= n
    decreases |ticks|
  {
    if row.status != Active {
      FinishedClaimsNothing(turn, row, ticks);
    } else if n > 0 {
      var t, rest := ticks[0], ticks[1..];
      assert rest != [] ==> Last(rest) == Last(ticks);
      SpanGrows(n - 1, gap);
      if DueAt(row, t.now) {
        TickAwaits(turn, alive, budget, row, t);
        if n > 1 {
          SpanGrows(n - 2, gap);
        }
        PollingClaims(turn, alive, budget, Ticked(turn, row, t), t.now, t.now + LONGEST, gap, rest, n - 1);
      } else {
        PollingClaims(turn, alive, budget, row, t.now, due, gap, rest, n);
      }
    }
  }

  lemma ClaimsFinish(turn: Turning, alive: Row -> bool, budget: Row -> int, row: Row, enough: nat, ticks: seq<Tick>)
    requires Steady(turn, alive, budget) && alive(row) && budget(row) <= enough
    requires AllClaims(turn, row, ticks).status != Active || |Claiming(turn, row, ticks)| >= enough
    ensures AllClaims(turn, row, ticks).status != Active <==> Unstalled(turn, row)
    ensures Unstalled(turn, row) ==> Same(AllClaims(turn, row, ticks), Walked(turn, row, enough))
  {
    var claiming := Claiming(turn, row, ticks);
    ClaimsAreTicks(turn, row, ticks);
    if |claiming| >= enough {
      TicksFinish(turn, alive, budget, row, enough, claiming);
      if Unstalled(turn, row) {
        UnstalledIsLossless(turn, row);
        TicksEnd(turn, alive, budget, row, enough, claiming);
      }
    } else {
      var moves := TicksAreWalked(turn, alive, budget, row, row, claiming);
      WalkedEnds(turn, alive, budget, row, enough);
      WalkedSettles(turn, row, moves, enough);
      if m: nat :| StallsAt(turn, row, m) {
        StalledIsActive(turn, row, m, moves);
      }
    }
  }

  lemma PollingFinishes(turn: Turning, alive: Row -> bool, budget: Row -> int, row: Row, enough: nat,
                        now: int, gap: nat, ticks: seq<Tick>)
    requires Steady(turn, alive, budget) && alive(row) && budget(row) <= enough && row.wakeAt == Some(now)
    requires Polled(now, gap, ticks) && ticks != [] && Last(ticks).now >= now + Span(enough, gap)
    ensures AllClaims(turn, row, ticks).status != Active <==> Unstalled(turn, row)
    ensures Unstalled(turn, row) ==> Same(AllClaims(turn, row, ticks), Walked(turn, row, enough))
  {
    if enough > 0 {
      SpanGrows(enough - 1, gap);
    }
    PollingClaims(turn, alive, budget, row, now, now, gap, ticks, enough);
    ClaimsFinish(turn, alive, budget, row, enough, ticks);
  }

  /**
   * The ticks as the system makes them, claiming an enrollment only when it is due: if they come at least
   * every `gap` and go on for a year and a gap per attempt there can be, the enrollment ends completed,
   * exited or errored if and only if the walk meets no turn that rolls back; and then it has done exactly
   * what the walk does.
   */
  lemma PollingFinishesIff(s: Setup, sky: Sky, now: int, gap: nat, ticks: seq<Tick>)
    requires IsWellFormed(s.g, s.refs, s.lib) && Polled(now, gap, ticks)
    requires ticks != [] && Last(ticks).now >= now + Span(Enough(s), gap)
    ensures var start := Begun(s, now).row;
            var end := AllClaims(Turns(s, sky), start, ticks);
            && (end.status in {Completed, Exited, Errored} <==> Unstalled(Turns(s, sky), start))
            && (Unstalled(Turns(s, sky), start) ==> Same(end, Walked(Turns(s, sky), start, Enough(s))))
  {
    StartIsAlive(s, now);
    EngineIsSteady(s, sky);
    PollingFinishes(Turns(s, sky), Living(s), Spending(s), Begun(s, now).row, Enough(s), now, gap, ticks);
  }

  // ---- A tick is a run of one worker ----

  lemma {:induction false} RunsJoin(s: Setup, w: World, acts: seq<Action>, mid: World, more: seq<Action>, v: World)
    requires Runs(s, w, acts, mid) && Runs(s, mid, more, v)
    ensures Runs(s, w, acts + more, v)
    decreases |acts|
  {
    if acts == [] {
      assert acts + more == more;
    } else {
      assert (acts + more)[0] == acts[0] && (acts + more)[1..] == acts[1..] + more;
      RunsJoin(s, After(s, w, acts[0]), acts[1..], mid, more, v);
    }
  }

  /** The only worker. */
  function Alone(row: Row, worker: nat, k: Worker): World { World(row, map[worker := k]) }

  /** What it leaves after a turn: itself, on its way or done, or nothing when its transaction rolled back. */
  function Left(row: Row, worker: nat, k: Worker, v: Visited): World {
    match v
    case Continue(r, next) => Alone(row, worker, k.(claim := k.claim.(attempts := 0), at := next, draft := Some(r)))
    case Stop(r, _) => Alone(row, worker, k.(seen := Some(View(row, k).steps), draft := Some(r), done := true))
    case Abort(_) => World(row, map[])
  }

  /** A turn reads the step rows and executes the node. */
  function TurnSteps(sky: Sky, row: Row, worker: nat, k: Worker): seq<Action> {
    [ReadSteps(worker), VisitNode(worker, sky(k.at, k.claim.attempts, StepWaiting(View(row, k).steps, k.at)))]
  }

  lemma OnceIsVisiting(s: Setup, sky: Sky, row: Row, k: Worker)
    requires k.seen == Some(View(row, k).steps)
    ensures Visiting(s, row, k, sky(k.at, k.claim.attempts, StepWaiting(View(row, k).steps, k.at)))
         == Once(s, sky, View(row, k), k.claim, k.at, k.clock)
  {
  }

  lemma TurnIsARun(s: Setup, sky: Sky, row: Row, worker: nat, k: Worker)
    requires !k.done && k.seen.None?
    ensures Runs(s, Alone(row, worker, k), TurnSteps(sky, row, worker, k),
                 Left(row, worker, k, Once(s, sky, View(row, k), k.claim, k.at, k.clock)))
  {
    hide Once, Visit;
    var acts := TurnSteps(sky, row, worker, k);
    var w, seen := Alone(row, worker, k), k.(seen := Some(View(row, k).steps));
    var read := After(s, w, acts[0]);
    assert read == Alone(row, worker, seen);
    var v := After(s, read, acts[1]);
    OnceIsVisiting(s, sky, row, seen);
    assert v == Left(row, worker, k, Once(s, sky, View(row, k), k.claim, k.at, k.clock));
    assert acts[1..][1..] == [] && acts[1..][0] == acts[1];
    assert Runs(s, read, acts[1..], v);
  }

  lemma CommitIsARun(s: Setup, row: Row, worker: nat, k: Worker)
    requires k.draft.Some?
    ensures Runs(s, Alone(row, worker, k), [Commit(worker)], World(k.draft.value, map[]))
  {
    var w, acts := Alone(row, worker, k), [Commit(worker)];
    assert After(s, w, acts[0]) == World(k.draft.value, map[]);
    assert acts[1..] == [];
  }

  lemma ClaimIsARun(s: Setup, row: Row, worker: nat, now: int)
    requires DueAt(row, now) && row.current.Some?
    ensures Runs(s, World(row, map[]), [TakeClaim(worker, now, now)],
                 Alone(row.(gen := row.gen + 1), worker, Took(row, now)))
  {
    var w, acts := World(row, map[]), [TakeClaim(worker, now, now)];
    assert After(s, w, acts[0]) == Alone(row.(gen := row.gen + 1), worker, Took(row, now));
    assert acts[1..] == [];
  }

  /** The loop under a budget, by one worker nobody interrupts: a run that commits what the advance leaves. */
  lemma {:induction false} AdvanceIsARun(s: Setup, sky: Sky, limit: nat, row: Row, worker: nat, k: Worker)
    returns (acts: seq<Action>)
    requires !k.done && k.seen.None? && (limit == 0 ==> k.draft.Some?)
    ensures var r := Advance(Turns(s, sky), limit, View(row, k), k.claim, k.at, k.clock);
            Runs(s, Alone(row, worker, k), acts, World(if r.Some? then r.value else row, map[]))
    decreases limit
  {
    hide Once, Runs;
    var w := Alone(row, worker, k);
    if limit == 0 {
      acts := [Commit(worker)];
      CommitIsARun(s, row, worker, k);
    } else {
      var v := Once(s, sky, View(row, k), k.claim, k.at, k.clock);
      var turn := TurnSteps(sky, row, worker, k);
      TurnIsARun(s, sky, row, worker, k);
      match v
      case Continue(r, next) =>
        var on := k.(claim := k.claim.(attempts := 0), at := next, draft := Some(r));
        var rest := AdvanceIsARun(s, sky, limit - 1, row, worker, on);
        var end := Advance(Turns(s, sky), limit - 1, r, on.claim, next, k.clock);
        RunsJoin(s, w, turn, Alone(row, worker, on), rest, World(if end.Some? then end.value else row, map[]));
        acts := turn + rest;
      case Stop(r, _) =>
        var done := k.(seen := Some(View(row, k).steps), draft := Some(r), done := true);
        CommitIsARun(s, row, worker, done);
        RunsJoin(s, w, turn, Alone(row, worker, done), [Commit(worker)], World(r, map[]));
        acts := turn + [Commit(worker)];
      case Abort(_) =>
        acts := turn;
    }
  }

  /**
   * A tick that claims a due enrollment and that nothing interrupts is a run of one worker among the
   * interleavings: it leaves the row that the tick leaves.
   */
  lemma TickIsARun(s: Setup, sky: Sky, row: Row, worker: nat, t: Tick) returns (acts: seq<Action>)
    requires DueAt(row, t.now) && row.current.Some?
    ensures Runs(s, World(row, map[]), acts, World(Ticked(Turns(s, sky), row, t), map[]))
  {
    hide Once, Runs, Advance;
    var w, claim := World(row, map[]), [TakeClaim(worker, t.now, t.now)];
    var claimed, k := row.(gen := row.gen + 1), Took(row, t.now);
    ClaimIsARun(s, row, worker, t.now);
    var rest := AdvanceIsARun(s, sky, Limit(t.maxNodes), claimed, worker, k);
    RunsJoin(s, w, claim, Alone(claimed, worker, k), rest, World(Ticked(Turns(s, sky), row, t), map[]));
    acts := claim + rest;
  }
}
