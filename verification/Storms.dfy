/**
 * When node budgets matter: a turn that rolls back takes the earlier turns of its tick with it, so a
 * large tick keeps losing what a small one would have committed. That is the only way.
 */
module Storms {
  import opened Prelude
  import opened Graphs
  import opened Configs
  import opened WellFormed
  import opened Engine
  import opened Trails
  import opened Enrollments
  import opened Progress
  import opened Witness

  /**
   * A tick large enough to reach the second turn loses the first when the second rolls back; a tick of one
   * node keeps it.
   */
  lemma RollbacksUndoTheTick(turn: Turning, row: Row, large: int, now: int)
    requires Limit(large) >= 2
    requires var v := Next(turn, row.(gen := row.gen + 1), now);
             v.Continue? && turn(v.row, Claim(row.gen + 1, 0), v.next, now).Abort?
    ensures var claimed := row.(gen := row.gen + 1);
            && Ticked(turn, row, Tick(large, now)) == claimed
            && Ticked(turn, row, Tick(1, now)) == Next(turn, claimed, now).row
  {
    var claimed := row.(gen := row.gen + 1);
    var v := Next(turn, claimed, now);
    var claim := Claim(row.gen + 1, 0);
    assert Advance(turn, Limit(large) - 1, v.row, claim, v.next, now) == None;
    assert Advance(turn, 0, v.row, claim, v.next, now) == Some(v.row);
  }

  /** All long enough sequences of ticks leave the same row, whatever their budgets and times. */
  ghost predicate BudgetsAgree(turn: Turning, row: Row, enough: nat) {
    forall a, b :: |a| >= enough && |b| >= enough ==> Same(AllTicks(turn, row, a), AllTicks(turn, row, b))
  }

  /** Some number of ticks of this many nodes. */
  function Steps(count: nat, maxNodes: int): seq<Tick> { seq(count, _ => Tick(maxNodes, 0)) }

  lemma {:induction false} TicksJoin(turn: Turning, row: Row, a: seq<Tick>, b: seq<Tick>)
    ensures AllTicks(turn, row, a + b) == AllTicks(turn, AllTicks(turn, row, a), b)
    decreases |a|
  {
    if a == [] {
      assert a + b == b;
    } else if row.status == Active {
      assert (a + b)[1..] == a[1..] + b;
      TicksJoin(turn, Ticked(turn, row, a[0]), a[1..], b);
    }
  }

  /** Ticks of one node are the moves of the walk. */
  lemma {:induction false} SmallTicksWalk(turn: Turning, alive: Row -> bool, budget: Row -> int, row: Row, base: Row,
                                          count: nat)
    requires Steady(turn, alive, budget) && alive(row) && alive(base) && Same(row, base)
    ensures alive(AllTicks(turn, row, Steps(count, 1))) && alive(Walked(turn, base, count))
    ensures Same(AllTicks(turn, row, Steps(count, 1)), Walked(turn, base, count))
    decreases count
  {
    if count > 0 && row.status == Active {
      assert Steps(count, 1)[1..] == Steps(count - 1, 1);
      var one := TickIsWalked(turn, alive, budget, row, base, Tick(1, 0));
      SmallTicksWalk(turn, alive, budget, Ticked(turn, row, Tick(1, 0)), Walked(turn, base, 1), count - 1);
      WalkedAdds(turn, base, 1, count - 1);
    }
  }

  /** A tick of two nodes loses the first when the second rolls back. */
  lemma LargeTickLoses(turn: Turning, alive: Row -> bool, budget: Row -> int, row: Row, base: Row)
    requires Steady(turn, alive, budget) && alive(row) && alive(base) && Same(row, base) && LosesAt(turn, base, 0)
    ensures Ticked(turn, row, Tick(2, 0)) == row.(gen := row.gen + 1)
  {
    var claimed := row.(gen := row.gen + 1);
    assert alive(claimed);
    var v, w := Next(turn, claimed, 0), Next(turn, base, 0);
    assert MovesAt(turn, alive, budget, claimed, 0) && MovesAt(turn, alive, budget, base, 0);
    assert RepeatsAt(turn, alive, claimed, base, 0, 0);
    assert RepeatsAt(turn, alive, v.row, w.row, 0, 0);
    assert Advance(turn, 1, v.row, Claimed(v.row), Here(v.row), 0) == None;
  }

  lemma {:induction false} LargeTicksStay(turn: Turning, alive: Row -> bool, budget: Row -> int, row: Row, base: Row,
                                          count: nat)
    requires Steady(turn, alive, budget) && alive(row) && alive(base) && Same(row, base) && LosesAt(turn, base, 0)
    ensures Same(AllTicks(turn, row, Steps(count, 2)), base)
    decreases count
  {
    if count > 0 {
      var next := row.(gen := row.gen + 1);
      assert alive(next);
      assert Steps(count, 2)[1..] == Steps(count - 1, 2);
      LargeTickLoses(turn, alive, budget, row, base);
      LargeTicksStay(turn, alive, budget, next, base, count - 1);
    }
  }

  /** After a loss the walk stays at the turn that rolls back. */
  lemma LossStalls(turn: Turning, row: Row, m: nat, n: nat)
    requires LosesAt(turn, row, m)
    ensures var x := Walked(turn, row, m);
            LosesAt(turn, x, 0) && Walked(turn, row, m + (1 + n)) == Next(turn, x, 0).row
  {
    var x := Walked(turn, row, m);
    WalkedAdds(turn, row, m, 0);
    WalkedAdds(turn, row, m, 1);
    WalkedAdds(turn, row, m, 1 + n);
    WalkedAdds(turn, x, 1, n);
    assert Walked(turn, Next(turn, x, 0).row, 0) == Next(turn, x, 0).row;
  }

  lemma SmallTicksPass(turn: Turning, alive: Row -> bool, budget: Row -> int, row: Row, enough: nat, m: nat)
    requires Steady(turn, alive, budget) && alive(row) && LosesAt(turn, row, m)
    ensures Same(AllTicks(turn, row, Steps(m + (1 + enough), 1)), Next(turn, Walked(turn, row, m), 0).row)
  {
    LossStalls(turn, row, m, enough);
    SmallTicksWalk(turn, alive, budget, row, row, m + (1 + enough));
  }

  lemma LargeTicksDoNot(turn: Turning, alive: Row -> bool, budget: Row -> int, row: Row, enough: nat, m: nat)
    requires Steady(turn, alive, budget) && alive(row) && LosesAt(turn, row, m)
    ensures Same(AllTicks(turn, row, Steps(m, 1) + Steps(enough, 2)), Walked(turn, row, m))
  {
    LossStalls(turn, row, m, 0);
    SmallTicksWalk(turn, alive, budget, row, row, m);
    TicksJoin(turn, row, Steps(m, 1), Steps(enough, 2));
    LargeTicksStay(turn, alive, budget, AllTicks(turn, row, Steps(m, 1)), Walked(turn, row, m), enough);
  }

  /** Where something is lost, small ticks get past it and large ones do not. */
  lemma LossMatters(turn: Turning, alive: Row -> bool, budget: Row -> int, row: Row, enough: nat, m: nat)
    requires Steady(turn, alive, budget) && alive(row) && LosesAt(turn, row, m)
    ensures !BudgetsAgree(turn, row, enough)
  {
    SmallTicksPass(turn, alive, budget, row, enough, m);
    LargeTicksDoNot(turn, alive, budget, row, enough, m);
    WalkedLives(turn, alive, budget, row, m);
    assert MovesAt(turn, alive, budget, Walked(turn, row, m), 0);
    assert !Same(AllTicks(turn, row, Steps(m + (1 + enough), 1)), AllTicks(turn, row, Steps(m, 1) + Steps(enough, 2)));
  }

  lemma LosslessAgrees(turn: Turning, alive: Row -> bool, budget: Row -> int, row: Row, enough: nat)
    requires Steady(turn, alive, budget) && alive(row) && budget(row) <= enough && Lossless(turn, row)
    ensures BudgetsAgree(turn, row, enough)
  {
    forall a, b | |a| >= enough && |b| >= enough
      ensures Same(AllTicks(turn, row, a), AllTicks(turn, row, b))
    {
      TicksEnd(turn, alive, budget, row, enough, a);
      TicksEnd(turn, alive, budget, row, enough, b);
    }
  }

  /** What is lost is lost early: once the walk has ended it goes nowhere. */
  lemma LossIsEarly(turn: Turning, alive: Row -> bool, budget: Row -> int, row: Row, enough: nat, m: nat)
    requires Steady(turn, alive, budget) && alive(row) && budget(row) <= enough && LosesAt(turn, row, m)
    ensures m < enough
  {
    WalkedEnds(turn, alive, budget, row, enough);
    if m >= enough {
      WalkedAdds(turn, row, enough, m - enough);
    }
  }

  /**
   * The node budgets and times of the ticks do not matter if and only if the walk never goes on from one
   * node to another whose turn rolls back. A rollback at the first node, or where the walk has just
   * parked or failed, undoes nothing.
   */
  lemma BudgetsAgreeIff(s: Setup, sky: Sky, now: int)
    requires IsWellFormed(s.g, s.refs, s.lib)
    ensures var start := Begun(s, now).row;
            BudgetsAgree(Turns(s, sky), start, Enough(s)) <==>
              !exists m: nat :: m < Enough(s) && LosesAt(Turns(s, sky), start, m)
  {
    var turn, start := Turns(s, sky), Begun(s, now).row;
    StartIsAlive(s, now);
    EngineIsSteady(s, sky);
    if m: nat :| LosesAt(turn, start, m) {
      LossIsEarly(turn, Living(s), Spending(s), start, Enough(s), m);
      LossMatters(turn, Living(s), Spending(s), start, Enough(s), m);
    } else {
      LosslessAgrees(turn, Living(s), Spending(s), start, Enough(s));
    }
  }

  // ---- A storm ----

  const SETUP: Setup := Setup(WELCOME, REFERENCES, LIBRARY, DEFAULT_MAX_ATTEMPTS)

  const FINE: Env :=
    Env(Ok(Snapshot(true, [])), None, None, Ok(Engaged(false, [])), Ok(false), Ok(false), None, true, true, true, false)

  /** The database goes away whenever the mail is about to be sent. */
  const STORM: Sky :=
    (id: Id, attempts: nat, waiting: bool) =>
      if id == Id("mail") then FINE.(snapshot := Err(Transient), databaseDown := true) else FINE

  lemma JoinIsFirst()
    ensures FindNode(WELCOME.nodes, Id("join")) == Some(JOIN) && FindNode(WELCOME.nodes, Id("mail")) == Some(MAIL)
  {
    IdsDiffer();
    var nodes := WELCOME.nodes;
    assert nodes[..2] == [JOIN, MAIL] && nodes[..2][..1] == [JOIN];
  }

  lemma JoinGoesOn(row: Row, claim: Claim, now: int)
    requires Fence(row, claim.gen, true) && row.steps == map[]
    ensures var v := Once(SETUP, STORM, row, claim, Id("join"), now);
            v.Continue? && v.next == Id("mail") && v.row.journal != row.journal && |v.row.journal| == |row.journal| + 1
  {
    JoinIsFirst();
    IdsDiffer();
    EdgesOf();
    assert NextNode([WELCOME.edges[0]], None) == Some(Id("mail"));
  }

  lemma MailRollsBack(row: Row, claim: Claim, now: int)
    ensures Once(SETUP, STORM, row, claim, Id("mail"), now).Abort?
  {
    JoinIsFirst();
  }

  lemma StormLoses()
    ensures !BudgetsAgree(Turns(SETUP, STORM), Enrolled(JOIN.id, 0), Enough(SETUP))
  {
    var turn, start := Turns(SETUP, STORM), Enrolled(JOIN.id, 0);
    WelcomeIsWellFormed();
    TriggersOf();
    StartIsAlive(SETUP, 0);
    EngineIsSteady(SETUP, STORM);
    assert Begun(SETUP, 0).row == start;
    JoinGoesOn(start, Claimed(start), 0);
    assert MovesAt(turn, Living(SETUP), Spending(SETUP), start, 0);
    var v := Next(turn, start, 0);
    assert v == Once(SETUP, STORM, start, Claimed(start), Id("join"), 0);
    MailRollsBack(v.row, Claimed(v.row), 0);
    assert Walked(turn, start, 0) == start && Walked(turn, v.row, 0) == v.row == Walked(turn, start, 1);
    assert LosesAt(turn, start, 0);
    LossMatters(turn, Living(SETUP), Spending(SETUP), start, Enough(SETUP), 0);
  }

  /** On a valid graph under such a sky, what is committed depends on the budget of the tick. */
  lemma BudgetsMatterInStorms(now: int, large: int)
    requires Limit(large) >= 2
    ensures var turn, start := Turns(SETUP, STORM), Enrolled(JOIN.id, 0);
            && Ticked(turn, start, Tick(large, now)).journal == []
            && |Ticked(turn, start, Tick(1, now)).journal| == 1
            && !BudgetsAgree(turn, start, Enough(SETUP))
  {
    var turn, start := Turns(SETUP, STORM), Enrolled(JOIN.id, 0);
    var claimed := start.(gen := start.gen + 1);
    JoinGoesOn(claimed, Claimed(claimed), now);
    var v := Next(turn, claimed, now);
    assert v == Once(SETUP, STORM, claimed, Claimed(claimed), Id("join"), now);
    MailRollsBack(v.row, Claim(start.gen + 1, 0), now);
    RollbacksUndoTheTick(turn, start, large, now);
    StormLoses();
  }
}
