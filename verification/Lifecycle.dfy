/**
 * The life of an automation definition: drafts, the one active version, superseded versions, and the
 * pruning that keeps their number bounded (internal/automations/service.go).
 */
module Lifecycle {
  import opened Prelude
  import opened Graphs
  import opened Configs
  import opened Validation
  import opened WellFormed

  const MAX_VERSIONS: nat := 100

  const EMPTY_GRAPH: Graph := Graph([], [])

  datatype VersionStatus = Draft | Live | Superseded

  datatype Version = Version(number: nat, status: VersionStatus, graph: Graph)

  datatype Phase = New | Running | Paused | Archived

  /** The automation row and its version rows, by version id; `issued` are all ids ever handed out. */
  datatype State = State(phase: Phase, draft: Option<Id>, active: Option<Id>, versions: map<Id, Version>,
                         issued: set<Id>)

  datatype Op =
    | Clone(id: Id, enrolled: set<Id>)
    | PutGraph(id: Id, graph: Graph)
    | Activate(id: Id)
    | Pause
    | Resume
    | Archive

  predicate Is(s: State, id: Id, status: VersionStatus) { id in s.versions && s.versions[id].status == status }

  /** The number of the active version; zero before the first activation. */
  function Top(s: State): nat {
    if s.active.Some? && s.active.value in s.versions then s.versions[s.active.value].number else 0
  }

  // ---- The invariant ----

  /** The pointers name exactly the active version and, unless archived, the one draft. */
  ghost predicate Pointed(s: State) {
    && (s.active.Some? ==> Is(s, s.active.value, Live))
    && (forall v :: Is(s, v, Live) ==> s.active == Some(v))
    && (s.draft.Some? ==> Is(s, s.draft.value, Draft))
    && (forall v :: Is(s, v, Draft) && s.phase != Archived ==> s.draft == Some(v))
    && (s.phase in {Running, Paused} ==> s.active.Some?)
  }

  /** Numbers are unique; a draft is one above the active version, superseded ones are below it. */
  ghost predicate Numbered(s: State) {
    && (forall v :: Is(s, v, Draft) ==> s.versions[v].number == Top(s) + 1)
    && (forall v :: Is(s, v, Superseded) ==> s.active.Some? && s.versions[v].number < Top(s))
    && (forall v, w :: v in s.versions && w in s.versions && s.versions[v].number == s.versions[w].number ==> v == w)
  }

  /** Every version that is or was active passed validation. */
  ghost predicate Checked(passed: Graph -> bool, s: State) {
    forall v :: v in s.versions && s.versions[v].status != Draft ==> passed(s.versions[v].graph)
  }

  ghost predicate Orderly(s: State) {
    Pointed(s) && Numbered(s) && |s.versions| <= MAX_VERSIONS && s.versions.Keys <= s.issued
  }

  /** Whatever has been active keeps its number and graph for as long as it exists, and never becomes a draft again. */
  ghost predicate Frozen(a: State, b: State) {
    forall v :: v in a.versions && a.versions[v].status != Draft && v in b.versions ==>
      && b.versions[v].status != Draft
      && b.versions[v].graph == a.versions[v].graph && b.versions[v].number == a.versions[v].number
  }

  // ---- One step ----

  /** Superseded versions nobody was enrolled with. */
  predicate Removable(s: State, enrolled: set<Id>, v: Id) { Is(s, v, Superseded) && v !in enrolled }

  /** What pruning leaves: at most 99 versions, unless too few of them may go; the lowest numbers go first. */
  ghost predicate Pruned(s: State, enrolled: set<Id>, kept: map<Id, Version>) {
    && kept.Keys <= s.versions.Keys
    && (forall v :: v in kept ==> kept[v] == s.versions[v])
    && (forall v :: v in s.versions && v !in kept ==> Removable(s, enrolled, v))
    && (forall v, w :: v in s.versions && v !in kept && w in kept && Removable(s, enrolled, w) ==>
          s.versions[v].number <= s.versions[w].number)
    && (kept != s.versions ==> |kept| >= MAX_VERSIONS - 1)
    && (|kept| >= MAX_VERSIONS ==> forall v :: v in kept ==> !Removable(s, enrolled, v))
  }

  /** Pruning makes room exactly when there was room or something may go. */
  lemma PruningMakesRoom(s: State, enrolled: set<Id>, kept: map<Id, Version>)
    requires Pruned(s, enrolled, kept) && |s.versions| <= MAX_VERSIONS
    ensures |kept| < MAX_VERSIONS <==> |s.versions| < MAX_VERSIONS || exists v :: Removable(s, enrolled, v)
  {
    SubsetSize(kept.Keys, s.versions.Keys);
    assert |kept.Keys| == |kept| && |s.versions.Keys| == |s.versions|;
    if kept.Keys == s.versions.Keys {
      assert kept == s.versions;
    } else {
      var v :| v in s.versions && v !in kept;
      assert Removable(s, enrolled, v);
    }
  }

  function Cloned(s: State, id: Id, kept: map<Id, Version>, graph: Graph): State {
    s.(draft := Some(id), versions := kept[id := Version(Top(s) + 1, Draft, graph)], issued := s.issued + {id})
  }

  /** A write of a draft's graph may rest on a read of the pointers made earlier; only the status is checked with it. */
  ghost predicate Step(passed: Graph -> bool, a: State, op: Op, b: State) {
    match op
    case Clone(id, enrolled) =>
      && a.phase != Archived && a.draft.None? && a.active.Some? && a.active.value in a.versions
      && id !in a.issued
      && exists kept: map<Id, Version> ::
           && Pruned(a, enrolled, kept) && |kept| < MAX_VERSIONS && a.active.value in kept
           && b == Cloned(a, id, kept, kept[a.active.value].graph)
    case PutGraph(id, graph) =>
      && Is(a, id, Draft)
      && b == a.(versions := a.versions[id := a.versions[id].(graph := graph)])
    case Activate(id) =>
      && a.phase != Archived && a.draft == Some(id) && Is(a, id, Draft) && passed(a.versions[id].graph)
      && b == State(Running, None, Some(id), Promoted(a, id), a.issued)
    case Pause => a.phase == Running && b == a.(phase := Paused)
    case Resume => a.phase == Paused && b == a.(phase := Running)
    case Archive => a.phase != Archived && b == a.(phase := Archived, draft := None)
  }

  function Retired(s: State): map<Id, Version> {
    if s.active.Some? && s.active.value in s.versions
    then s.versions[s.active.value := s.versions[s.active.value].(status := Superseded)]
    else s.versions
  }

  function Promoted(s: State, id: Id): map<Id, Version>
    requires id in s.versions
  {
    Retired(s)[id := s.versions[id].(status := Live)]
  }

  // ---- Every step keeps the invariant ----

  /** Some of the versions, unchanged. */
  ghost predicate Among(kept: map<Id, Version>, s: State) {
    kept.Keys <= s.versions.Keys && forall v :: v in kept ==> kept[v] == s.versions[v]
  }

  /** Pruning never takes the active version. */
  lemma PruningKeepsActive(s: State, enrolled: set<Id>, kept: map<Id, Version>)
    requires Pruned(s, enrolled, kept) && s.active.Some? && Is(s, s.active.value, Live)
    ensures Among(kept, s) && s.active.value in kept
  {
    assert !Removable(s, enrolled, s.active.value);
  }

  lemma CloneKeeps(a: State, id: Id, kept: map<Id, Version>, graph: Graph)
    requires Orderly(a) && a.phase != Archived && a.draft.None? && a.active.Some? && id !in a.issued
    requires Among(kept, a) && a.active.value in kept && |kept| < MAX_VERSIONS
    ensures var b := Cloned(a, id, kept, graph); Orderly(b) && Frozen(a, b)
  {
    var b := Cloned(a, id, kept, graph);
    forall v | v in a.versions
      ensures a.versions[v].status != Draft && a.versions[v].number <= Top(a)
    {
      assert Is(a, v, a.versions[v].status);
    }
    assert Top(b) == Top(a);
    CloneIsPointed(a, id, kept, b);
    CloneIsNumbered(a, id, kept, b);
  }

  lemma CloneIsPointed(a: State, id: Id, kept: map<Id, Version>, b: State)
    requires Pointed(a) && a.active.Some? && a.active.value in kept && id !in a.versions
    requires forall v :: v in a.versions ==> a.versions[v].status != Draft
    requires Among(kept, a)
    requires b.draft == Some(id) && b.active == a.active && b.phase == a.phase
    requires b.versions.Keys == kept.Keys + {id} && b.versions[id].status == Draft
    requires forall v :: v in kept ==> b.versions[v] == kept[v]
    ensures Pointed(b)
  {
    forall v | v in b.versions && v != id
      ensures Is(b, v, b.versions[v].status) && Is(a, v, b.versions[v].status) && b.versions[v].status != Draft
    {
    }
  }

  /** No two versions of a clone share a number: the old ones did not, and the new one is above them. */
  lemma CloneNumbersDiffer(a: State, id: Id, kept: map<Id, Version>, b: State, v: Id, w: Id)
    requires forall u, t ::
               u in a.versions && t in a.versions && a.versions[u].number == a.versions[t].number ==> u == t
    requires forall u :: u in a.versions ==> a.versions[u].number <= Top(a)
    requires Among(kept, a) && b.versions.Keys == kept.Keys + {id} && b.versions[id].number == Top(a) + 1
    requires forall u :: u in kept && u != id ==> b.versions[u] == kept[u]
    requires v in b.versions && w in b.versions && b.versions[v].number == b.versions[w].number
    ensures v == w
  {
    assert (v != id ==> b.versions[v] == a.versions[v]) && (w != id ==> b.versions[w] == a.versions[w]);
    if v != id && w != id {
      assert a.versions[v].number == a.versions[w].number;
    }
  }

  lemma CloneIsNumbered(a: State, id: Id, kept: map<Id, Version>, b: State)
    requires Numbered(a) && Top(b) == Top(a) && b.active == a.active && id !in a.versions
    requires forall v :: v in a.versions ==> a.versions[v].status != Draft && a.versions[v].number <= Top(a)
    requires Among(kept, a)
    requires b.versions.Keys == kept.Keys + {id}
    requires b.versions[id].number == Top(a) + 1 && b.versions[id].status == Draft
    requires forall v :: v in kept ==> b.versions[v] == kept[v]
    ensures Numbered(b)
  {
    forall v, w | v in b.versions && w in b.versions && b.versions[v].number == b.versions[w].number
      ensures v == w
    {
      CloneNumbersDiffer(a, id, kept, b, v, w);
    }
    forall v | Is(b, v, Superseded)
      ensures b.active.Some? && b.versions[v].number < Top(b)
    {
      assert Is(a, v, Superseded);
    }
  }

  lemma PutGraphKeeps(a: State, id: Id, graph: Graph)
    requires Orderly(a) && Is(a, id, Draft)
    ensures var b := a.(versions := a.versions[id := a.versions[id].(graph := graph)]);
            Orderly(b) && Frozen(a, b)
  {
    var b := a.(versions := a.versions[id := a.versions[id].(graph := graph)]);
    assert b.versions.Keys == a.versions.Keys;
    assert Top(b) == Top(a);
  }

  /** What an activation changes: the draft becomes active, the active version superseded, nothing else. */
  ghost predicate PromotedAs(a: State, id: Id, b: State) {
    && b.versions.Keys == a.versions.Keys && b.issued == a.issued && id in a.versions
    && b.active == Some(id) && b.draft.None? && b.phase == Running
    && (forall v :: v in b.versions ==>
          b.versions[v] == a.versions[v].(status := if v == id then Live
                                                    else if a.active == Some(v) then Superseded
                                                    else a.versions[v].status))
  }

  /** Before it, the draft is alone with its number and everything else is lower. */
  lemma DraftIsTop(a: State, id: Id, v: Id)
    requires Orderly(a) && Is(a, id, Draft) && v in a.versions && v != id
    ensures a.versions[v].status != Draft && a.versions[v].number <= Top(a) < a.versions[id].number
  {
    assert Is(a, v, a.versions[v].status);
  }

  lemma PromotedIsPointed(a: State, id: Id, b: State)
    requires Pointed(a) && Is(a, id, Draft) && PromotedAs(a, id, b)
    requires forall v :: v in a.versions && v != id ==> a.versions[v].status != Draft
    ensures Pointed(b)
  {
    forall v | v in b.versions && v != id
      ensures b.versions[v].status == Superseded
    {
      assert Is(a, v, a.versions[v].status);
    }
  }

  lemma PromotedIsNumbered(a: State, id: Id, b: State)
    requires Numbered(a) && PromotedAs(a, id, b)
    requires forall v :: v in a.versions && v != id ==>
               a.versions[v].status != Draft && a.versions[v].number < a.versions[id].number
    ensures Numbered(b)
  {
    assert Top(b) == a.versions[id].number;
  }

  lemma ActivateKeeps(a: State, id: Id)
    requires Orderly(a) && a.phase != Archived && a.draft == Some(id) && Is(a, id, Draft)
    ensures var b := State(Running, None, Some(id), Promoted(a, id), a.issued); Orderly(b) && Frozen(a, b)
  {
    var b := State(Running, None, Some(id), Promoted(a, id), a.issued);
    assert PromotedAs(a, id, b);
    forall v | v in a.versions && v != id
      ensures a.versions[v].status != Draft && a.versions[v].number < a.versions[id].number
    {
      DraftIsTop(a, id, v);
    }
    PromotedIsPointed(a, id, b);
    PromotedIsNumbered(a, id, b);
    assert |b.versions.Keys| == |a.versions.Keys|;
  }

  /** Pausing, resuming and archiving touch no version. */
  lemma PhaseKeeps(a: State, b: State)
    requires Orderly(a) && b == a.(phase := b.phase, draft := b.draft)
    requires b.draft == a.draft || (b.phase == Archived && b.draft.None?)
    requires b.phase in {Running, Paused} ==> a.phase in {Running, Paused}
    requires b.phase != Archived ==> a.phase != Archived
    ensures Orderly(b) && Frozen(a, b)
  {
  }

  lemma StepShapes(passed: Graph -> bool, a: State, op: Op, b: State)
    requires Orderly(a) && Step(passed, a, op, b)
    ensures Orderly(b) && Frozen(a, b)
  {
    hide Orderly, Frozen, Pruned, Cloned, Promoted;
    match op
    case Clone(id, enrolled) =>
      var kept: map<Id, Version> :|
        && Pruned(a, enrolled, kept) && |kept| < MAX_VERSIONS && a.active.value in kept
        && b == Cloned(a, id, kept, kept[a.active.value].graph);
      CloneShapes(a, id, enrolled, kept);
    case PutGraph(id, graph) => PutGraphKeeps(a, id, graph);
    case Activate(id) => ActivateKeeps(a, id);
    case Pause => PhaseKeeps(a, b);
    case Resume => PhaseKeeps(a, b);
    case Archive => PhaseKeeps(a, b);
  }

  lemma CloneShapes(a: State, id: Id, enrolled: set<Id>, kept: map<Id, Version>)
    requires Orderly(a) && a.phase != Archived && a.draft.None? && a.active.Some? && id !in a.issued
    requires Pruned(a, enrolled, kept) && |kept| < MAX_VERSIONS && a.active.value in kept
    ensures var b := Cloned(a, id, kept, kept[a.active.value].graph); Orderly(b) && Frozen(a, b)
  {
    PruningKeepsActive(a, enrolled, kept);
    CloneKeeps(a, id, kept, kept[a.active.value].graph);
  }

  lemma CloneChecks(passed: Graph -> bool, a: State, id: Id, kept: map<Id, Version>, graph: Graph)
    requires Checked(passed, a) && Among(kept, a)
    ensures Checked(passed, Cloned(a, id, kept, graph))
  {
  }

  lemma ActivateChecks(passed: Graph -> bool, a: State, id: Id)
    requires Checked(passed, a) && id in a.versions && passed(a.versions[id].graph)
    requires a.active.Some? ==> Is(a, a.active.value, Live)
    ensures Checked(passed, State(Running, None, Some(id), Promoted(a, id), a.issued))
  {
  }

  /** Only an activation, which validates, makes a version more than a draft. */
  lemma StepChecks(passed: Graph -> bool, a: State, op: Op, b: State)
    requires Orderly(a) && Checked(passed, a) && Step(passed, a, op, b)
    ensures Checked(passed, b)
  {
    hide Pruned, Cloned, Promoted, Numbered;
    match op
    case Clone(id, enrolled) =>
      var kept: map<Id, Version> :|
        && Pruned(a, enrolled, kept) && |kept| < MAX_VERSIONS && a.active.value in kept
        && b == Cloned(a, id, kept, kept[a.active.value].graph);
      PruningKeepsActive(a, enrolled, kept);
      CloneChecks(passed, a, id, kept, kept[a.active.value].graph);
    case Activate(id) => ActivateChecks(passed, a, id);
    case _ =>
  }

  /** What each operation changes, by pointer and version; everything else is as it was. */
  ghost predicate Effects(a: State, op: Op, b: State) {
    match op
    case Clone(id, enrolled) =>
      && b.phase == a.phase && b.active == a.active && b.draft == Some(id) && b.issued == a.issued + {id}
      && a.active.Some? && a.active.value in a.versions && id in b.versions
      && b.versions[id].graph == a.versions[a.active.value].graph && b.versions[id].status == Draft
      && b.versions[id].number == a.versions[a.active.value].number + 1
      && (forall v :: v in b.versions && v != id ==> v in a.versions && b.versions[v] == a.versions[v])
      && (forall v :: v in a.versions && v !in b.versions ==> Removable(a, enrolled, v))
    case PutGraph(id, graph) =>
      && b == a.(versions := b.versions) && b.versions.Keys == a.versions.Keys
      && (forall v :: v in b.versions ==>
            b.versions[v] == if v == id then a.versions[v].(graph := graph) else a.versions[v])
    case Activate(id) => PromotedAs(a, id, b)
    case Pause => a.phase == Running && b == a.(phase := Paused)
    case Resume => a.phase == Paused && b == a.(phase := Running)
    case Archive => b == a.(phase := Archived, draft := None)
  }

  lemma CloneEffects(a: State, id: Id, enrolled: set<Id>, kept: map<Id, Version>)
    requires a.versions.Keys <= a.issued && id !in a.issued && a.active.Some? && a.active.value in kept
    requires Pruned(a, enrolled, kept)
    ensures Effects(a, Op.Clone(id, enrolled), Cloned(a, id, kept, kept[a.active.value].graph))
  {
  }

  lemma StepEffects(passed: Graph -> bool, a: State, op: Op, b: State)
    requires Orderly(a) && Step(passed, a, op, b)
    ensures Effects(a, op, b)
  {
    assert a.versions.Keys <= a.issued;
    hide Orderly, Pruned, Cloned;
    match op
    case Clone(id, enrolled) =>
      var kept: map<Id, Version> :|
        && Pruned(a, enrolled, kept) && |kept| < MAX_VERSIONS && a.active.value in kept
        && b == Cloned(a, id, kept, kept[a.active.value].graph);
      CloneEffects(a, id, enrolled, kept);
    case _ =>
  }

  // ---- Runs ----

  function Created(id: Id): State {
    State(New, Some(id), None, map[id := Version(1, Draft, EMPTY_GRAPH)], {id})
  }

  ghost predicate Runs(passed: Graph -> bool, a: State, ops: seq<Op>, b: State)
    decreases ops
  {
    if ops == [] then a == b
    else exists mid :: Step(passed, a, ops[0], mid) && Runs(passed, mid, ops[1..], b)
  }

  /** Every later state is sound too, and what was active when the run began is as it was. */
  lemma {:induction false} RunKeeps(passed: Graph -> bool, a: State, ops: seq<Op>, b: State)
    requires Orderly(a) && Checked(passed, a) && Runs(passed, a, ops, b)
    ensures Orderly(b) && Checked(passed, b)
    decreases ops
  {
    if ops != [] {
      var mid :| Step(passed, a, ops[0], mid) && Runs(passed, mid, ops[1..], b);
      StepShapes(passed, a, ops[0], mid);
      StepChecks(passed, a, ops[0], mid);
      RunKeeps(passed, mid, ops[1..], b);
    }
  }

  lemma GoneStepsGone(passed: Graph -> bool, a: State, op: Op, b: State, v: Id)
    requires Step(passed, a, op, b) && v in a.issued && v !in a.versions
    ensures v in b.issued && v !in b.versions
  {
  }

  lemma {:induction false} GoneStaysGone(passed: Graph -> bool, a: State, ops: seq<Op>, b: State, v: Id)
    requires Runs(passed, a, ops, b) && v in a.issued && v !in a.versions
    ensures v !in b.versions
    decreases ops
  {
    hide Step;
    if ops != [] {
      var mid :| Step(passed, a, ops[0], mid) && Runs(passed, mid, ops[1..], b);
      GoneStepsGone(passed, a, ops[0], mid, v);
      GoneStaysGone(passed, mid, ops[1..], b, v);
    }
  }

  /** The graph of a version that has ever been active never changes, whatever happens afterwards. */
  lemma {:induction false} ActivatedIsFrozen(passed: Graph -> bool, a: State, ops: seq<Op>, b: State, v: Id)
    requires Orderly(a) && Runs(passed, a, ops, b)
    requires v in a.versions && a.versions[v].status != Draft && v in b.versions
    ensures b.versions[v].status != Draft
    ensures b.versions[v].graph == a.versions[v].graph && b.versions[v].number == a.versions[v].number
    decreases ops
  {
    if ops != [] {
      var mid :| Step(passed, a, ops[0], mid) && Runs(passed, mid, ops[1..], b);
      StepShapes(passed, a, ops[0], mid);
      if v in mid.versions {
        ActivatedIsFrozen(passed, mid, ops[1..], b, v);
      } else {
        StepIssues(passed, a, ops[0], mid);
        GoneStaysGone(passed, mid, ops[1..], b, v);
      }
    }
  }

  lemma StepIssues(passed: Graph -> bool, a: State, op: Op, b: State)
    requires Step(passed, a, op, b)
    ensures a.issued <= b.issued
  {
  }

  // ---- The service ----

  /** It passed validation against the references of some moment. */
  ghost predicate Passed(lib: Library, graph: Graph) {
    exists refs :: IsWellFormed(graph, refs, lib)
  }

  ghost function Passing(lib: Library): Graph -> bool { graph => Passed(lib, graph) }

  method Lowest(versions: map<Id, Version>, candidates: set<Id>) returns (v: Id)
    requires candidates != {} && candidates <= versions.Keys
    ensures v in candidates && forall w :: w in candidates ==> versions[v].number <= versions[w].number
  {
    v :| v in candidates;
    var rest := candidates;
    while rest != {}
      invariant v in candidates && rest <= candidates
      invariant forall w :: w in candidates - rest ==> versions[v].number <= versions[w].number
      decreases |rest|
    {
      var w :| w in rest;
      if versions[w].number < versions[v].number { v := w; }
      rest := rest - {w};
    }
  }

  /** Pruning under way: `removable` is what may still go, and nothing in it is lower than what went. */
  ghost predicate Pruning(s: State, enrolled: set<Id>, kept: map<Id, Version>, removable: set<Id>) {
    && Among(kept, s)
    && (forall v :: v in removable <==> v in kept && Removable(s, enrolled, v))
    && (forall v :: v in s.versions && v !in kept ==> Removable(s, enrolled, v) && NoneLower(s, removable, v))
    && (kept != s.versions ==> |kept| >= MAX_VERSIONS - 1)
  }

  ghost predicate NoneLower(s: State, removable: set<Id>, v: Id)
    requires v in s.versions
  {
    forall w :: w in removable && w in s.versions ==> s.versions[v].number <= s.versions[w].number
  }

  lemma PruningGrows(s: State, enrolled: set<Id>, kept: map<Id, Version>, removable: set<Id>, v: Id)
    requires Pruning(s, enrolled, kept, removable) && |kept| > MAX_VERSIONS - 1
    requires v in removable && forall w :: w in removable ==> w in kept && kept[v].number <= kept[w].number
    ensures Pruning(s, enrolled, kept - {v}, removable - {v})
  {
    var rest, left := kept - {v}, removable - {v};
    assert rest.Keys == kept.Keys - {v};
    assert |rest.Keys| == |kept.Keys| - 1;
    forall u | u in s.versions && u !in rest
      ensures Removable(s, enrolled, u) && NoneLower(s, left, u)
    {
      if u != v {
        assert NoneLower(s, removable, u);
      }
    }
  }

  lemma PruningEnds(s: State, enrolled: set<Id>, kept: map<Id, Version>, removable: set<Id>)
    requires Pruning(s, enrolled, kept, removable) && (|kept| <= MAX_VERSIONS - 1 || removable == {})
    ensures Pruned(s, enrolled, kept)
  {
    forall v, w | v in s.versions && v !in kept && w in kept && Removable(s, enrolled, w)
      ensures s.versions[v].number <= s.versions[w].number
    {
      assert NoneLower(s, removable, v);
    }
  }

  /** One automation with its versions, as the service updates them inside its transactions. */
  class Automation {
    const lib: Library
    var phase: Phase
    var draft: Option<Id>
    var active: Option<Id>
    var versions: map<Id, Version>
    ghost var issued: set<Id>

    ghost function Value(): State
      reads this
    {
      State(phase, draft, active, versions, issued)
    }

    /** What every call did: one step when it succeeded, nothing when it conflicted. */
    twostate predicate Did(ok: bool, op: Op)
      reads this
    {
      && Orderly(Value())
      && if ok then Step(Passing(lib), old(Value()), op, Value()) && Effects(old(Value()), op, Value())
         else Value() == old(Value())
    }

    constructor (id: Id, lib: Library)
      ensures Value() == Created(id) && Orderly(Value()) && this.lib == lib
    {
      this.lib := lib;
      phase, draft, active := New, Some(id), None;
      versions := map[id := Version(1, Draft, EMPTY_GRAPH)];
      issued := {id};
    }

    method Prune(enrolled: set<Id>)
      requires Orderly(Value())
      modifies this`versions
      ensures Pruned(old(Value()), enrolled, versions)
    {
      var removable := set v | v in versions && versions[v].status == Superseded && v !in enrolled;
      while |versions| > MAX_VERSIONS - 1 && removable != {}
        invariant Pruning(old(Value()), enrolled, versions, removable)
        decreases |removable|
      {
        var v := Lowest(versions, removable);
        PruningGrows(old(Value()), enrolled, versions, removable, v);
        versions, removable := versions - {v}, removable - {v};
      }
      PruningEnds(old(Value()), enrolled, versions, removable);
    }

    method Clone(id: Id, enrolled: set<Id>) returns (ok: bool)
      requires Orderly(Value()) && id !in issued
      modifies this
      ensures Did(ok, Op.Clone(id, enrolled))
      ensures ok <==> old(phase) != Archived && old(draft).None? && old(active).Some?
                      && (|old(versions)| < MAX_VERSIONS || exists v :: Removable(old(Value()), enrolled, v))
    {
      if phase == Archived || draft.Some? || active.None? { return false; }
      var before := versions;
      Prune(enrolled);
      PruningMakesRoom(old(Value()), enrolled, versions);
      PruningKeepsActive(old(Value()), enrolled, versions);
      if |versions| >= MAX_VERSIONS {
        versions := before;
        return false;
      }
      ghost var kept := versions;
      versions := versions[id := Version(versions[active.value].number + 1, Draft, versions[active.value].graph)];
      draft := Some(id);
      issued := issued + {id};
      assert Value() == Cloned(old(Value()), id, kept, kept[active.value].graph);
      StepShapes(Passing(lib), old(Value()), Op.Clone(id, enrolled), Value());
      StepEffects(Passing(lib), old(Value()), Op.Clone(id, enrolled), Value());
      return true;
    }

    method PutGraph(id: Id, graph: Graph) returns (ok: bool)
      requires Orderly(Value())
      modifies this`versions
      ensures Did(ok, Op.PutGraph(id, graph))
      ensures ok <==> old(draft) == Some(id)
    {
      if draft != Some(id) { return false; }
      versions := versions[id := versions[id].(graph := graph)];
      StepShapes(Passing(lib), old(Value()), Op.PutGraph(id, graph), Value());
      StepEffects(Passing(lib), old(Value()), Op.PutGraph(id, graph), Value());
      return true;
    }

    method Activate(id: Id, refs: References) returns (ok: bool, issues: seq<Issue>)
      requires Orderly(Value())
      modifies this
      ensures Did(ok, Op.Activate(id))
      ensures ok <==> old(phase) != Archived && old(draft) == Some(id)
                      && IsWellFormed(old(versions)[id].graph, refs, lib)
    {
      issues := [];
      if phase == Archived || draft != Some(id) { return false, issues; }
      ok, issues := ValidateInTenant(versions[id].graph, refs, lib);
      if !ok { return; }
      assert Passed(lib, versions[id].graph);
      if active.Some? {
        versions := versions[active.value := versions[active.value].(status := Superseded)];
      }
      versions := versions[id := versions[id].(status := Live)];
      phase, active, draft := Running, Some(id), None;
      StepShapes(Passing(lib), old(Value()), Op.Activate(id), Value());
      StepEffects(Passing(lib), old(Value()), Op.Activate(id), Value());
    }

    method Pause() returns (ok: bool)
      requires Orderly(Value())
      modifies this`phase
      ensures Did(ok, Op.Pause)
      ensures ok <==> old(phase) == Running
    {
      ok := phase == Running;
      if ok { phase := Paused; }
    }

    method Resume() returns (ok: bool)
      requires Orderly(Value())
      modifies this`phase
      ensures Did(ok, Op.Resume)
      ensures ok <==> old(phase) == Paused
    {
      ok := phase == Paused;
      if ok { phase := Running; }
    }

    method Archive() returns (ok: bool)
      requires Orderly(Value())
      modifies this`phase, this`draft
      ensures Did(ok, Op.Archive)
      ensures ok <==> old(phase) != Archived
    {
      ok := phase != Archived;
      if ok { phase, draft := Archived, None; }
    }
  }

  /**
   * Over every run of the service: one active version at most, the one pointed to; unique numbers with
   * the draft one above the active version; at most a hundred versions; and everything that is or was
   * active passed validation.
   */
  lemma {:induction false} EveryRunIsOrderly(lib: Library, id: Id, ops: seq<Op>, s: State)
    requires Runs(Passing(lib), Created(id), ops, s)
    ensures Pointed(s) && Numbered(s) && |s.versions| <= MAX_VERSIONS
    ensures forall v, w :: Is(s, v, Live) && Is(s, w, Live) ==> v == w
    ensures forall v :: v in s.versions && s.versions[v].status != Draft ==> Passed(lib, s.versions[v].graph)
  {
    RunKeeps(Passing(lib), Created(id), ops, s);
    forall v | v in s.versions && s.versions[v].status != Draft
      ensures Passed(lib, s.versions[v].graph)
    {
      assert Passing(lib)(s.versions[v].graph);
    }
  }
}
