/**
 * Refresh-token rotation of one Codex credential: readers that take a fresh access token without a
 * lock, refreshers that check again under the row lock, the sweep that skips locked rows, and
 * reconnects (internal/agents/credential_codex.go).
 */
module Codex {
  import opened Prelude

  const MAX_SWEEP: nat := 500

  /** A refresh token: the grant it stems from and its place in that grant's rotation. */
  datatype Token = Token(grant: nat, serial: nat)

  /** The stored columns; all three are cleared by a disconnect, only the first is set for a pasted token. */
  datatype Row = Row(access: Option<string>, refresh: Option<Token>, expiry: Option<int>)

  const CLEARED: Row := Row(None, None, None)

  /** What the authorization server answers to a refresh token; a success always brings a new one. */
  datatype Exchange = Rotated(token: Token, access: string, expiry: int) | InvalidGrant | Unavailable

  /** Still usable for longer than the margin. */
  predicate Fresh(row: Row, now: int, margin: int) {
    row.access.Some? && row.expiry.Some? && now < row.expiry.value - margin
  }

  predicate Pasted(row: Row) { row.access.Some? && row.refresh.None? && row.expiry.None? }

  /** What the sweep may claim. */
  predicate DueBy(row: Row, cutoff: int) {
    row.refresh.Some? && row.expiry.Some? && row.expiry.value < cutoff
  }

  function Applied(row: Row, e: Exchange): Row {
    match e
    case Rotated(token, access, expiry) => Row(Some(access), Some(token), Some(expiry))
    case InvalidGrant => CLEARED
    case Unavailable => row
  }

  /** Which columns an exchange leaves: its own tokens, none at all, or those that were there. */
  predicate Stores(before: Row, answer: Exchange, after: Row) {
    match answer
    case Rotated(token, access, expiry) =>
      after.access == Some(access) && after.refresh == Some(token) && after.expiry == Some(expiry)
    case InvalidGrant => after.access.None? && after.refresh.None? && after.expiry.None?
    case Unavailable => after == before
  }

  lemma AppliedStores(row: Row, answer: Exchange, after: Row)
    ensures after == Applied(row, answer) <==> Stores(row, answer, after)
  {
  }

  // ---- Interleavings ----

  /** A worker before its lock, or holding it with the token it presents and what came back. */
  datatype Phase = Waiting(sweep: bool) | Presenting(token: Token) | Answered(token: Token, answer: Exchange)

  datatype Reply = Access(text: string) | Disconnected | Failed

  /**
   * One credential: the row, who holds its lock, the workers, connects that have their token but have
   * not stored it, the newest serial issued per grant, the grants whose latest rotation was lost
   * with its transaction, the tokens whose exchange was committed, and how often one of those was presented.
   */
  datatype World = World(
    row: Row,
    lock: Option<nat>,
    workers: map<nat, Phase>,
    arriving: set<nat>,
    newest: map<nat, nat>,
    lost: set<nat>,
    spent: set<Token>,
    reused: nat)

  datatype Action =
    | Grant(grant: nat)
    | Connect(grant: nat, access: string, expiry: int)
    | Paste(access: string)
    | Mint(w: nat, now: int)
    | SweepDue(w: nat)
    | Lock(w: nat, now: int)
    | Answer(w: nat, answer: Exchange)
    | Commit(w: nat)
    | Rollback(w: nat)

  predicate Holds(w: World, k: nat) { w.lock == Some(k) && k in w.workers }

  predicate Enabled(w: World, a: Action) {
    match a
    case Grant(grant) => grant !in w.newest
    case Connect(grant, _, _) => w.lock.None? && grant in w.arriving
    case Paste(_) => w.lock.None?
    case Mint(k, _) => k !in w.workers
    case SweepDue(k) => k !in w.workers
    case Lock(k, _) => w.lock.None? && k in w.workers && w.workers[k].Waiting?
    case Answer(k, answer) =>
      && Holds(w, k) && w.workers[k].Presenting?
      && (answer.Rotated? ==>
            var g := w.workers[k].token.grant;
            g in w.newest && answer.token == Token(g, w.newest[g] + 1))
    case Commit(k) => Holds(w, k) && w.workers[k].Answered?
    case Rollback(k) => k in w.workers
  }

  function Presented(w: World, k: nat, token: Token): World {
    w.(lock := Some(k), workers := w.workers[k := Presenting(token)],
       reused := w.reused + if token in w.spent then 1 else 0)
  }

  function Ended(w: World, k: nat): World {
    w.(workers := w.workers - {k}, lock := if w.lock == Some(k) then None else w.lock)
  }

  /** The unlocked read of Mint: answered at once, or on to the lock. */
  function FastPath(row: Row, now: int, margin: int): Option<Reply> {
    if Pasted(row) || Fresh(row, now, margin) then Some(Access(row.access.value)) else None
  }

  /** Under the lock an empty access token reads as a disconnect. */
  function Told(access: string): Reply { if access == "" then Disconnected else Access(access) }

  /** The second look under the lock: None means the refresh token is presented. */
  function LockedPath(row: Row, now: int, margin: int): Option<Reply> {
    if Fresh(row, now, margin) then Some(Told(row.access.value))
    else if row.refresh.None? then Some(Disconnected)
    else None
  }

  function After(w: World, a: Action, margin: int): World
    requires Enabled(w, a)
  {
    match a
    case Grant(grant) => w.(newest := w.newest[grant := 0], arriving := w.arriving + {grant})
    case Connect(grant, access, expiry) =>
      w.(row := Row(Some(access), Some(Token(grant, 0)), Some(expiry)), arriving := w.arriving - {grant})
    case Paste(access) => w.(row := Row(Some(access), None, None))
    case Mint(k, now) => if FastPath(w.row, now, margin).Some? then w else w.(workers := w.workers[k := Waiting(false)])
    case SweepDue(k) => w.(workers := w.workers[k := Waiting(true)])
    case Lock(k, now) =>
      if w.workers[k].sweep then
        if DueBy(w.row, now) then Presented(w, k, w.row.refresh.value) else Ended(w, k)
      else if LockedPath(w.row, now, margin).Some? then Ended(w, k)
      else Presented(w, k, w.row.refresh.value)
    case Answer(k, answer) =>
      var token := w.workers[k].token;
      var told := w.(workers := w.workers[k := Answered(token, answer)]);
      if answer.Rotated? then told.(newest := w.newest[token.grant := answer.token.serial]) else told
    case Commit(k) =>
      var p := w.workers[k];
      var done := Ended(w.(row := Applied(w.row, p.answer)), k);
      if p.answer.Rotated? then done.(spent := w.spent + {p.token}, lost := w.lost - {p.token.grant}) else done
    case Rollback(k) =>
      var p := w.workers[k];
      if p.Answered? && p.answer.Rotated? then Ended(w.(lost := w.lost + {p.token.grant}), k) else Ended(w, k)
  }

  // ---- The invariant ----

  /** The holder presents what is stored, and what it was given in exchange is the newest of that grant. */
  ghost predicate GoodHolder(w: World) {
    && (forall k :: k in w.workers && !w.workers[k].Waiting? ==> w.lock == Some(k))
    && (w.lock.Some? ==>
          && w.lock.value in w.workers && !w.workers[w.lock.value].Waiting?
          && var p := w.workers[w.lock.value];
             && w.row.refresh == Some(p.token)
             && (p.Answered? && p.answer.Rotated? ==>
                   && p.answer.token.grant == p.token.grant && p.token.grant in w.newest
                   && p.token.serial < p.answer.token.serial == w.newest[p.token.grant]))
  }

  ghost predicate Rotating(w: World) {
    && w.lock.Some? && w.lock.value in w.workers
    && w.workers[w.lock.value].Answered? && w.workers[w.lock.value].answer.Rotated?
  }

  ghost predicate GoodRow(w: World) {
    w.row.refresh.Some? ==>
      var t := w.row.refresh.value;
      && t.grant in w.newest && t.grant !in w.arriving && t.serial <= w.newest[t.grant]
      && t !in w.spent
      && (!Rotating(w) ==> (t.serial == w.newest[t.grant] <==> t.grant !in w.lost))
  }

  ghost predicate Inv(w: World) {
    && GoodHolder(w) && GoodRow(w)
    && (forall t :: t in w.spent ==> t.grant in w.newest && t.serial < w.newest[t.grant] && t.grant !in w.arriving)
    && (forall g :: g in w.arriving ==> g in w.newest && w.newest[g] == 0 && g !in w.lost)
    && (forall g :: g in w.lost ==> g in w.newest)
    && w.reused == 0
  }

  lemma LockKeeps(w: World, k: nat, now: int, margin: int)
    requires Inv(w) && Enabled(w, Lock(k, now))
    ensures Inv(After(w, Lock(k, now), margin))
  {
  }

  lemma AnswerKeeps(w: World, k: nat, answer: Exchange, margin: int)
    requires Inv(w) && Enabled(w, Answer(k, answer))
    ensures Inv(After(w, Answer(k, answer), margin))
  {
  }

  lemma CommitKeeps(w: World, k: nat, margin: int)
    requires Inv(w) && Enabled(w, Commit(k))
    ensures Inv(After(w, Commit(k), margin))
  {
  }

  lemma RollbackKeeps(w: World, k: nat, margin: int)
    requires Inv(w) && Enabled(w, Rollback(k))
    ensures Inv(After(w, Rollback(k), margin))
  {
  }

  lemma StepKeeps(w: World, a: Action, margin: int)
    requires Inv(w) && Enabled(w, a)
    ensures Inv(After(w, a, margin))
  {
    match a
    case Lock(k, now) => LockKeeps(w, k, now, margin);
    case Answer(k, answer) => AnswerKeeps(w, k, answer, margin);
    case Commit(k) => CommitKeeps(w, k, margin);
    case Rollback(k) => RollbackKeeps(w, k, margin);
    case _ =>
  }

  // ---- Runs ----

  ghost predicate Runs(w: World, acts: seq<Action>, v: World, margin: int)
    decreases |acts|
  {
    if acts == [] then w == v else Enabled(w, acts[0]) && Runs(After(w, acts[0], margin), acts[1..], v, margin)
  }

  lemma {:induction false} RunKeeps(w: World, acts: seq<Action>, v: World, margin: int)
    requires Inv(w) && Runs(w, acts, v, margin)
    ensures Inv(v)
    decreases |acts|
  {
    if acts != [] {
      StepKeeps(w, acts[0], margin);
      RunKeeps(After(w, acts[0], margin), acts[1..], v, margin);
    }
  }

  lemma RunsBack(w: World, acts: seq<Action>, i: nat, v: World, margin: int)
    requires i < |acts| && Enabled(w, acts[i]) && Runs(After(w, acts[i], margin), acts[i + 1..], v, margin)
    ensures Runs(w, acts[i..], v, margin)
  {
    assert acts[i..][0] == acts[i] && acts[i..][1..] == acts[i + 1..];
  }

  const START: World := World(CLEARED, None, map[], {}, map[], {}, {}, 0)

  /**
   * In every interleaving of mints, sweeps, connects and rollbacks: a refresh token whose exchange was
   * committed is never presented again; and between rotations the stored token is the newest one its
   * grant was given, unless and only unless the latest rotation was lost with its transaction.
   */
  lemma RotationIsSafe(acts: seq<Action>, w: World, margin: int)
    requires Runs(START, acts, w, margin)
    ensures w.reused == 0
    ensures w.row.refresh.Some? ==> w.row.refresh.value !in w.spent
    ensures w.row.refresh.Some? && w.lock.None? ==>
              var t := w.row.refresh.value;
              t.grant in w.newest && (t.serial == w.newest[t.grant] <==> t.grant !in w.lost)
  {
    RunKeeps(START, acts, w, margin);
  }

  /** The holder with its answer, from a state without one. */
  function Exchanged(w: World, k: nat, answer: Exchange): World
    requires w.row.refresh.Some?
  {
    var token := w.row.refresh.value;
    var told := w.(lock := Some(k), workers := w.workers[k := Answered(token, answer)]);
    if answer.Rotated? then told.(newest := w.newest[token.grant := answer.token.serial]) else told
  }

  /** The token an authorization server may hand out for the stored one. */
  predicate Rotates(w: World, answer: Exchange) {
    answer.Rotated? && w.row.refresh.Some? ==>
      var g := w.row.refresh.value.grant;
      g in w.newest && answer.token == Token(g, w.newest[g] + 1)
  }

  /** A mint past both looks gets the lock, presents the stored token and has its answer. */
  lemma ExchangeLeads(w: World, k: nat, now: int, later: int, margin: int, answer: Exchange)
    returns (w1: World, w2: World)
    requires Inv(w) && w.lock.None? && k !in w.workers && Rotates(w, answer)
    requires FastPath(w.row, now, margin).None? && LockedPath(w.row, later, margin).None?
    ensures Enabled(w, Mint(k, now)) && After(w, Mint(k, now), margin) == w1
    ensures Enabled(w1, Lock(k, later)) && After(w1, Lock(k, later), margin) == w2
    ensures Enabled(w2, Answer(k, answer)) && After(w2, Answer(k, answer), margin) == Exchanged(w, k, answer)
  {
    w1 := w.(workers := w.workers[k := Waiting(false)]);
    w2 := w.(lock := Some(k), workers := w.workers[k := Presenting(w.row.refresh.value)]);
  }

  lemma ExchangeIsARun(w: World, k: nat, now: int, later: int, margin: int, answer: Exchange, last: Action)
    requires Inv(w) && w.lock.None? && k !in w.workers && Rotates(w, answer)
    requires FastPath(w.row, now, margin).None? && LockedPath(w.row, later, margin).None?
    requires Enabled(Exchanged(w, k, answer), last)
    ensures Runs(w, [Mint(k, now), Lock(k, later), Answer(k, answer), last],
                 After(Exchanged(w, k, answer), last, margin), margin)
  {
    hide After, Enabled;
    var acts := [Mint(k, now), Lock(k, later), Answer(k, answer), last];
    var v := After(Exchanged(w, k, answer), last, margin);
    var w1, w2 := ExchangeLeads(w, k, now, later, margin, answer);
    RunsBack(Exchanged(w, k, answer), acts, 3, v, margin);
    RunsBack(w2, acts, 2, v, margin);
    RunsBack(w1, acts, 1, v, margin);
    RunsBack(w, acts, 0, v, margin);
    assert acts[0..] == acts;
  }

  /** Wherever a rotation may begin it may be lost, and then the stored token is not the newest. */
  lemma RotationMayBeLost(w: World, k: nat, now: int, margin: int, access: string, expiry: int)
    returns (acts: seq<Action>, v: World)
    requires Inv(w) && w.lock.None? && k !in w.workers
    requires FastPath(w.row, now, margin).None? && LockedPath(w.row, now, margin).None?
    ensures Runs(w, acts, v, margin) && v.row == w.row && v.lock.None? && v.workers == w.workers
    ensures var t := v.row.refresh.value;
            t.grant in v.newest && t.serial < v.newest[t.grant] && t.grant in v.lost
  {
    var token := w.row.refresh.value;
    var answer := Rotated(Token(token.grant, w.newest[token.grant] + 1), access, expiry);
    acts := [Mint(k, now), Lock(k, now), Answer(k, answer), Rollback(k)];
    v := After(Exchanged(w, k, answer), Rollback(k), margin);
    ExchangeIsARun(w, k, now, now, margin, answer, Rollback(k));
  }

  /** Such a run from the start: one connect, one lost rotation. */
  lemma LostRotationIsStale(margin: int) returns (acts: seq<Action>, v: World)
    ensures Runs(START, acts, v, margin) && v.lock.None?
    ensures v.row.refresh == Some(Token(0, 0)) && 0 in v.newest && v.newest[0] > 0
  {
    var granted := After(START, Grant(0), margin);
    var connected := After(granted, Connect(0, "a", margin), margin);
    StepKeeps(START, Grant(0), margin);
    StepKeeps(granted, Connect(0, "a", margin), margin);
    var rest;
    rest, v := RotationMayBeLost(connected, 0, 0, margin, "b", margin);
    acts := [Grant(0), Connect(0, "a", margin)] + rest;
    assert acts[2..] == rest && acts[0..] == acts;
    RunsBack(granted, acts, 1, v, margin);
    RunsBack(START, acts, 0, v, margin);
  }

  // ---- What is stored, and what is presented ----

  /** The row after an action: what was connected, pasted or committed, and otherwise what it was. */
  ghost predicate RowAfter(w: World, a: Action, row: Row)
    requires Enabled(w, a)
  {
    match a
    case Connect(grant, access, expiry) =>
      row.access == Some(access) && row.refresh == Some(Token(grant, 0)) && row.expiry == Some(expiry)
    case Paste(access) => row.access == Some(access) && row.refresh.None? && row.expiry.None?
    case Commit(k) => Stores(w.row, w.workers[k].answer, row)
    case _ => row == w.row
  }

  /**
   * The lock leads to the exchange: the sweep's when the credential is due, a mint's when the access token is
   * stale.
   */
  ghost predicate MustPresent(w: World, k: nat, now: int, margin: int)
    requires k in w.workers && w.workers[k].Waiting?
  {
    && w.row.refresh.Some?
    && if w.workers[k].sweep then w.row.expiry.Some? && w.row.expiry.value < now
       else w.row.access.Some? && w.row.expiry.Some? ==> w.row.expiry.value <= now + margin
  }

  lemma StepStores(w: World, a: Action, margin: int)
    requires Inv(w) && Enabled(w, a)
    ensures RowAfter(w, a, After(w, a, margin).row)
    ensures a.Lock? ==>
              var after := After(w, a, margin);
              if MustPresent(w, a.w, a.now, margin) then
                after.lock == Some(a.w) && after.workers == w.workers[a.w := Presenting(w.row.refresh.value)]
              else after.lock.None? && after.workers == w.workers - {a.w}
  {
  }

  /** Nothing but a connect or a pasted token brings a disconnected credential back. */
  ghost predicate NoReconnect(acts: seq<Action>) {
    forall i :: 0 <= i < |acts| ==> !acts[i].Connect? && !acts[i].Paste?
  }

  lemma {:induction false} DisconnectedStays(w: World, acts: seq<Action>, v: World, margin: int, now: int)
    requires Inv(w) && w.row == CLEARED && Runs(w, acts, v, margin) && NoReconnect(acts)
    ensures v.row == CLEARED
    ensures FastPath(v.row, now, margin) == None && LockedPath(v.row, now, margin) == Some(Disconnected)
    decreases |acts|
  {
    if acts != [] {
      StepKeeps(w, acts[0], margin);
      assert forall i :: 0 <= i < |acts| - 1 ==> acts[1..][i] == acts[i + 1];
      DisconnectedStays(After(w, acts[0], margin), acts[1..], v, margin, now);
    }
  }

  /**
   * An exchange answered with an invalid grant disconnects: once it is committed nothing is stored, and
   * every later mint says so, until a connect or a pasted token.
   */
  lemma InvalidGrantDisconnects(w: World, k: nat, acts: seq<Action>, v: World, margin: int,
                                now: int, later: int, answer: Exchange)
    requires Inv(w) && Enabled(w, Commit(k)) && w.workers[k].answer == InvalidGrant
    requires Runs(After(w, Commit(k), margin), acts, v, margin) && NoReconnect(acts)
    ensures v.row.access.None? && v.row.refresh.None? && v.row.expiry.None?
    ensures MintsAs(v.row, now, later, margin, answer, v.row, Disconnected)
  {
    StepKeeps(w, Commit(k), margin);
    DisconnectedStays(After(w, Commit(k), margin), acts, v, margin, now);
  }

  // ---- As it runs ----

  /** The access token can be used for longer than the margin. */
  predicate Usable(row: Row, now: int, margin: int) {
    row.access.Some? && row.expiry.Some? && now + margin < row.expiry.value
  }

  /** What a mint that nothing interrupts makes of the row, and what it answers, column by column. */
  ghost predicate MintsAs(row: Row, now: int, later: int, margin: int, answer: Exchange, after: Row, reply: Reply) {
    if row.access.Some? && row.refresh.None? && row.expiry.None? then after == row && reply == Access(row.access.value)
    else if Usable(row, now, margin) then after == row && reply == Access(row.access.value)
    else if Usable(row, later, margin) then
      after == row && reply == if row.access.value == "" then Disconnected else Access(row.access.value)
    else if row.refresh.None? then after == row && reply == Disconnected
    else
      && Stores(row, answer, after)
      && reply == match answer
                  case Rotated(_, access, _) => if access == "" then Disconnected else Access(access)
                  case InvalidGrant => Disconnected
                  case Unavailable => Failed
  }

  /** What a mint that nothing interrupts makes of the row. */
  function Minted(row: Row, now: int, later: int, margin: int, answer: Exchange): Row {
    if FastPath(row, now, margin).Some? || LockedPath(row, later, margin).Some? then row else Applied(row, answer)
  }

  /** The actions of such a mint; a failed exchange rolls back. */
  function MintSteps(row: Row, k: nat, now: int, later: int, margin: int, answer: Exchange): seq<Action> {
    if FastPath(row, now, margin).Some? then [Mint(k, now)]
    else if LockedPath(row, later, margin).Some? then [Mint(k, now), Lock(k, later)]
    else [Mint(k, now), Lock(k, later), Answer(k, answer), if answer.Unavailable? then Rollback(k) else Commit(k)]
  }

  lemma ShortMintIsARun(w: World, k: nat, now: int, later: int, margin: int, answer: Exchange) returns (v: World)
    requires w.lock.None? && k !in w.workers
    requires FastPath(w.row, now, margin).Some? || LockedPath(w.row, later, margin).Some?
    ensures Runs(w, MintSteps(w.row, k, now, later, margin, answer), v, margin)
    ensures v.row == w.row && v.lock.None? && v.workers == w.workers
  {
    var acts := MintSteps(w.row, k, now, later, margin, answer);
    v := After(w, acts[0], margin);
    if |acts| == 2 {
      var w1 := v;
      v := After(w1, acts[1], margin);
      RunsBack(w1, acts, 1, v, margin);
    }
    RunsBack(w, acts, 0, v, margin);
    assert acts[0..] == acts;
  }

  /** An uninterrupted mint is a run of the actions above, and leaves the row that Mint leaves. */
  lemma MintIsARun(w: World, k: nat, now: int, later: int, margin: int, answer: Exchange) returns (v: World)
    requires Inv(w) && w.lock.None? && k !in w.workers
    requires Rotates(w, answer)
    ensures Runs(w, MintSteps(w.row, k, now, later, margin, answer), v, margin)
    ensures v.row == Minted(w.row, now, later, margin, answer) && v.lock.None? && v.workers == w.workers
    ensures exists reply :: MintsAs(w.row, now, later, margin, answer, v.row, reply)
  {
    var reply := MintedIsMinting(w.row, now, later, margin, answer);
    if FastPath(w.row, now, margin).Some? || LockedPath(w.row, later, margin).Some? {
      v := ShortMintIsARun(w, k, now, later, margin, answer);
    } else {
      var last := if answer.Unavailable? then Rollback(k) else Commit(k);
      v := After(Exchanged(w, k, answer), last, margin);
      ExchangeIsARun(w, k, now, later, margin, answer, last);
    }
  }

  lemma MintedIsMinting(row: Row, now: int, later: int, margin: int, answer: Exchange) returns (reply: Reply)
    ensures MintsAs(row, now, later, margin, answer, Minted(row, now, later, margin, answer), reply)
  {
    if FastPath(row, now, margin).Some? {
      reply := FastPath(row, now, margin).value;
    } else if LockedPath(row, later, margin).Some? {
      reply := LockedPath(row, later, margin).value;
    } else {
      match answer
      case Rotated(_, access, _) => reply := Told(access);
      case InvalidGrant => reply := Disconnected;
      case Unavailable => reply := Failed;
    }
  }

  /** The credentials by id, as one process sees them between other transactions. */
  class Vault {
    var rows: map<nat, Row>

    constructor (initial: map<nat, Row>)
      ensures rows == initial
    {
      rows := initial;
    }

    /**
     * Mint; `later` is the time of the second look. A failed exchange rolls back. An access token from
     * the store outlives the margin unless it was pasted, and the refresh token is presented only when
     * the stored access token does not.
     */
    method Mint(id: nat, now: int, later: int, margin: int, answer: Exchange) returns (reply: Reply)
      requires id in rows
      modifies this
      ensures rows == old(rows)[id := Minted(old(rows)[id], now, later, margin, answer)]
      ensures MintsAs(old(rows)[id], now, later, margin, answer, rows[id], reply)
      ensures reply.Access? ==> rows[id].access == Some(reply.text)
    {
      var row := rows[id];
      if row.expiry.None? && row.refresh.None? && row.access.Some? {
        return Access(row.access.value);
      }
      if row.expiry.Some? && row.access.Some? && now < row.expiry.value - margin {
        return Access(row.access.value);
      }
      if row.expiry.Some? && row.access.Some? && later < row.expiry.value - margin {
        return if row.access.value == "" then Disconnected else Access(row.access.value);
      }
      if row.refresh.None? {
        return Disconnected;
      }
      match answer {
        case Rotated(token, access, expiry) =>
          rows := rows[id := Row(Some(access), Some(token), Some(expiry))];
          return if access == "" then Disconnected else Access(access);
        case InvalidGrant =>
          rows := rows[id := CLEARED];
          return Disconnected;
        case Unavailable =>
          return Failed;
      }
    }

    /** codex_claim_for_refresh: the due credential that expires first, of those not excluded. */
    method ClaimDue(cutoff: int, exclude: set<nat>) returns (id: Option<nat>)
      ensures id.Some? ==> Earliest(rows, cutoff, exclude, id.value)
      ensures id.None? ==> NoneDue(rows, cutoff, exclude)
    {
      id := None;
      var rest := rows.Keys - exclude;
      while rest != {}
        invariant rest <= rows.Keys - exclude
        invariant id.Some? ==> id.value in rows.Keys - exclude - rest && DueBy(rows[id.value], cutoff)
        invariant forall k :: k in rows.Keys - exclude - rest && DueBy(rows[k], cutoff) ==>
                    id.Some? && rows[id.value].expiry.value <= rows[k].expiry.value
        decreases |rest|
      {
        var k :| k in rest;
        if DueBy(rows[k], cutoff) && (id.None? || rows[k].expiry.value < rows[id.value].expiry.value) {
          id := Some(k);
        }
        rest := rest - {k};
      }
    }

    /**
     * RefreshDue: each credential is handled at most once, whatever its exchange brings; nothing but
     * handled credentials changes; and unless the bound is hit, nothing due is left out.
     */
    method RefreshDue(cutoff: int, answers: nat -> Exchange) returns (refreshed: nat, handled: seq<nat>)
      modifies this
      ensures Swept(old(rows), rows, cutoff, answers, handled)
      ensures |handled| <= MAX_SWEEP
      ensures |handled| < MAX_SWEEP ==> AllHandled(old(rows), cutoff, handled)
      ensures refreshed == Rotations(answers, |handled|)
    {
      hide Sweeping, Swept, Earliest, NoneDue, AllHandled;
      refreshed, handled := 0, [];
      var exclude: set<nat> := {};
      SweepingBegins(rows, cutoff, answers);
      while |handled| < MAX_SWEEP
        invariant |handled| <= MAX_SWEEP && refreshed == Rotations(answers, |handled|)
        invariant Sweeping(old(rows), rows, cutoff, answers, handled, exclude)
      {
        ghost var before := rows;
        var answer := answers(|handled|);
        var id := RefreshOne(cutoff, exclude, answer);
        if id.None? {
          NothingLeft(old(rows), rows, cutoff, answers, handled, exclude);
          SweepingIsSwept(old(rows), rows, cutoff, answers, handled, exclude);
          return;
        }
        SweepingGrows(old(rows), before, cutoff, answers, handled, exclude, id.value);
        refreshed := refreshed + if answer.Rotated? then 1 else 0;
        exclude := exclude + {id.value};
        handled := handled + [id.value];
      }
      SweepingIsSwept(old(rows), rows, cutoff, answers, handled, exclude);
    }

    /** refreshOneDue: claim under the lock, exchange, and store what came back. */
    method RefreshOne(cutoff: int, exclude: set<nat>, answer: Exchange) returns (id: Option<nat>)
      modifies this
      ensures id.Some? ==> Earliest(old(rows), cutoff, exclude, id.value)
      ensures id.Some? ==> rows == old(rows)[id.value := Applied(old(rows)[id.value], answer)]
      ensures id.Some? ==> Stores(old(rows)[id.value], answer, rows[id.value])
      ensures id.None? ==> NoneDue(rows, cutoff, exclude) && rows == old(rows)
    {
      id := ClaimDue(cutoff, exclude);
      if id.Some? {
        rows := rows[id.value := Applied(rows[id.value], answer)];
      }
    }
  }

  /** The due credential that expires first among those not excluded. */
  ghost predicate Earliest(rows: map<nat, Row>, cutoff: int, exclude: set<nat>, id: nat) {
    && id in rows && id !in exclude && DueBy(rows[id], cutoff)
    && forall k :: k in rows && k !in exclude && DueBy(rows[k], cutoff) ==>
         rows[id].expiry.value <= rows[k].expiry.value
  }

  ghost predicate NoneDue(rows: map<nat, Row>, cutoff: int, exclude: set<nat>) {
    forall k :: k in rows && DueBy(rows[k], cutoff) ==> k in exclude
  }

  ghost predicate Excludes(exclude: set<nat>, handled: seq<nat>) { forall k :: k in exclude <==> k in handled }

  /** Every credential that was due has been handled. */
  ghost predicate AllHandled(before: map<nat, Row>, cutoff: int, handled: seq<nat>) {
    forall k :: k in before && DueBy(before[k], cutoff) ==> k in handled
  }

  lemma NothingLeft(before: map<nat, Row>, after: map<nat, Row>, cutoff: int, answers: nat -> Exchange,
                    handled: seq<nat>, exclude: set<nat>)
    requires Sweeping(before, after, cutoff, answers, handled, exclude)
    requires NoneDue(after, cutoff, exclude)
    ensures AllHandled(before, cutoff, handled)
  {
  }

  /** How many of the first `n` exchanges rotated. */
  function Rotations(answers: nat -> Exchange, n: nat): nat {
    if n == 0 then 0 else Rotations(answers, n - 1) + if answers(n - 1).Rotated? then 1 else 0
  }

  /** What a sweep leaves: each handled credential was due and got its one exchange, the others are as they were. */
  ghost predicate Swept(before: map<nat, Row>, after: map<nat, Row>, cutoff: int, answers: nat -> Exchange,
                        handled: seq<nat>)
  {
    && Distinct(handled) && after.Keys == before.Keys
    && (forall k :: k in before && k !in handled ==> after[k] == before[k])
    && (forall i :: 0 <= i < |handled| ==>
          && handled[i] in before && DueBy(before[handled[i]], cutoff)
          && Stores(before[handled[i]], answers(i), after[handled[i]]))
  }

  /** A sweep under way: exactly the handled credentials are excluded from the next claim. */
  ghost predicate Sweeping(before: map<nat, Row>, after: map<nat, Row>, cutoff: int, answers: nat -> Exchange,
                           handled: seq<nat>, exclude: set<nat>)
  {
    Swept(before, after, cutoff, answers, handled) && Excludes(exclude, handled)
  }

  lemma SweepingBegins(rows: map<nat, Row>, cutoff: int, answers: nat -> Exchange)
    ensures Sweeping(rows, rows, cutoff, answers, [], {})
  {
  }

  lemma SweepingIsSwept(before: map<nat, Row>, after: map<nat, Row>, cutoff: int, answers: nat -> Exchange,
                        handled: seq<nat>, exclude: set<nat>)
    requires Sweeping(before, after, cutoff, answers, handled, exclude)
    ensures Swept(before, after, cutoff, answers, handled)
  {
  }

  lemma SweepingGrows(before: map<nat, Row>, after: map<nat, Row>, cutoff: int, answers: nat -> Exchange,
                      handled: seq<nat>, exclude: set<nat>, id: nat)
    requires Sweeping(before, after, cutoff, answers, handled, exclude) && Earliest(after, cutoff, exclude, id)
    ensures Sweeping(before, after[id := Applied(after[id], answers(|handled|))], cutoff, answers, handled + [id],
                     exclude + {id})
  {
  }
}
