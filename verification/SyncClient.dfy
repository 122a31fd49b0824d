/** The client side of a sync as it runs: batches, rounds and the state they update (cmd/mf/sync.go). */
module SyncClient {
  import opened Prelude
  import opened Sync

  const MAX_OPS: nat := 1000
  const MAX_BYTES: nat := 512 * 1024
  const MAX_PULLS: nat := 20

  /** The encoded length of an operation. */
  type Sizes = Op -> nat

  function Total(size: Sizes, ops: seq<Op>): nat {
    if ops == [] then 0 else Total(size, ops[..|ops| - 1]) + size(Last(ops)) + 1
  }

  /** Within both caps; a single operation always is. */
  predicate Fits(size: Sizes, ops: seq<Op>) {
    |ops| <= MAX_OPS && (|ops| <= 1 || Total(size, ops) <= MAX_BYTES)
  }

  lemma {:induction false} TotalGrows(size: Sizes, ops: seq<Op>, n: nat)
    requires n <= |ops|
    ensures Total(size, ops[..n]) <= Total(size, ops)
    decreases |ops|
  {
    if n < |ops| {
      assert ops[..|ops| - 1][..n] == ops[..n];
      TotalGrows(size, ops[..|ops| - 1], n);
    } else {
      assert ops[..n] == ops;
    }
  }

  /** A batch of this length is the longest prefix within the caps. */
  ghost predicate IsBatch(size: Sizes, outbox: seq<Op>, n: nat) {
    && n <= |outbox| && Fits(size, outbox[..n]) && (outbox != [] ==> n > 0)
    && forall m :: n < m <= |outbox| ==> !Fits(size, outbox[..m])
  }

  /** nextBatch: the longest prefix within the caps, and never empty while there is something to send. */
  method NextBatch(size: Sizes, outbox: seq<Op>) returns (batch: seq<Op>)
    ensures batch <= outbox && IsBatch(size, outbox, |batch|)
    ensures |batch| <= 1000 && (|batch| <= 1 || Total(size, batch) <= 512 * 1024)
    ensures |batch| < |outbox| ==> |batch| == 1000 || Total(size, outbox[..|batch| + 1]) > 512 * 1024
  {
    var total := 0;
    for i := 0 to |outbox|
      invariant total == Total(size, outbox[..i]) && Fits(size, outbox[..i])
    {
      if i == MAX_OPS {
        return outbox[..i];
      }
      assert outbox[..i + 1][..i] == outbox[..i];
      total := total + size(outbox[i]) + 1;
      if total > MAX_BYTES && i > 0 {
        forall n | i < n <= |outbox|
          ensures !Fits(size, outbox[..n])
        {
          assert outbox[..n][..i + 1] == outbox[..i + 1];
          TotalGrows(size, outbox[..n], i + 1);
        }
        return outbox[..i];
      }
    }
    assert outbox[..|outbox|] == outbox;
    return outbox;
  }

  /** A decoded 2xx response; anything else is no response. */
  datatype Response = Response(rows: seq<Row>, rev: int, more: bool)

  /** What comes back for each request of a sync. */
  type Network = nat -> Option<Response>

  function Answer(n: nat, resp: Response): Reply { Reply(n, resp.rows, resp.rev, resp.more, map[]) }

  /** The rounds of a sync: each answered request settles one batch and lays its page over the cache. */
  ghost predicate Rounds(size: Sizes, network: Network, c: Client, batches: seq<nat>, d: Client)
    decreases |batches|
  {
    if batches == [] then c == d
    else
      var k := |batches| - 1;
      && network(k).Some?
      && exists mid ::
           && Rounds(size, network, c, batches[..k], mid)
           && IsBatch(size, mid.outbox, batches[k])
           && d == Delivered(mid, Answer(batches[k], network(k).value))
  }

  lemma RoundsGrow(size: Sizes, network: Network, c: Client, batches: seq<nat>, mid: Client, n: nat)
    requires Rounds(size, network, c, batches, mid) && network(|batches|).Some? && IsBatch(size, mid.outbox, n)
    ensures Rounds(size, network, c, batches + [n], Delivered(mid, Answer(n, network(|batches|).value)))
  {
    assert (batches + [n])[..|batches|] == batches;
  }

  function Max(a: nat, b: nat): nat { if a >= b then a else b }

  /** state.json: the cache, the cursor and the outbox, with the history of what was queued and acknowledged. */
  class State {
    var tasks: map<Key, Task>
    var cursor: int
    var outbox: seq<Op>
    ghost var queued: seq<Op>
    ghost var acked: seq<Op>

    ghost function Value(): Client
      reads this
    {
      Client(tasks, cursor, outbox)
    }

    /** Nothing is lost, duplicated or reordered on this side. */
    ghost predicate Valid()
      reads this
    {
      queued == acked + outbox
    }

    constructor ()
      ensures Valid() && Value() == Client(map[], 0, []) && queued == []
    {
      tasks, cursor, outbox, queued, acked := map[], 0, [], [], [];
    }

    /** A command: the task as edited locally, and its operation at the end of the outbox. */
    method Edit(op: Op, task: Task)
      requires Valid()
      modifies this
      ensures Valid() && Value() == Edited(old(Value()), op, task)
      ensures tasks == old(tasks)[op.key := task] && outbox == old(outbox) + [op] && cursor == old(cursor)
      ensures queued == old(queued) + [op] && acked == old(acked)
    {
      tasks := tasks[op.key := task];
      outbox := outbox + [op];
      queued := queued + [op];
    }

    /** applyResponse: server snapshots win, the cursor never goes back. */
    method ApplyResponse(resp: Response)
      modifies this`tasks, this`cursor
      ensures tasks == Overlay(old(tasks), resp.rows)
      ensures cursor == if resp.rev > old(cursor) then resp.rev else old(cursor)
    {
      for i := 0 to |resp.rows|
        invariant Overlay(tasks, resp.rows[i..]) == Overlay(old(tasks), resp.rows)
        invariant cursor == old(cursor)
      {
        tasks := tasks[resp.rows[i].key := resp.rows[i].task];
        assert resp.rows[i..][1..] == resp.rows[i + 1..];
      }
      if resp.rev > cursor {
        cursor := resp.rev;
      }
    }

    /** One answered request: the batch leaves the outbox only now. */
    method Settle(batch: seq<Op>, resp: Response)
      requires Valid() && batch <= outbox
      modifies this
      ensures Valid() && queued == old(queued) && acked == old(acked) + batch
      ensures Value() == Delivered(old(Value()), Answer(|batch|, resp))
    {
      outbox := outbox[|batch|..];
      acked := acked + batch;
      ApplyResponse(resp);
    }

    /** One request: send the next batch; only an answer changes anything. */
    method Round(size: Sizes, resp: Option<Response>) returns (ghost n: nat)
      requires Valid()
      modifies this
      ensures Valid() && queued == old(queued) && old(acked) <= acked && old(cursor) <= cursor
      ensures IsBatch(size, old(outbox), n)
      ensures Value() == if resp.Some? then Delivered(old(Value()), Answer(n, resp.value)) else old(Value())
    {
      var batch := NextBatch(size, outbox);
      if resp.Some? {
        Settle(batch, resp.value);
      }
      n := |batch|;
    }

    /**
     * syncRounds: push batch after batch, then follow pages. A failed request ends the sync and keeps
     * everything it has not been answered for; otherwise the outbox is empty and the last page was the
     * last, or the bound on pages is reached.
     */
    method SyncRounds(size: Sizes, network: Network) returns (ok: bool, requests: nat, ghost batches: seq<nat>)
      requires Valid()
      modifies this
      ensures Valid() && queued == old(queued) && old(acked) <= acked
      ensures Rounds(size, network, old(Value()), batches, Value())
      ensures requests <= Max(1, |old(outbox)|) + MAX_PULLS - 1
      ensures !ok ==> requests == |batches| + 1 && network(|batches|).None?
      ensures ok ==> requests == |batches| > 0 && network(requests - 1).Some? && outbox == []
      ensures ok ==> !network(requests - 1).value.more || requests >= MAX_PULLS
      ensures old(cursor) <= cursor
    {
      var pulls := 0;
      requests, batches := 0, [];
      while true
        invariant Valid() && queued == old(queued) && old(acked) <= acked && old(cursor) <= cursor
        invariant requests == |batches| && Rounds(size, network, old(Value()), batches, Value())
        invariant pulls < MAX_PULLS && pulls <= requests
        invariant pulls > 0 ==> outbox == []
        invariant requests + Max(1, |outbox|) <= Max(1, |old(outbox)|) + pulls
        decreases |outbox|, MAX_PULLS - pulls
      {
        ghost var before := Value();
        var resp := network(requests);
        ghost var n := Round(size, resp);
        requests := requests + 1;
        if resp.None? {
          return false, requests, batches;
        }
        RoundsGrow(size, network, old(Value()), batches, before, n);
        batches := batches + [n];
        if outbox == [] {
          pulls := pulls + 1;
          if !resp.value.more || pulls >= MAX_PULLS {
            return true, requests, batches;
          }
        }
      }
    }
  }

  // ---- Against a server that keeps the protocol ----

  datatype Wrote = Wrote(key: Key, task: Task)

  /** What happens on the server for a request: what others write before it, and what it makes of the operations. */
  datatype Handled = Handled(writes: seq<Wrote>, verdicts: seq<Verdict>)

  type Service = nat -> Handled

  function Writes(writes: seq<Wrote>): seq<Action> {
    seq(|writes|, i requires 0 <= i < |writes| => Elsewhere(writes[i].key, writes[i].task))
  }

  function Written(w: World, writes: seq<Wrote>): World
    decreases |writes|
  {
    if writes == [] then w
    else Written(w.(server := Write(w.server, writes[0].key, writes[0].task)), writes[1..])
  }

  lemma {:induction false} WritesRun(w: World, writes: seq<Wrote>)
    ensures Runs(w, Writes(writes), Written(w, writes))
    ensures Written(w, writes).client == w.client && Written(w, writes).reply == w.reply
    decreases |writes|
  {
    if writes != [] {
      assert Writes(writes)[1..] == Writes(writes[1..]);
      WritesRun(w.(server := Write(w.server, writes[0].key, writes[0].task)), writes[1..]);
    }
  }

  function Request(resp: Response, handled: Handled, n: nat): Action {
    Serve(n, handled.verdicts, resp.rows, resp.rev, resp.more)
  }

  /** The server answered the request by the protocol: the operations one by one, then a page of its own tasks. */
  ghost predicate Lawful(w: World, resp: Option<Response>, handled: Handled, n: nat) {
    resp.Some? && n <= |w.client.outbox| && Enabled(Written(w, handled.writes), Request(resp.value, handled, n))
  }

  ghost function Answered(w: World, resp: Option<Response>, handled: Handled, n: nat): World
    requires Lawful(w, resp, handled, n)
  {
    After(Written(w, handled.writes), Request(resp.value, handled, n))
  }

  /** Where the rounds of a sync take client and server; None when a request was not answered by the protocol. */
  ghost function Reached(network: Network, service: Service, w: World, batches: seq<nat>): Option<World>
    decreases |batches|
  {
    if batches == [] then Some(w)
    else
      var k := |batches| - 1;
      match Reached(network, service, w, batches[..k])
      case None => None
      case Some(mid) =>
        if Lawful(mid, network(k), service(k), batches[k])
        then Some(After(Answered(mid, network(k), service(k), batches[k]), Deliver)) else None
  }

  /** The actions of one round, up to the answer. */
  function RoundSteps(resp: Option<Response>, handled: Handled, n: nat): seq<Action> {
    if resp.None? then [] else Writes(handled.writes) + [Request(resp.value, handled, n)]
  }

  /** The actions of a sync. */
  function SyncSteps(network: Network, service: Service, batches: seq<nat>): seq<Action>
    decreases |batches|
  {
    if batches == [] then []
    else
      var k := |batches| - 1;
      SyncSteps(network, service, batches[..k]) + RoundSteps(network(k), service(k), batches[k]) + [Deliver]
  }

  lemma RoundRuns(w: World, resp: Option<Response>, handled: Handled, n: nat)
    requires Lawful(w, resp, handled, n)
    ensures var served := Answered(w, resp, handled, n);
            && Runs(w, RoundSteps(resp, handled, n), served) && Runs(served, [Deliver], After(served, Deliver))
            && After(served, Deliver).reply.None?
            && After(served, Deliver).client == Delivered(w.client, Answer(n, resp.value))
            && served.reply.value.more == resp.value.more && served.reply.value.at == served.server.stored
  {
    var mid, serve := Written(w, handled.writes), Request(resp.value, handled, n);
    WritesRun(w, handled.writes);
    assert [serve][1..] == [] && [Deliver][1..] == [];
    assert Runs(After(mid, serve), [], After(mid, serve));
    assert Runs(mid, [serve], After(mid, serve));
    RunsJoin(w, Writes(handled.writes), mid, [serve], After(mid, serve));
  }

  /** Against such a server the rounds of a sync are a run of requests and deliveries among other people's writes. */
  lemma {:induction false} SyncIsARun(size: Sizes, network: Network, service: Service, w: World, batches: seq<nat>,
                                      d: Client)
    requires w.reply.None? && Rounds(size, network, w.client, batches, d)
    requires Reached(network, service, w, batches).Some?
    ensures var v := Reached(network, service, w, batches).value;
            Runs(w, SyncSteps(network, service, batches), v) && v.client == d && v.reply.None?
    decreases |batches|
  {
    hide Lawful, Answered, Enabled, After, Delivered, RoundSteps;
    if batches != [] {
      var k := |batches| - 1;
      var front, n := batches[..k], batches[k];
      var c :| Rounds(size, network, w.client, front, c) && IsBatch(size, c.outbox, n)
               && d == Delivered(c, Answer(n, network(k).value));
      SyncIsARun(size, network, service, w, front, c);
      var mid := Reached(network, service, w, front).value;
      var served, steps := Answered(mid, network(k), service(k), n), RoundSteps(network(k), service(k), n);
      RoundRuns(mid, network(k), service(k), n);
      RunsJoin(w, SyncSteps(network, service, front), mid, steps, served);
      RunsJoin(w, SyncSteps(network, service, front) + steps, served, [Deliver], After(served, Deliver));
    }
  }

  /** A lawful last answer to a client whose outbox it empties leaves it agreeing with the server, refusals aside. */
  lemma LastRoundConverges(server: Server, acts: seq<Action>, w: World, resp: Option<Response>, handled: Handled,
                           n: nat)
    requires FreshServer(server) && Runs(Fresh(server), acts, w) && Lawful(w, resp, handled, n) && !resp.value.more
    requires Delivered(w.client, Answer(n, resp.value)).outbox == []
    ensures var v := After(Answered(w, resp, handled, n), Deliver);
            && (forall k :: k !in v.refused ==> SameAt(v.client.tasks, v.server.stored, k))
            && (v.refused == {} ==> v.client.tasks == Contents(v.server.stored))
  {
    hide Answered, Enabled, Delivered, RoundSteps;
    var served, steps := Answered(w, resp, handled, n), RoundSteps(resp, handled, n);
    RoundRuns(w, resp, handled, n);
    RunsJoin(Fresh(server), acts, w, steps, served);
    SyncConverges(server, acts + steps, served);
    SameEverywhere(After(served, Deliver).client.tasks, served.server.stored);
  }

  /**
   * After any history, a sync that emptied the outbox against such a server and whose last page was the
   * last leaves the cache agreeing with the server, except where an operation was refused since; and
   * equal to it when nothing is still under a refusal.
   */
  lemma FinishedSyncConverges(size: Sizes, network: Network, service: Service, server: Server, acts: seq<Action>,
                              w: World, batches: seq<nat>, d: Client)
    requires FreshServer(server) && Runs(Fresh(server), acts, w) && w.reply.None?
    requires Rounds(size, network, w.client, batches, d) && Reached(network, service, w, batches).Some?
    requires batches != [] && network(|batches| - 1).Some? && !network(|batches| - 1).value.more && d.outbox == []
    ensures var v := Reached(network, service, w, batches).value;
            && (forall k :: k !in v.refused ==> SameAt(d.tasks, v.server.stored, k))
            && (v.refused == {} ==> d.tasks == Contents(v.server.stored))
  {
    hide Lawful, Answered, Enabled, After, Delivered, Runs;
    var k := |batches| - 1;
    var front, n := batches[..k], batches[k];
    var c :| Rounds(size, network, w.client, front, c) && IsBatch(size, c.outbox, n)
             && d == Delivered(c, Answer(n, network(k).value));
    SyncIsARun(size, network, service, w, front, c);
    SyncIsARun(size, network, service, w, batches, d);
    var mid := Reached(network, service, w, front).value;
    RunsJoin(Fresh(server), acts, w, SyncSteps(network, service, front), mid);
    LastRoundConverges(server, acts + SyncSteps(network, service, front), mid, network(k), service(k), n);
  }
}
