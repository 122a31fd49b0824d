/**
 * The local-first sync protocol of mf: a client with a cached task map, a cursor and an outbox, a
 * server that stamps every write with a fresh revision, other writers on that server, and a network
 * that may lose a request or a response.
 */
module Sync {
  import opened Prelude

  datatype Key = Key(text: string)

  /** The content of a task; what an operation does to it is decided by whoever applies it. */
  datatype Task = Task(text: string)

  datatype Op = Op(create: bool, key: Key, body: string)

  datatype Stored = Stored(task: Task, rev: int)

  datatype Client = Client(tasks: map<Key, Task>, cursor: int, outbox: seq<Op>)

  /** `last` is the highest revision handed out so far. */
  datatype Server = Server(stored: map<Key, Stored>, last: int)

  /** One task of a page, with its revision. */
  datatype Row = Row(key: Key, task: Task, rev: int)

  /** A response: how many operations it settles, the page, and the server as it was when it was made. */
  datatype Reply = Reply(settled: nat, rows: seq<Row>, rev: int, more: bool, at: map<Key, Stored>)

  /**
   * What the server makes of one operation. A conflict is a create of an existing key or a change of
   * a missing one; a refusal is any other rejection.
   */
  datatype Verdict = Done(task: Task) | Conflict | Refused

  // ---- The server ----

  ghost predicate Legal(op: Op, verdict: Verdict, stored: map<Key, Stored>) {
    match verdict
    case Done(_) => op.create <==> op.key !in stored
    case Conflict => op.create <==> op.key in stored
    case Refused => true
  }

  function Write(s: Server, key: Key, task: Task): Server {
    Server(s.stored[key := Stored(task, s.last + 1)], s.last + 1)
  }

  function Apply(s: Server, op: Op, verdict: Verdict): Server {
    if verdict.Done? then Write(s, op.key, verdict.task) else s
  }

  /** The operations of a batch, one after the other. */
  function ApplyAll(s: Server, ops: seq<Op>, verdicts: seq<Verdict>): Server
    requires |ops| == |verdicts|
    decreases |ops|
  {
    if ops == [] then s else ApplyAll(Apply(s, ops[0], verdicts[0]), ops[1..], verdicts[1..])
  }

  ghost predicate LegalAll(s: Server, ops: seq<Op>, verdicts: seq<Verdict>)
    requires |ops| == |verdicts|
    decreases |ops|
  {
    ops == [] || (Legal(ops[0], verdicts[0], s.stored)
                  && LegalAll(Apply(s, ops[0], verdicts[0]), ops[1..], verdicts[1..]))
  }

  /** The keys with a refused operation. */
  ghost function RefusedIn(ops: seq<Op>, verdicts: seq<Verdict>): set<Key>
    requires |ops| == |verdicts|
    decreases |ops|
  {
    if ops == [] then {} else (if verdicts[0].Refused? then {ops[0].key} else {}) + RefusedIn(ops[1..], verdicts[1..])
  }

  /** The tasks changed since a revision, in revision order, cut off after some number of them. */
  ghost predicate IsPage(stored: map<Key, Stored>, since: int, rows: seq<Row>, rev: int, more: bool) {
    && (forall i :: 0 <= i < |rows| ==>
          && rows[i].key in stored && stored[rows[i].key] == Stored(rows[i].task, rows[i].rev)
          && since < rows[i].rev <= rev)
    && (forall k :: k in stored && since < stored[k].rev && !Listed(rows, k) ==> more && rev < stored[k].rev)
    && (if rows == [] then rev == since else rev == Last(rows).rev)
    && (forall i, j :: 0 <= i < j < |rows| ==> rows[i].rev < rows[j].rev)
  }

  ghost predicate Listed(rows: seq<Row>, k: Key) { exists i :: 0 <= i < |rows| && rows[i].key == k }

  /** The keys a page brings. */
  function Pulled(rows: seq<Row>): set<Key> { set i | 0 <= i < |rows| :: rows[i].key }

  // ---- The client ----

  /** Server snapshots win. */
  function Overlay(tasks: map<Key, Task>, rows: seq<Row>): (r: map<Key, Task>)
    ensures tasks.Keys <= r.Keys
    decreases |rows|
  {
    if rows == [] then tasks else Overlay(tasks[rows[0].key := rows[0].task], rows[1..])
  }

  function Delivered(c: Client, reply: Reply): Client
    requires reply.settled <= |c.outbox|
  {
    Client(Overlay(c.tasks, reply.rows),
           if reply.rev > c.cursor then reply.rev else c.cursor,
           c.outbox[reply.settled..])
  }

  function Edited(c: Client, op: Op, task: Task): Client {
    c.(tasks := c.tasks[op.key := task], outbox := c.outbox + [op])
  }

  // ---- Lagging behind ----

  ghost predicate Changes(outbox: seq<Op>, k: Key) {
    exists i :: 0 <= i < |outbox| && outbox[i].key == k && !outbox[i].create
  }

  ghost predicate Creates(outbox: seq<Op>, k: Key) {
    exists i :: 0 <= i < |outbox| && outbox[i].key == k && outbox[i].create
  }

  /** The first operation on the key creates it. */
  predicate FirstCreates(outbox: seq<Op>, k: Key) {
    outbox != [] && if outbox[0].key == k then outbox[0].create else FirstCreates(outbox[1..], k)
  }

  ghost predicate SameAt(tasks: map<Key, Task>, stored: map<Key, Stored>, k: Key) {
    (k in tasks <==> k in stored) && (k in tasks ==> tasks[k] == stored[k].task)
  }

  /** Wherever client and server differ, an operation to mend it is queued or a revision to pull is ahead. */
  ghost predicate LagsAt(c: Client, stored: map<Key, Stored>, k: Key) {
    && (|| SameAt(c.tasks, stored, k)
        || (k in stored && stored[k].rev > c.cursor)
        || Changes(c.outbox, k)
        || (k !in stored && Creates(c.outbox, k)))
    && (k in c.tasks ==> k in stored || FirstCreates(c.outbox, k))
  }

  ghost predicate Lags(c: Client, stored: map<Key, Stored>, refused: set<Key>) {
    && (forall k :: k !in refused ==> LagsAt(c, stored, k))
    && (forall i :: 0 <= i < |c.outbox| ==> c.outbox[i].key in c.tasks)
  }

  ghost predicate Stamped(s: Server) { forall k :: k in s.stored ==> s.stored[k].rev <= s.last }

  /** A write by anyone leaves the client lagging, not wrong. */
  lemma WriteLags(c: Client, s: Server, refused: set<Key>, key: Key, task: Task)
    requires Lags(c, s.stored, refused) && c.cursor <= s.last
    ensures Lags(c, Write(s, key, task).stored, refused)
  {
    var after := Write(s, key, task).stored;
    forall k | k !in refused
      ensures LagsAt(c, after, k)
    {
      assert LagsAt(c, s.stored, k);
    }
  }

  lemma FirstOfRest(outbox: seq<Op>, k: Key)
    requires outbox != [] && outbox[0].key != k
    ensures FirstCreates(outbox[1..], k) == FirstCreates(outbox, k)
    ensures Changes(outbox[1..], k) == Changes(outbox, k)
    ensures Creates(outbox[1..], k) == Creates(outbox, k)
  {
    var rest := outbox[1..];
    assert forall i :: 0 <= i < |rest| ==> rest[i] == outbox[i + 1];
    if i :| 0 <= i < |outbox| && outbox[i].key == k && !outbox[i].create { assert rest[i - 1] == outbox[i]; }
    if i :| 0 <= i < |outbox| && outbox[i].key == k && outbox[i].create { assert rest[i - 1] == outbox[i]; }
  }

  /** Once the server has settled the first queued operation, the client may forget it. */
  lemma SettleLags(c: Client, s: Server, refused: set<Key>, verdict: Verdict)
    requires c.outbox != [] && Lags(c, s.stored, refused) && c.cursor <= s.last
    requires Legal(c.outbox[0], verdict, s.stored)
    ensures Lags(c.(outbox := c.outbox[1..]), Apply(s, c.outbox[0], verdict).stored,
                 refused + if verdict.Refused? then {c.outbox[0].key} else {})
  {
    var op := c.outbox[0];
    var after := c.(outbox := c.outbox[1..]);
    var stored := Apply(s, op, verdict).stored;
    forall k | k !in refused && !(verdict.Refused? && k == op.key)
      ensures LagsAt(after, stored, k)
    {
      assert LagsAt(c, s.stored, k);
      if k != op.key {
        FirstOfRest(c.outbox, k);
      } else if verdict.Conflict? && Changes(c.outbox, k) {
        ChangesOfRest(c.outbox, k);
      }
    }
  }

  lemma ChangesOfRest(outbox: seq<Op>, k: Key)
    requires outbox != [] && outbox[0].create && Changes(outbox, k)
    ensures Changes(outbox[1..], k)
  {
    var i :| 0 <= i < |outbox| && outbox[i].key == k && !outbox[i].create;
    assert outbox[1..][i - 1] == outbox[i];
  }

  /** The same for a whole batch taken from the front of the outbox. */
  lemma {:induction false} BatchLags(c: Client, s: Server, refused: set<Key>, n: nat, verdicts: seq<Verdict>)
    requires n <= |c.outbox| && n == |verdicts|
    requires Lags(c, s.stored, refused) && c.cursor <= s.last && Stamped(s)
    requires LegalAll(s, c.outbox[..n], verdicts)
    ensures var after := ApplyAll(s, c.outbox[..n], verdicts);
            && Lags(c.(outbox := c.outbox[n..]), after.stored, refused + RefusedIn(c.outbox[..n], verdicts))
            && Lags(c, after.stored, refused)
            && s.last <= after.last && Stamped(after)
    decreases n
  {
    if n == 0 {
      assert c.(outbox := c.outbox[0..]) == c;
      assert refused + RefusedIn(c.outbox[..0], verdicts) == refused;
    } else {
      var op, first := c.outbox[0], Apply(s, c.outbox[0], verdicts[0]);
      var rest := c.(outbox := c.outbox[1..]);
      var also: set<Key> := if verdicts[0].Refused? then {op.key} else {};
      SettleLags(c, s, refused, verdicts[0]);
      assert c.outbox[..n][1..] == rest.outbox[..n - 1];
      BatchLags(rest, first, refused + also, n - 1, verdicts[1..]);
      assert rest.outbox[n - 1..] == c.outbox[n..];
      assert refused + also + RefusedIn(rest.outbox[..n - 1], verdicts[1..])
          == refused + RefusedIn(c.outbox[..n], verdicts);
      UnsettledLags(c, s, refused, c.outbox[..n], verdicts);
    }
  }

  /** If the response is lost, the client keeps its outbox and still only lags. */
  lemma {:induction false} UnsettledLags(c: Client, s: Server, refused: set<Key>, ops: seq<Op>, verdicts: seq<Verdict>)
    requires |ops| == |verdicts| && Lags(c, s.stored, refused) && c.cursor <= s.last
    ensures Lags(c, ApplyAll(s, ops, verdicts).stored, refused)
    decreases |ops|
  {
    if ops != [] {
      if verdicts[0].Done? {
        WriteLags(c, s, refused, ops[0].key, verdicts[0].task);
      }
      UnsettledLags(c, Apply(s, ops[0], verdicts[0]), refused, ops[1..], verdicts[1..]);
    }
  }

  lemma {:induction false} OverlaidAt(tasks: map<Key, Task>, rows: seq<Row>, k: Key, task: Task)
    requires forall i :: 0 <= i < |rows| && rows[i].key == k ==> rows[i].task == task
    ensures Listed(rows, k) ==> k in Overlay(tasks, rows) && Overlay(tasks, rows)[k] == task
    ensures !Listed(rows, k) ==> (k in Overlay(tasks, rows) <==> k in tasks)
                                 && (k in tasks ==> Overlay(tasks, rows)[k] == tasks[k])
    decreases |rows|
  {
    if rows != [] {
      var rest := rows[1..];
      assert forall i :: 0 <= i < |rest| ==> rest[i] == rows[i + 1];
      var next := tasks[rows[0].key := rows[0].task];
      OverlaidAt(next, rest, k, task);
      if Listed(rows, k) && rows[0].key != k {
        var i :| 0 <= i < |rows| && rows[i].key == k;
        assert rest[i - 1] == rows[i];
      }
      if Listed(rest, k) {
        var i :| 0 <= i < |rest| && rest[i].key == k;
        assert rows[i + 1] == rest[i];
      }
    }
  }

  /** Laying a page over the cache and moving the cursor keeps the client lagging at worst, and mends what it brings. */
  lemma PullLags(c: Client, stored: map<Key, Stored>, refused: set<Key>, rows: seq<Row>, rev: int, more: bool)
    requires Lags(c, stored, refused) && IsPage(stored, c.cursor, rows, rev, more)
    ensures Lags(c.(tasks := Overlay(c.tasks, rows), cursor := rev), stored, refused - Pulled(rows))
    ensures !more ==> forall k :: k in stored ==> stored[k].rev <= rev
  {
    var after := c.(tasks := Overlay(c.tasks, rows), cursor := rev);
    forall k | k !in refused - Pulled(rows)
      ensures LagsAt(after, stored, k)
    {
      assert k !in refused ==> LagsAt(c, stored, k);
      if Listed(rows, k) {
        var i :| 0 <= i < |rows| && rows[i].key == k;
        OverlaidAt(c.tasks, rows, k, rows[i].task);
      } else {
        OverlaidAt(c.tasks, rows, k, Task(""));
      }
    }
  }

  // ---- The whole system ----

  /**
   * The client, the server, a response on its way, and the keys with an operation refused since a page last
   * brought them.
   */
  datatype World = World(client: Client, server: Server, reply: Option<Reply>, refused: set<Key>)

  datatype Action =
    | Create(key: Key, body: string, task: Task)
    | Change(key: Key, body: string, task: Task)
    | Elsewhere(key: Key, task: Task)
    | Serve(n: nat, verdicts: seq<Verdict>, rows: seq<Row>, rev: int, more: bool)
    | Deliver
    | Lose

  /**
   * While a request is open the state lock keeps local edits out, but other writers go on. A new key
   * is one the client does not know. A lost request changes nothing, so only lost responses appear.
   */
  ghost predicate Enabled(w: World, a: Action) {
    match a
    case Create(key, _, _) => w.reply.None? && key !in w.client.tasks
    case Change(key, _, _) => w.reply.None? && key in w.client.tasks
    case Elsewhere(_, _) => true
    case Serve(n, verdicts, rows, rev, more) =>
      && w.reply.None? && n <= |w.client.outbox| && n == |verdicts|
      && LegalAll(w.server, w.client.outbox[..n], verdicts)
      && IsPage(ApplyAll(w.server, w.client.outbox[..n], verdicts).stored, w.client.cursor, rows, rev, more)
    case Deliver => w.reply.Some? && w.reply.value.settled <= |w.client.outbox|
    case Lose => w.reply.Some?
  }

  ghost function After(w: World, a: Action): World
    requires Enabled(w, a)
  {
    match a
    case Create(key, body, task) => w.(client := Edited(w.client, Op(true, key, body), task))
    case Change(key, body, task) => w.(client := Edited(w.client, Op(false, key, body), task))
    case Elsewhere(key, task) => w.(server := Write(w.server, key, task))
    case Serve(n, verdicts, rows, rev, more) =>
      var ops := w.client.outbox[..n];
      var served := ApplyAll(w.server, ops, verdicts);
      World(w.client, served, Some(Reply(n, rows, rev, more, served.stored)), w.refused + RefusedIn(ops, verdicts))
    case Deliver =>
      w.(client := Delivered(w.client, w.reply.value), reply := None, refused := w.refused - Pulled(w.reply.value.rows))
    case Lose => w.(reply := None)
  }

  /** What a response under way guarantees to the client it is meant for. */
  ghost predicate Answers(c: Client, s: Server, reply: Reply, refused: set<Key>) {
    && reply.settled <= |c.outbox|
    && Lags(Delivered(c, reply), reply.at, refused - Pulled(reply.rows))
    && Lags(Delivered(c, reply), s.stored, refused - Pulled(reply.rows))
    && Delivered(c, reply).cursor <= s.last
    && (!reply.more ==> forall k :: k in reply.at ==> reply.at[k].rev <= Delivered(c, reply).cursor)
  }

  ghost predicate Inv(w: World) {
    && Stamped(w.server) && w.client.cursor <= w.server.last
    && Lags(w.client, w.server.stored, w.refused)
    && (w.reply.Some? ==> Answers(w.client, w.server, w.reply.value, w.refused))
  }

  lemma {:induction false} QueuedAlso(outbox: seq<Op>, op: Op, k: Key)
    ensures Changes(outbox, k) ==> Changes(outbox + [op], k)
    ensures Creates(outbox, k) ==> Creates(outbox + [op], k)
    ensures FirstCreates(outbox, k) ==> FirstCreates(outbox + [op], k)
    ensures op.key == k && !op.create ==> Changes(outbox + [op], k)
    ensures op.key == k && op.create ==> Creates(outbox + [op], k)
    ensures op.key == k && op.create && (forall i :: 0 <= i < |outbox| ==> outbox[i].key != k) ==>
              FirstCreates(outbox + [op], k)
    decreases |outbox|
  {
    var more := outbox + [op];
    assert more[|outbox|] == op;
    assert forall i :: 0 <= i < |outbox| ==> more[i] == outbox[i];
    if outbox != [] {
      assert more[1..] == outbox[1..] + [op];
      QueuedAlso(outbox[1..], op, k);
    }
  }

  lemma EditLags(c: Client, stored: map<Key, Stored>, refused: set<Key>, op: Op, task: Task)
    requires Lags(c, stored, refused)
    requires op.create <==> op.key !in c.tasks
    ensures Lags(Edited(c, op, task), stored, refused)
  {
    forall k | k !in refused
      ensures LagsAt(Edited(c, op, task), stored, k)
    {
      assert LagsAt(c, stored, k);
      QueuedAlso(c.outbox, op, k);
      if k == op.key && op.create && Changes(c.outbox, k) {
        assert false;
      }
    }
  }

  /** An edit shows at once: the client's own task is the edited one, the others stay, and its operation comes last. */
  lemma EditShows(w: World, a: Action)
    requires Enabled(w, a) && (a.Create? || a.Change?)
    ensures var c := After(w, a).client;
            && c.tasks.Keys == w.client.tasks.Keys + {a.key} && c.tasks[a.key] == a.task
            && (forall k :: k in w.client.tasks && k != a.key ==> c.tasks[k] == w.client.tasks[k])
            && c.outbox == w.client.outbox + [Op(a.Create?, a.key, a.body)] && c.cursor == w.client.cursor
    ensures After(w, a).server == w.server
  {
  }

  /** A lost response changes nothing on either side, and the client may go on. */
  lemma LossLeavesBothSides(w: World)
    requires Enabled(w, Lose)
    ensures var after := After(w, Lose);
            && after.client == w.client && after.server == w.server && after.refused == w.refused
            && forall k, body, task :: k !in w.client.tasks ==> Enabled(after, Create(k, body, task))
  {
  }

  lemma ServeKeeps(w: World, n: nat, verdicts: seq<Verdict>, rows: seq<Row>, rev: int, more: bool)
    requires Inv(w) && Enabled(w, Serve(n, verdicts, rows, rev, more))
    ensures Inv(After(w, Serve(n, verdicts, rows, rev, more)))
  {
    var c, ops := w.client, w.client.outbox[..n];
    var served := ApplyAll(w.server, ops, verdicts);
    var refused := w.refused + RefusedIn(ops, verdicts);
    BatchLags(c, w.server, w.refused, n, verdicts);
    var rest := c.(outbox := c.outbox[n..]);
    PullLags(rest, served.stored, refused, rows, rev, more);
    var reply := Reply(n, rows, rev, more, served.stored);
    assert Delivered(c, reply) == rest.(tasks := Overlay(c.tasks, rows), cursor := rev);
    if rows != [] {
      assert served.stored[Last(rows).key].rev == rev;
    }
  }

  lemma StepKeeps(w: World, a: Action)
    requires Inv(w) && Enabled(w, a)
    ensures Inv(After(w, a))
  {
    match a
    case Create(key, body, task) => EditLags(w.client, w.server.stored, w.refused, Op(true, key, body), task);
    case Change(key, body, task) => EditLags(w.client, w.server.stored, w.refused, Op(false, key, body), task);
    case Elsewhere(key, task) =>
      WriteLags(w.client, w.server, w.refused, key, task);
      if w.reply.Some? {
        WriteLags(Delivered(w.client, w.reply.value), w.server, w.refused - Pulled(w.reply.value.rows), key, task);
      }
    case Serve(n, verdicts, rows, rev, more) => ServeKeeps(w, n, verdicts, rows, rev, more);
    case Deliver =>
    case Lose =>
  }

  // ---- Runs ----

  ghost predicate Runs(w: World, acts: seq<Action>, v: World)
    decreases |acts|
  {
    if acts == [] then w == v else Enabled(w, acts[0]) && Runs(After(w, acts[0]), acts[1..], v)
  }

  lemma {:induction false} RunKeeps(w: World, acts: seq<Action>, v: World)
    requires Inv(w) && Runs(w, acts, v)
    ensures Inv(v)
    decreases |acts|
  {
    if acts != [] {
      StepKeeps(w, acts[0]);
      RunKeeps(After(w, acts[0]), acts[1..], v);
    }
  }

  lemma {:induction false} RunsJoin(w: World, acts: seq<Action>, mid: World, more: seq<Action>, v: World)
    requires Runs(w, acts, mid) && Runs(mid, more, v)
    ensures Runs(w, acts + more, v)
    decreases |acts|
  {
    if acts == [] {
      assert acts + more == more;
    } else {
      assert (acts + more)[0] == acts[0] && (acts + more)[1..] == acts[1..] + more;
      RunsJoin(After(w, acts[0]), acts[1..], mid, more, v);
    }
  }

  /** A fresh clone of the repository before its first sync. */
  function Fresh(server: Server): World { World(Client(map[], 0, []), server, None, {}) }

  ghost predicate FreshServer(server: Server) {
    Stamped(server) && server.last >= 0 && forall k :: k in server.stored ==> server.stored[k].rev > 0
  }

  /** The cache as the server's own map shows it. */
  function Contents(stored: map<Key, Stored>): map<Key, Task> { map k | k in stored :: stored[k].task }

  /**
   * After any history of edits, other people's writes, lost responses and failed syncs: when the last
   * response of a sync settles the outbox and announces no more pages, the cache agrees with the
   * server at the moment of that response, except for keys with an operation refused and not brought
   * by a page since.
   */
  lemma SyncConverges(server: Server, acts: seq<Action>, w: World)
    requires FreshServer(server) && Runs(Fresh(server), acts, w)
    requires Enabled(w, Deliver) && !w.reply.value.more && After(w, Deliver).client.outbox == []
    ensures forall k :: k !in After(w, Deliver).refused ==> SameAt(After(w, Deliver).client.tasks, w.reply.value.at, k)
  {
    RunKeeps(Fresh(server), acts, w);
    var c, at := After(w, Deliver).client, w.reply.value.at;
    forall k | k !in After(w, Deliver).refused
      ensures SameAt(c.tasks, at, k)
    {
      assert LagsAt(c, at, k);
    }
  }

  lemma SameEverywhere(tasks: map<Key, Task>, stored: map<Key, Stored>)
    ensures tasks == Contents(stored) <==> forall k :: SameAt(tasks, stored, k)
  {
    if forall k :: SameAt(tasks, stored, k) {
      var contents := Contents(stored);
      forall k
        ensures k in tasks <==> k in contents
        ensures k in tasks ==> tasks[k] == contents[k]
      {
        assert SameAt(tasks, stored, k);
      }
    } else {
      var k :| !SameAt(tasks, stored, k);
    }
  }

  /** No operation in the run was refused. */
  ghost predicate NoRefusals(acts: seq<Action>) {
    forall i, j :: 0 <= i < |acts| && acts[i].Serve? && 0 <= j < |acts[i].verdicts| ==> !acts[i].verdicts[j].Refused?
  }

  lemma {:induction false} NothingRefusedIn(ops: seq<Op>, verdicts: seq<Verdict>)
    requires |ops| == |verdicts| && forall j :: 0 <= j < |verdicts| ==> !verdicts[j].Refused?
    ensures RefusedIn(ops, verdicts) == {}
    decreases |ops|
  {
    if ops != [] {
      NothingRefusedIn(ops[1..], verdicts[1..]);
    }
  }

  lemma {:induction false} NothingRefused(w: World, acts: seq<Action>, v: World)
    requires Runs(w, acts, v) && NoRefusals(acts)
    ensures v.refused <= w.refused
    decreases |acts|
  {
    if acts != [] {
      if acts[0].Serve? {
        NothingRefusedIn(w.client.outbox[..acts[0].n], acts[0].verdicts);
      }
      var rest := acts[1..];
      assert forall i :: 0 <= i < |rest| ==> rest[i] == acts[i + 1];
      NothingRefused(After(w, acts[0]), rest, v);
    }
  }

  /** Without refusals the cache becomes the server's map; retried creates that now conflict do no harm. */
  lemma AcceptedSyncConverges(server: Server, acts: seq<Action>, w: World)
    requires FreshServer(server) && Runs(Fresh(server), acts, w) && NoRefusals(acts)
    requires Enabled(w, Deliver) && !w.reply.value.more && After(w, Deliver).client.outbox == []
    ensures After(w, Deliver).client.tasks == Contents(w.reply.value.at)
  {
    NothingRefused(Fresh(server), acts, w);
    SyncConverges(server, acts, w);
    SameEverywhere(After(w, Deliver).client.tasks, w.reply.value.at);
  }

  lemma {:induction false} UntouchedStays(s: Server, ops: seq<Op>, verdicts: seq<Verdict>, k: Key)
    requires |ops| == |verdicts|
    requires forall i :: 0 <= i < |ops| && ops[i].key == k ==> !verdicts[i].Done?
    ensures var after := ApplyAll(s, ops, verdicts).stored;
            (k in after <==> k in s.stored) && (k in after ==> after[k] == s.stored[k])
    decreases |ops|
  {
    if ops != [] {
      assert forall i :: 0 <= i < |ops| - 1 ==> ops[1..][i] == ops[i + 1] && verdicts[1..][i] == verdicts[i + 1];
      UntouchedStays(Apply(s, ops[0], verdicts[0]), ops[1..], verdicts[1..], k);
    }
  }

  lemma {:induction false} AcceptedIsAhead(s: Server, ops: seq<Op>, verdicts: seq<Verdict>, k: Key)
    requires |ops| == |verdicts| && exists i :: 0 <= i < |ops| && ops[i].key == k && verdicts[i].Done?
    ensures var after := ApplyAll(s, ops, verdicts).stored; k in after && after[k].rev > s.last
    decreases |ops|
  {
    var i :| 0 <= i < |ops| && ops[i].key == k && verdicts[i].Done?;
    var rest, left := ops[1..], verdicts[1..];
    var next := Apply(s, ops[0], verdicts[0]);
    if i > 0 {
      assert rest[i - 1].key == k && left[i - 1].Done?;
      AcceptedIsAhead(next, rest, left, k);
    } else if exists j :: 0 <= j < |rest| && rest[j].key == k && left[j].Done? {
      AcceptedIsAhead(next, rest, left, k);
    } else {
      UntouchedStays(next, rest, left, k);
    }
  }

  /** Some operation of the batch on this key is accepted. */
  ghost predicate AcceptedIn(w: World, serve: Action, k: Key)
    requires serve.Serve? && serve.n <= |w.client.outbox| && serve.n == |serve.verdicts|
  {
    exists j :: 0 <= j < serve.n && w.client.outbox[j].key == k && serve.verdicts[j].Done?
  }

  /** An operation on the key is accepted, the server has a revision of it to pull, or the two agree already. */
  ghost predicate MendedBy(w: World, serve: Action, k: Key)
    requires serve.Serve? && serve.n <= |w.client.outbox| && serve.n == |serve.verdicts|
  {
    || AcceptedIn(w, serve, k)
    || (k in w.server.stored && w.server.stored[k].rev > w.client.cursor)
    || SameAt(w.client.tasks, w.server.stored, k)
  }

  /**
   * What one round does to one key, in terms of what can be seen before it: after a round with no more
   * pages the cache agrees with the server on the key if and only if an operation on it was accepted,
   * the server has a revision of it ahead of the cursor, or the two agreed already. So a refused create
   * of a missing key always diverges, and a refused change diverges exactly when the contents differ
   * and no newer revision is due.
   */
  lemma RoundAgreesIff(w: World, serve: Action, k: Key)
    requires Inv(w) && serve.Serve? && Enabled(w, serve) && !serve.more
    ensures var served := After(w, serve);
            SameAt(After(served, Deliver).client.tasks, served.reply.value.at, k) <==> MendedBy(w, serve, k)
  {
    var ops := w.client.outbox[..serve.n];
    var at := ApplyAll(w.server, ops, serve.verdicts).stored;
    LastPageAgrees(w.client.tasks, at, w.client.cursor, serve.rows, serve.rev, k);
    if AcceptedIn(w, serve, k) {
      var j :| 0 <= j < serve.n && w.client.outbox[j].key == k && serve.verdicts[j].Done?;
      assert ops[j].key == k;
      AcceptedIsAhead(w.server, ops, serve.verdicts, k);
    } else {
      UntouchedStays(w.server, ops, serve.verdicts, k);
    }
  }

  /** A last page brings exactly the keys ahead of the cursor, so it mends exactly those. */
  lemma LastPageAgrees(tasks: map<Key, Task>, at: map<Key, Stored>, since: int, rows: seq<Row>, rev: int, k: Key)
    requires IsPage(at, since, rows, rev, false)
    ensures SameAt(Overlay(tasks, rows), at, k) <==> (k in at && at[k].rev > since) || SameAt(tasks, at, k)
  {
    if Listed(rows, k) {
      var i :| 0 <= i < |rows| && rows[i].key == k;
      OverlaidAt(tasks, rows, k, rows[i].task);
    } else {
      OverlaidAt(tasks, rows, k, Task(""));
    }
  }

  /**
   * After any history the last round leaves the whole cache equal to the server's map if and only if it mends
   * every key.
   */
  lemma SyncConvergesIff(server: Server, acts: seq<Action>, w: World, serve: Action)
    requires FreshServer(server) && Runs(Fresh(server), acts, w)
    requires serve.Serve? && Enabled(w, serve) && !serve.more
    ensures var served := After(w, serve);
            After(served, Deliver).client.tasks == Contents(served.reply.value.at) <==>
              forall k :: MendedBy(w, serve, k)
  {
    RunKeeps(Fresh(server), acts, w);
    var served := After(w, serve);
    var tasks, at := After(served, Deliver).client.tasks, served.reply.value.at;
    SameEverywhere(tasks, at);
    forall k
      ensures SameAt(tasks, at, k) <==> MendedBy(w, serve, k)
    {
      RoundAgreesIff(w, serve, k);
    }
  }

  /** A refused operation is dropped like any other, and then the cache keeps what the server never had. */
  lemma RefusalDiverges() returns (acts: seq<Action>, w: World)
    ensures FreshServer(Server(map[], 0)) && Runs(Fresh(Server(map[], 0)), acts, w)
    ensures Enabled(w, Deliver) && !w.reply.value.more && After(w, Deliver).client.outbox == []
    ensures After(w, Deliver).client.tasks != Contents(w.reply.value.at)
  {
    var key, start := Key("mf-a"), Fresh(Server(map[], 0));
    var first := Create(key, "", Task("draft"));
    var one := After(start, first);
    assert one.client.outbox[..1] == [Op(true, key, "")];
    var second := Serve(1, [Refused], [], 0, false);
    assert ApplyAll(one.server, [Op(true, key, "")], [Refused]) == one.server by {
      assert ApplyAll(one.server, [], []) == one.server;
    }
    w := After(one, second);
    acts := [first, second];
    assert acts[1..] == [second] && [second][1..] == [];
    assert Runs(one, [second], w);
    assert key in After(w, Deliver).client.tasks;
  }

  // ---- Conservation ----

  function QueuedBy(a: Action): seq<Op> {
    match a
    case Create(key, body, _) => [Op(true, key, body)]
    case Change(key, body, _) => [Op(false, key, body)]
    case _ => []
  }

  ghost function AckedBy(w: World, a: Action): seq<Op>
    requires Enabled(w, a)
  {
    if a.Deliver? then w.client.outbox[..w.reply.value.settled] else []
  }

  /** The operations queued by the edits of a run, in order. */
  function Queued(acts: seq<Action>): seq<Op>
    decreases |acts|
  {
    if acts == [] then [] else QueuedBy(acts[0]) + Queued(acts[1..])
  }

  /** The operations acknowledged by the responses delivered in a run, in order. */
  ghost function Acknowledged(w: World, acts: seq<Action>, v: World): seq<Op>
    requires Runs(w, acts, v)
    decreases |acts|
  {
    if acts == [] then [] else AckedBy(w, acts[0]) + Acknowledged(After(w, acts[0]), acts[1..], v)
  }

  lemma StepConserves(w: World, a: Action)
    requires Enabled(w, a)
    ensures AckedBy(w, a) + After(w, a).client.outbox == w.client.outbox + QueuedBy(a)
  {
  }

  lemma Regroup(acked: seq<Op>, more: seq<Op>, end: seq<Op>, mid: seq<Op>, start: seq<Op>, queued: seq<Op>,
                rest: seq<Op>)
    requires acked + mid == start + queued && more + end == mid + rest
    ensures (acked + more) + end == start + (queued + rest)
  {
    assert (acked + more) + end == acked + (more + end);
    assert acked + (mid + rest) == (acked + mid) + rest;
    assert (start + queued) + rest == start + (queued + rest);
  }

  /** Whatever is lost or retried, the acknowledged operations followed by the outbox are all queued ones, in order. */
  lemma {:induction false} NothingIsLost(w: World, acts: seq<Action>, v: World)
    requires Runs(w, acts, v)
    ensures Acknowledged(w, acts, v) + v.client.outbox == w.client.outbox + Queued(acts)
    decreases |acts|
  {
    if acts != [] {
      var next := After(w, acts[0]);
      StepConserves(w, acts[0]);
      NothingIsLost(next, acts[1..], v);
      Regroup(AckedBy(w, acts[0]), Acknowledged(next, acts[1..], v), v.client.outbox, next.client.outbox,
              w.client.outbox, QueuedBy(acts[0]), Queued(acts[1..]));
    }
  }
}
