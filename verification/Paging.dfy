/**
 * Keyset pages over opaque cursors: a cursor is base64url of a kind, a timestamp and an id, and a page
 * holds the rows strictly past it, newest first (internal/agents/run_cursor.go,
 * internal/agents/agent_run.go, internal/automations/enrollments.go, internal/automations/service.go).
 */
module Paging {
  import opened Prelude
  import opened Base64Url

  const BAR: byte := 124

  /** What a list is ordered by: a timestamp and, among equals, an id. */
  datatype Keyset = Keyset(at: int, id: int)

  predicate Before(a: Keyset, b: Keyset) { a.at < b.at || (a.at == b.at && a.id < b.id) }

  /**
   * How timestamps and ids are written; parsing is theirs to define on anything else. The layout has a first
   * and last instant.
   */
  datatype Format = Format(
    first: int,
    last: int,
    writeAt: int -> seq<byte>,
    readAt: seq<byte> -> Option<int>,
    writeId: int -> seq<byte>,
    readId: seq<byte> -> Option<int>)

  /** The layout can write this instant. */
  predicate Writable(f: Format, k: Keyset) { f.first <= k.at <= f.last }

  /** What the time and uuid libraries give: within the layout's range what is written reads back, and has no bar. */
  ghost predicate Faithful(f: Format) {
    && (forall t :: f.first <= t <= f.last ==> f.readAt(f.writeAt(t)) == Some(t) && BAR !in f.writeAt(t))
    && (forall id :: f.readId(f.writeId(id)) == Some(id))
  }

  // ---- The codec ----

  /** Everything up to the first bar, and everything after it. */
  function Cut(raw: seq<byte>): Option<(seq<byte>, seq<byte>)> {
    if raw == [] then None
    else if raw[0] == BAR then Some(([], raw[1..]))
    else
      match Cut(raw[1..])
      case None => None
      case Some((head, tail)) => Some(([raw[0]] + head, tail))
  }

  lemma {:induction false} CutAtFirst(head: seq<byte>, tail: seq<byte>)
    requires BAR !in head
    ensures Cut(head + [BAR] + tail) == Some((head, tail))
  {
    var raw := head + [BAR] + tail;
    if head == [] {
      assert raw[1..] == tail;
    } else {
      CutAtFirst(head[1..], tail);
      assert raw[1..] == head[1..] + [BAR] + tail;
      assert [head[0]] + head[1..] == head;
    }
  }

  function EncodeCursor(f: Format, kind: seq<byte>, k: Keyset): string {
    Encode(kind + [BAR] + (f.writeAt(k.at) + [BAR] + f.writeId(k.id)))
  }

  /** Bad base64, too few fields, a foreign kind or an unreadable field: all are None. */
  function DecodeCursor(f: Format, kind: seq<byte>, token: string): Option<Keyset> {
    match Decode(token)
    case None => None
    case Some(raw) =>
      match Cut(raw)
      case None => None
      case Some((head, tail)) =>
        match Cut(tail)
        case None => None
        case Some((at, id)) =>
          if head != kind then None
          else
            match f.readAt(at)
            case None => None
            case Some(t) =>
              match f.readId(id)
              case None => None
              case Some(i) => Some(Keyset(t, i))
  }

  lemma CursorRoundTrip(f: Format, kind: seq<byte>, k: Keyset)
    requires Faithful(f) && BAR !in kind && Writable(f, k)
    ensures DecodeCursor(f, kind, EncodeCursor(f, kind, k)) == Some(k)
    ensures EncodeCursor(f, kind, k) != ""
    ensures Decode(EncodeCursor(f, kind, k)) == Some(kind + [124] + f.writeAt(k.at) + [124] + f.writeId(k.id))
  {
    var tail := f.writeAt(k.at) + [BAR] + f.writeId(k.id);
    RoundTrip(kind + [BAR] + tail);
    assert kind + [BAR] + tail == kind + [124] + f.writeAt(k.at) + [124] + f.writeId(k.id);
    CutAtFirst(kind, tail);
    CutAtFirst(f.writeAt(k.at), f.writeId(k.id));
    EncodedIsNonempty(kind + [BAR] + tail);
  }

  /** No token is accepted for two kinds, so a cursor of one list is rejected by every other. */
  lemma KindsDoNotMix(f: Format, kind: seq<byte>, other: seq<byte>, token: string)
    requires DecodeCursor(f, kind, token).Some? && DecodeCursor(f, other, token).Some?
    ensures kind == other
  {
  }

  lemma ForeignCursorIsRejected(f: Format, kind: seq<byte>, other: seq<byte>, k: Keyset)
    requires Faithful(f) && BAR !in kind && kind != other && Writable(f, k)
    ensures DecodeCursor(f, other, EncodeCursor(f, kind, k)) == None
  {
    CursorRoundTrip(f, kind, k);
  }

  // ---- Pages ----

  /** The rows of a list, newest first and no two alike. */
  ghost predicate Newest(all: seq<Keyset>) {
    forall i, j :: 0 <= i < j < |all| ==> Before(all[j], all[i])
  }

  /** The rows strictly past a boundary. */
  function Past(all: seq<Keyset>, boundary: Keyset): seq<Keyset> {
    if all == [] then []
    else if Before(all[0], boundary) then [all[0]] + Past(all[1..], boundary)
    else Past(all[1..], boundary)
  }

  /** Where page one begins: before everything, or at a fixed tuple meant to exceed every row. */
  function First(all: seq<Keyset>, start: Option<Keyset>): seq<Keyset> {
    if start.Some? then Past(all, start.value) else all
  }

  datatype Page = Page(items: seq<Keyset>, next: Option<string>)

  datatype Listing = Listing(format: Format, kind: seq<byte>, start: Option<Keyset>, standard: nat, most: nat)

  ghost predicate Sensible(l: Listing) {
    Faithful(l.format) && BAR !in l.kind && 0 < l.standard <= l.most
  }

  /** The size of a page: as asked for within the bounds, the standard without a limit, and the most beyond it. */
  function Clamp(l: Listing, limit: int): (n: nat)
    ensures 0 < limit <= l.most ==> n == limit
    ensures limit <= 0 ==> n == l.standard
    ensures limit > l.most ==> n == l.most
  {
    if limit <= 0 then l.standard else if limit > l.most then l.most else limit
  }

  /** The rows a request is about; None for a bad cursor. */
  function Asked(l: Listing, all: seq<Keyset>, cursor: string): Option<seq<Keyset>> {
    if cursor == "" then Some(First(all, l.start))
    else
      match DecodeCursor(l.format, l.kind, cursor)
      case None => None
      case Some(k) => Some(Past(all, k))
  }

  /** One request: fetch one row more than the page takes, to know whether another page follows. */
  method ListPage(l: Listing, all: seq<Keyset>, cursor: string, limit: int) returns (page: Option<Page>)
    requires Sensible(l)
    ensures page.None? <==> Asked(l, all, cursor).None?
    ensures page.Some? ==>
              var rows := Asked(l, all, cursor).value;
              var n := Clamp(l, limit);
              && page.value.items == (if |rows| > n then rows[..n] else rows)
              && page.value.next == (if |rows| > n then Some(EncodeCursor(l.format, l.kind, rows[n - 1])) else None)
  {
    var n := Clamp(l, limit);
    var asked := Asked(l, all, cursor);
    if asked.None? {
      return None;
    }
    var rows := if |asked.value| > n + 1 then asked.value[..n + 1] else asked.value;
    if |rows| > n {
      return Some(Page(rows[..n], Some(EncodeCursor(l.format, l.kind, rows[n - 1]))));
    }
    return Some(Page(rows, None));
  }

  lemma {:induction false} PastIsSuffix(all: seq<Keyset>, boundary: Keyset)
    requires Newest(all)
    ensures |Past(all, boundary)| <= |all|
    ensures Past(all, boundary) == all[|all| - |Past(all, boundary)|..]
  {
    if all != [] {
      if Before(all[0], boundary) {
        AllPast(all, boundary);
      } else {
        PastIsSuffix(all[1..], boundary);
      }
    }
  }

  lemma {:induction false} PastAreBefore(all: seq<Keyset>, boundary: Keyset, i: nat)
    requires i < |Past(all, boundary)|
    ensures Before(Past(all, boundary)[i], boundary)
  {
    if Before(all[0], boundary) {
      if i > 0 {
        PastAreBefore(all[1..], boundary, i - 1);
      }
    } else {
      PastAreBefore(all[1..], boundary, i);
    }
  }

  lemma {:induction false} AllPast(all: seq<Keyset>, boundary: Keyset)
    requires forall i :: 0 <= i < |all| ==> Before(all[i], boundary)
    ensures Past(all, boundary) == all
  {
    if all != [] {
      assert forall i :: 0 <= i < |all| - 1 ==> all[1..][i] == all[i + 1];
      AllPast(all[1..], boundary);
    }
  }

  /** The rows past the last row of a page are exactly the ones the page left over. */
  lemma {:induction false} PastARow(all: seq<Keyset>, i: nat)
    requires Newest(all) && i < |all|
    ensures Past(all, all[i]) == all[i + 1..]
  {
    var rest := all[1..];
    assert forall j :: 0 <= j < |rest| ==> rest[j] == all[j + 1];
    if i == 0 {
      AllPast(rest, all[0]);
    } else {
      PastARow(rest, i - 1);
      assert rest[i - 1 + 1..] == all[i + 1..];
    }
  }

  /** The cursor a page hands out after row `i - 1` leads to the rows from `i` on. */
  ghost predicate ResumesAt(l: Listing, all: seq<Keyset>, i: int)
    requires 0 < i <= |all|
  {
    Asked(l, all, EncodeCursor(l.format, l.kind, all[i - 1])) == Some(all[i..])
  }

  lemma NextCursorResumes(l: Listing, all: seq<Keyset>, i: int)
    requires Sensible(l) && Newest(all) && 0 < i <= |all| && Writable(l.format, all[i - 1])
    ensures ResumesAt(l, all, i)
  {
    CursorRoundTrip(l.format, l.kind, all[i - 1]);
    PastARow(all, i - 1);
  }

  /** How a page cuts the rows that are left. */
  ghost predicate Cuts(l: Listing, all: seq<Keyset>, i: nat, n: nat, page: Page)
    requires i <= |all| && 0 < n
  {
    if |all| - i > n then page == Page(all[i..i + n], Some(EncodeCursor(l.format, l.kind, all[i + n - 1])))
    else page == Page(all[i..], None)
  }

  method PageAt(l: Listing, all: seq<Keyset>, cursor: string, limit: int, ghost i: nat) returns (page: Page)
    requires Sensible(l) && i <= |all| && Asked(l, all, cursor) == Some(all[i..])
    ensures Cuts(l, all, i, Clamp(l, limit), page)
  {
    var found := ListPage(l, all, cursor, limit);
    page := found.value;
  }

  /** Following next_cursor from some request on. */
  method Follow(l: Listing, all: seq<Keyset>, limits: nat -> int, first: string, ghost begin: nat)
    returns (items: seq<Keyset>)
    requires Sensible(l) && begin <= |all| && Asked(l, all, first) == Some(all[begin..])
    requires forall i :: 0 < i <= |all| ==> ResumesAt(l, all, i)
    ensures items == all[begin..]
  {
    items := [];
    var cursor, pages := first, 0;
    ghost var i := begin;
    while true
      invariant begin <= i <= |all|
      invariant Asked(l, all, cursor) == Some(all[i..])
      invariant items == all[begin..i]
      decreases |all| - i
    {
      var page := PageAt(l, all, cursor, limits(pages), i);
      items := items + page.items;
      if page.next.None? {
        return;
      }
      i := i + Clamp(l, limits(pages));
      assert ResumesAt(l, all, i);
      cursor := page.next.value;
      pages := pages + 1;
    }
  }

  /**
   * Following next_cursor from the empty cursor: for every table and every limit, even one that changes
   * from page to page, the pages together are the rows past the start, in order, each exactly once.
   */
  method FollowAll(l: Listing, all: seq<Keyset>, limits: nat -> int) returns (items: seq<Keyset>)
    requires Sensible(l) && Newest(all) && forall k :: k in all ==> Writable(l.format, k)
    ensures items == First(all, l.start)
    ensures forall i, j :: 0 <= i < j < |items| ==>
              items[j].at < items[i].at || (items[j].at == items[i].at && items[j].id < items[i].id)
  {
    if l.start.Some? {
      PastIsSuffix(all, l.start.value);
    }
    forall i | 0 < i <= |all|
      ensures ResumesAt(l, all, i)
    {
      NextCursorResumes(l, all, i);
    }
    items := Follow(l, all, limits, "", |all| - |First(all, l.start)|);
  }

  /** The whole list comes out exactly when the start exceeds every row. */
  lemma WholeListIff(all: seq<Keyset>, start: Option<Keyset>)
    ensures First(all, start) == all <==> (start.Some? ==> forall k :: k in all ==> Before(k, start.value))
  {
    if start.Some? {
      if forall k :: k in all ==> Before(k, start.value) {
        AllPast(all, start.value);
      } else {
        var i :| 0 <= i < |all| && !Before(all[i], start.value);
        if i < |Past(all, start.value)| {
          PastAreBefore(all, start.value, i);
        }
      }
    }
  }
}
