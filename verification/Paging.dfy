/** `list_messages` and `list_conversations` of app/services/chat.py, and what a client that
    follows their cursors gets while messages keep arriving. */
module Paging {
  import opened Basics
  import opened Clock
  import opened Uuids
  import opened Models
  import opened ChatStore
  import opened ChatInvariant
  import opened ChatCommits
  import opened KeySets
  import Cursors
  import Receipts

  /** The cursor that `to_out` gives a message. */
  function CursorOf(m: Message): string {
    Cursors.EncodeCursor(m.createdAt, m.id)
  }

  datatype Page = Page(items: seq<Message>, nextCursor: Option<string>, hasMore: bool)

  /** Python's truth value of an optional string. */
  predicate Given(cursor: Option<string>) {
    cursor.Some? && cursor.value != ""
  }

  function KeyOf(cursor: string): Option<Key> {
    match Cursors.DecodeCursor(cursor)
    case None => None
    case Some((at, id)) => Some(Keyed(at, id))
  }

  function MessagesIn(db: Db, conversation: Uuid): set<Message> {
    set id | id in db.messages && db.messages[id].conversation == conversation :: db.messages[id]
  }

  ghost predicate RowIds(db: Db) {
    forall id | id in db.messages :: db.messages[id].id == id
  }

  lemma MessagesInAreDistinct(db: Db, conversation: Uuid)
    requires RowIds(db)
    ensures DistinctIds(MessagesIn(db, conversation))
  {
  }

  predicate Member(db: Db, user: UserId, conversation: Uuid) {
    conversation in db.conversations && db.conversations[conversation].Has(user)
  }

  /** Oldest first after a cursor. */
  ghost function SyncPage(ms: set<Message>, limit: nat, from: Key, cursor: string): Page
    requires DistinctIds(ms)
  {
    var rows := Take(Ascending(Above(ms, from)), limit + 1);
    var items := Take(rows, limit);
    Page(items, Some(if items == [] then cursor else CursorOf(items[|items| - 1])), |rows| > limit)
  }

  /** Newest first, all or before a cursor. */
  ghost function HistoryPage(ms: set<Message>, limit: nat): Page
    requires DistinctIds(ms)
  {
    var rows := Take(Descending(ms), limit + 1);
    var items := Take(rows, limit);
    Page(items, if |rows| > limit && items != [] then Some(CursorOf(items[|items| - 1])) else None, |rows| > limit)
  }

  ghost function ListMessages(db: Db, user: UserId, conversation: Uuid, limit: nat,
                              before: Option<string>, after: Option<string>): Result<Page, Error>
    requires RowIds(db)
  {
    MessagesInAreDistinct(db, conversation);
    var ms := MessagesIn(db, conversation);
    if Given(before) && Given(after) then Err(BadRequest)
    else if !Member(db, user, conversation) then Err(NotFound)
    else if Given(after) then
      match KeyOf(after.value)
      case None => Err(InvalidCursor)
      case Some(k) => Ok(SyncPage(ms, limit, k, after.value))
    else if Given(before) then
      match KeyOf(before.value)
      case None => Err(InvalidCursor)
      case Some(k) => Ok(HistoryPage(Below(ms, k), limit))
    else Ok(HistoryPage(ms, limit))
  }

  lemma CursorNamesKey(m: Message)
    ensures KeyOf(CursorOf(m)) == Some(m.Key()) && Given(Some(CursorOf(m)))
  {
    Cursors.CursorRoundTrip(m.createdAt, m.id);
    Cursors.CursorLength(m.createdAt, m.id);
  }

  // ---- one page of catch-up sync

  /** The keys above `from` and up to `to`. */
  predicate Within(m: Message, from: Key, to: Key) {
    KeyLess(from, m.Key()) && KeyAtMost(m.Key(), to)
  }

  /** The key that the page's cursor stands for. */
  function EndKey(items: seq<Message>, from: Key): Key {
    if items == [] then from else items[|items| - 1].Key()
  }

  lemma PrefixIsInterval(ms: set<Message>, from: Key, n: nat, m: Message)
    requires DistinctIds(ms) && DistinctIds(Above(ms, from))
    ensures var items := Take(Ascending(Above(ms, from)), n);
            m in items <==> m in ms && Within(m, from, EndKey(items, from))
  {
    hide KeyLess;
    var s := Ascending(Above(ms, from));
    var k := if n <= |s| then n else |s|;
    assert Take(s, n) == s[..k];
    KeyLessIsTransitive(from, m.Key(), from);
    if m in s && k > 0 {
      PrefixByKey(s, k, m);
    }
  }

  lemma AboveIsDistinct(ms: set<Message>, from: Key)
    requires DistinctIds(ms)
    ensures DistinctIds(Above(ms, from))
  {
  }

  lemma TakeTwice(s: seq<Message>, n: nat)
    ensures Take(Take(s, n + 1), n) == Take(s, n)
  {
  }

  /** A page holds, in order, exactly the visible messages between its two cursors; it says that
      there is more exactly when it left something out. */
  lemma SyncPageIsInterval(ms: set<Message>, limit: nat, from: Key, cursor: string)
    requires DistinctIds(ms)
    ensures var page := SyncPage(ms, limit, from, cursor);
            && Ascends(page.items) && |page.items| <= limit
            && (forall m :: m in page.items <==> m in ms && Within(m, from, EndKey(page.items, from)))
            && (page.hasMore <==> |Above(ms, from)| > limit)
            && (!page.hasMore ==> forall m :: m in page.items <==> m in Above(ms, from))
  {
    hide KeyLess, Within, EndKey, DistinctIds;
    AboveIsDistinct(ms, from);
    var s := Ascending(Above(ms, from));
    TakeTwice(s, limit);
    forall m ensures m in SyncPage(ms, limit, from, cursor).items
                     <==> m in ms && Within(m, from, EndKey(SyncPage(ms, limit, from, cursor).items, from))
    {
      PrefixIsInterval(ms, from, limit, m);
    }
  }

  /** The cursor a page returns is the key of its last item; an empty page echoes its own. */
  lemma SyncCursor(ms: set<Message>, limit: nat, from: Key, cursor: string)
    requires DistinctIds(ms) && KeyOf(cursor) == Some(from) && cursor != ""
    ensures var page := SyncPage(ms, limit, from, cursor);
            Given(page.nextCursor) && KeyOf(page.nextCursor.value) == Some(EndKey(page.items, from))
    ensures KeyAtMost(from, EndKey(SyncPage(ms, limit, from, cursor).items, from))
  {
    hide Ordinal, KeyOf, CursorOf;
    var items := SyncPage(ms, limit, from, cursor).items;
    if items != [] {
      var last := items[|items| - 1];
      CursorNamesKey(last);
      assert last in Above(ms, from);
    }
  }

  // ---- catch-up sync over many requests

  /** One request of a client, and what was committed when it was served. */
  datatype Request = Request(db: Db, limit: nat)

  /** The requests are served in this order, and the user may read the conversation. */
  ghost predicate Served(requests: seq<Request>, user: UserId, conversation: Uuid) {
    && (forall r <- requests :: RowIds(r.db) && Member(r.db, user, conversation))
    && (forall i, j | 0 <= i <= j < |requests| :: Evolves(requests[i].db, requests[j].db))
  }

  ghost function Reply(r: Request, user: UserId, conversation: Uuid, cursor: string): Result<Page, Error>
    requires RowIds(r.db)
  {
    ListMessages(r.db, user, conversation, r.limit, None, Some(cursor))
  }

  /** The cursor a client holds after a request. */
  ghost function Next(r: Request, user: UserId, conversation: Uuid, cursor: string): string
    requires RowIds(r.db)
  {
    match Reply(r, user, conversation, cursor)
    case Ok(page) => if page.nextCursor.Some? then page.nextCursor.value else cursor
    case Err(_) => cursor
  }

  ghost function Items(r: Request, user: UserId, conversation: Uuid, cursor: string): seq<Message>
    requires RowIds(r.db)
  {
    match Reply(r, user, conversation, cursor)
    case Ok(page) => page.items
    case Err(_) => []
  }

  /** Everything a client receives by sending each returned cursor back as `after`. */
  ghost function Sync(requests: seq<Request>, user: UserId, conversation: Uuid, cursor: string): seq<Message>
    requires forall r <- requests :: RowIds(r.db)
  {
    if requests == [] then []
    else Items(requests[0], user, conversation, cursor)
         + Sync(requests[1..], user, conversation, Next(requests[0], user, conversation, cursor))
  }

  /** The cursor after the first `n` requests. */
  ghost function CursorAfter(requests: seq<Request>, n: nat, user: UserId, conversation: Uuid, cursor: string): string
    requires n <= |requests| && forall r <- requests :: RowIds(r.db)
  {
    if n == 0 then cursor
    else CursorAfter(requests[1..], n - 1, user, conversation, Next(requests[0], user, conversation, cursor))
  }

  ghost predicate Receives(items: seq<Message>, id: Uuid) {
    exists m :: m in items && m.id == id
  }

  predicate Holds(db: Db, conversation: Uuid, id: Uuid) {
    id in db.messages && db.messages[id].conversation == conversation
  }

  predicate ValidCursor(cursor: string) {
    cursor != "" && KeyOf(cursor).Some?
  }

  /** A served request returns the visible messages between the two cursors. */
  lemma RequestServed(r: Request, user: UserId, conversation: Uuid, cursor: string)
    requires RowIds(r.db) && Member(r.db, user, conversation) && ValidCursor(cursor)
    ensures var next := Next(r, user, conversation, cursor);
            var items := Items(r, user, conversation, cursor);
            && Reply(r, user, conversation, cursor).Ok?
            && ValidCursor(next) && KeyAtMost(KeyOf(cursor).value, KeyOf(next).value)
            && Ascends(items)
            && (forall m :: m in items <==> m in MessagesIn(r.db, conversation)
                                            && Within(m, KeyOf(cursor).value, KeyOf(next).value))
            && (!Reply(r, user, conversation, cursor).value.hasMore ==>
                  forall m :: m in items <==> m in Above(MessagesIn(r.db, conversation), KeyOf(cursor).value))
  {
    hide KeyOf, Within, KeyAtMost, KeyLess, SyncPage, EndKey, Above;
    MessagesInAreDistinct(r.db, conversation);
    var ms := MessagesIn(r.db, conversation);
    SyncCursor(ms, r.limit, KeyOf(cursor).value, cursor);
    SyncPageIsInterval(ms, r.limit, KeyOf(cursor).value, cursor);
  }

  lemma ServedTail(requests: seq<Request>, user: UserId, conversation: Uuid)
    requires requests != [] && Served(requests, user, conversation)
    ensures Served(requests[1..], user, conversation)
    ensures RowIds(requests[0].db) && Member(requests[0].db, user, conversation)
  {
    assert requests[0] in requests;
    assert forall r <- requests[1..] :: r in requests;
  }

  lemma ReceivesId(items: seq<Message>, db: Db, conversation: Uuid, id: Uuid, from: Key, to: Key)
    requires RowIds(db)
    requires forall m :: m in items <==> m in MessagesIn(db, conversation) && Within(m, from, to)
    ensures Receives(items, id) <==> Holds(db, conversation, id) && Within(db.messages[id], from, to)
  {
    hide Within;
    if Holds(db, conversation, id) && Within(db.messages[id], from, to) {
      assert db.messages[id] in MessagesIn(db, conversation);
      assert db.messages[id] in items;
    }
  }

  lemma ReceivesSplit(first: seq<Message>, rest: seq<Message>, id: Uuid)
    ensures Receives(first + rest, id) <==> Receives(first, id) || Receives(rest, id)
  {
    if Receives(first, id) {
      var m :| m in first && m.id == id;
      assert m in first + rest;
    }
    if Receives(rest, id) {
      var m :| m in rest && m.id == id;
      assert m in first + rest;
    }
  }

  lemma HoldsOn(a: Db, b: Db, conversation: Uuid, id: Uuid)
    requires Evolves(a, b) && Holds(a, conversation, id)
    ensures Holds(b, conversation, id) && b.messages[id].Key() == a.messages[id].Key()
  {
    assert KeepsMessage(a, b, id);
  }

  /** Cursors only move forward. */
  lemma {:induction false} CursorAdvances(requests: seq<Request>, n: nat, user: UserId, conversation: Uuid, cursor: string)
    requires Served(requests, user, conversation) && ValidCursor(cursor) && n <= |requests|
    ensures forall r <- requests :: RowIds(r.db)
    ensures var end := CursorAfter(requests, n, user, conversation, cursor);
            ValidCursor(end) && KeyAtMost(KeyOf(cursor).value, KeyOf(end).value)
    decreases n
  {
    hide KeyOf, KeyLess, ListMessages, Within;
    if n > 0 {
      var next := Next(requests[0], user, conversation, cursor);
      ServedTail(requests, user, conversation);
      RequestServed(requests[0], user, conversation, cursor);
      CursorAdvances(requests[1..], n - 1, user, conversation, next);
      var end := CursorAfter(requests, n, user, conversation, cursor);
      AtMostIsTransitive(KeyOf(cursor).value, KeyOf(next).value, KeyOf(end).value);
    } else {
      KeyLessIsTransitive(KeyOf(cursor).value, KeyOf(cursor).value, KeyOf(cursor).value);
    }
  }

  lemma AtMostIsTransitive(a: Key, b: Key, c: Key)
    requires KeyAtMost(a, b) && KeyAtMost(b, c)
    ensures KeyAtMost(a, c)
    ensures forall k :: KeyLess(c, k) ==> KeyLess(a, k)
  {
    hide Ordinal;
  }

  lemma NotReceivedBefore(requests: seq<Request>, user: UserId, conversation: Uuid, cursor: string, f: nat, id: Uuid)
    requires Served(requests, user, conversation) && ValidCursor(cursor) && 0 < f < |requests|
    requires forall i | 0 <= i < f :: !Holds(requests[i].db, conversation, id)
    ensures RowIds(requests[0].db) && !Receives(Items(requests[0], user, conversation, cursor), id)
  {
    hide KeyOf, KeyLess, ListMessages, Within;
    ServedTail(requests, user, conversation);
    RequestServed(requests[0], user, conversation, cursor);
    var next := Next(requests[0], user, conversation, cursor);
    ReceivesId(Items(requests[0], user, conversation, cursor), requests[0].db, conversation, id, KeyOf(cursor).value, KeyOf(next).value);
  }

  /** Exactly which messages a run of catch-up requests delivers: a message that became visible
      just before request `f` is delivered if and only if its key lies above the cursor that
      request `f` was sent with and not above the final cursor. */
  lemma {:induction false} SyncDelivers(requests: seq<Request>, user: UserId, conversation: Uuid, cursor: string, f: nat, id: Uuid)
    requires Served(requests, user, conversation) && ValidCursor(cursor) && f < |requests|
    requires Holds(requests[f].db, conversation, id)
    requires forall i | 0 <= i < f :: !Holds(requests[i].db, conversation, id)
    ensures forall r <- requests :: RowIds(r.db)
    ensures var from, to := CursorAfter(requests, f, user, conversation, cursor), CursorAfter(requests, |requests|, user, conversation, cursor);
            ValidCursor(from) && ValidCursor(to)
            && (Receives(Sync(requests, user, conversation, cursor), id)
                <==> Within(requests[f].db.messages[id], KeyOf(from).value, KeyOf(to).value))
    decreases |requests|
  {
    hide KeyOf, KeyLess, ListMessages, Within, Items;
    var next := Next(requests[0], user, conversation, cursor);
    var items := Items(requests[0], user, conversation, cursor);
    var rest := requests[1..];
    ServedTail(requests, user, conversation);
    RequestServed(requests[0], user, conversation, cursor);
    CursorAdvances(requests, f, user, conversation, cursor);
    CursorAdvances(requests, |requests|, user, conversation, cursor);
    ReceivesSplit(items, Sync(rest, user, conversation, next), id);
    if f > 0 {
      NotReceivedBefore(requests, user, conversation, cursor, f, id);
      SyncDelivers(rest, user, conversation, next, f - 1, id);
    } else {
      var k0, k1 := KeyOf(cursor).value, KeyOf(next).value;
      ReceivesId(items, requests[0].db, conversation, id, k0, k1);
      CursorAdvances(rest, |rest|, user, conversation, next);
      var m := requests[0].db.messages[id];
      var end := KeyOf(CursorAfter(rest, |rest|, user, conversation, next)).value;
      WithinSplits(m, k0, k1, end);
      if rest != [] {
        HoldsOn(requests[0].db, requests[1].db, conversation, id);
        SyncDelivers(rest, user, conversation, next, 0, id);
        WithinByKey(m, rest[0].db.messages[id], k1, end);
      } else {
        WithinEmpty(m, k1);
      }
    }
  }

  lemma WithinSplits(m: Message, a: Key, b: Key, c: Key)
    requires KeyAtMost(a, b) && KeyAtMost(b, c)
    ensures Within(m, a, c) <==> Within(m, a, b) || Within(m, b, c)
  {
    hide Ordinal;
  }

  lemma WithinByKey(m: Message, n: Message, a: Key, b: Key)
    requires m.Key() == n.Key()
    ensures Within(m, a, b) <==> Within(n, a, b)
  {
  }

  lemma WithinEmpty(m: Message, a: Key)
    ensures !Within(m, a, a)
  {
  }

  // ---- corollaries

  /** The last reply said that nothing is left. */
  ghost predicate Finished(requests: seq<Request>, user: UserId, conversation: Uuid, cursor: string)
    requires requests != [] && Served(requests, user, conversation)
  {
    var n := |requests| - 1;
    var reply := Reply(requests[n], user, conversation, CursorAfter(requests, n, user, conversation, cursor));
    reply.Ok? && !reply.value.hasMore
  }

  lemma {:induction false} CursorAfterLast(requests: seq<Request>, user: UserId, conversation: Uuid, cursor: string)
    requires requests != [] && forall r <- requests :: RowIds(r.db)
    ensures requests[|requests| - 1] in requests
    ensures CursorAfter(requests, |requests|, user, conversation, cursor)
         == Next(requests[|requests| - 1], user, conversation, CursorAfter(requests, |requests| - 1, user, conversation, cursor))
  {
    hide Next;
    if |requests| > 1 {
      assert requests[0] in requests;
      CursorAfterLast(requests[1..], user, conversation, Next(requests[0], user, conversation, cursor));
    }
  }

  /** When the last reply says so, the final cursor is past everything visible. */
  lemma FinishedIsPastAll(requests: seq<Request>, user: UserId, conversation: Uuid, cursor: string, id: Uuid)
    requires requests != [] && Served(requests, user, conversation) && ValidCursor(cursor)
    requires Finished(requests, user, conversation, cursor)
    requires Holds(requests[|requests| - 1].db, conversation, id)
    ensures ValidCursor(CursorAfter(requests, |requests|, user, conversation, cursor))
    ensures KeyAtMost(requests[|requests| - 1].db.messages[id].Key(),
                      KeyOf(CursorAfter(requests, |requests|, user, conversation, cursor)).value)
  {
    hide KeyOf, ListMessages, Ordinal;
    var n := |requests| - 1;
    var last := requests[n];
    assert last in requests;
    var before := CursorAfter(requests, n, user, conversation, cursor);
    CursorAdvances(requests, n, user, conversation, cursor);
    CursorAfterLast(requests, user, conversation, cursor);
    RequestServed(last, user, conversation, before);
    var m := last.db.messages[id];
    assert m in MessagesIn(last.db, conversation);
    if KeyLess(KeyOf(before).value, m.Key()) {
      assert m in Above(MessagesIn(last.db, conversation), KeyOf(before).value);
    }
  }

  /** A finished run delivers a message if and only if its key lies above the cursor that was
      current when the message became visible. In particular it delivers everything that was
      committed before the first request, whatever was inserted meanwhile. */
  lemma FinishedSyncDelivers(requests: seq<Request>, user: UserId, conversation: Uuid, cursor: string, f: nat, id: Uuid)
    requires requests != [] && Served(requests, user, conversation) && ValidCursor(cursor) && f < |requests|
    requires Finished(requests, user, conversation, cursor)
    requires Holds(requests[f].db, conversation, id)
    requires forall i | 0 <= i < f :: !Holds(requests[i].db, conversation, id)
    ensures forall r <- requests :: RowIds(r.db)
    ensures var from := CursorAfter(requests, f, user, conversation, cursor);
            ValidCursor(from)
            && (Receives(Sync(requests, user, conversation, cursor), id)
                <==> KeyLess(KeyOf(from).value, requests[f].db.messages[id].Key()))
  {
    hide KeyOf, ListMessages, Ordinal, Sync, CursorAfter, Finished;
    SyncDelivers(requests, user, conversation, cursor, f, id);
    assert Evolves(requests[f].db, requests[|requests| - 1].db);
    HoldsOn(requests[f].db, requests[|requests| - 1].db, conversation, id);
    FinishedIsPastAll(requests, user, conversation, cursor, id);
  }

  /** Nothing is delivered twice, and everything comes in key order, over the whole run. */
  lemma {:induction false} SyncIsOrdered(requests: seq<Request>, user: UserId, conversation: Uuid, cursor: string)
    requires Served(requests, user, conversation) && ValidCursor(cursor)
    ensures forall r <- requests :: RowIds(r.db)
    ensures Ascends(Sync(requests, user, conversation, cursor))
    ensures forall m <- Sync(requests, user, conversation, cursor) :: KeyLess(KeyOf(cursor).value, m.Key())
    decreases |requests|
  {
    hide KeyOf, KeyLess, ListMessages, Items;
    if requests != [] {
      var next := Next(requests[0], user, conversation, cursor);
      var items := Items(requests[0], user, conversation, cursor);
      ServedTail(requests, user, conversation);
      RequestServed(requests[0], user, conversation, cursor);
      SyncIsOrdered(requests[1..], user, conversation, next);
      var rest := Sync(requests[1..], user, conversation, next);
      AscendsAppend(items, rest, KeyOf(cursor).value, KeyOf(next).value);
    }
  }

  lemma AscendsAppend(s: seq<Message>, t: seq<Message>, from: Key, mid: Key)
    requires Ascends(s) && Ascends(t) && KeyAtMost(from, mid)
    requires forall m <- s :: Within(m, from, mid)
    requires forall m <- t :: KeyLess(mid, m.Key())
    ensures Ascends(s + t)
    ensures forall m <- s + t :: KeyLess(from, m.Key())
  {
    hide Ordinal;
    var u := s + t;
    forall i, j | 0 <= i < j < |u| ensures Earlier(u[i], u[j]) {
      if i < |s| && j >= |s| {
        assert u[i] in s && u[j] in t;
        AtMostIsTransitive(u[i].Key(), mid, mid);
      }
    }
    AtMostIsTransitive(from, mid, mid);
  }

  /** A message whose commit was overtaken: it becomes visible with a key at or below the cursor,
      and no later catch-up request, however many there are, ever returns it. */
  lemma LateMessageIsSkipped(requests: seq<Request>, user: UserId, conversation: Uuid, cursor: string, f: nat, id: Uuid)
    requires Served(requests, user, conversation) && ValidCursor(cursor) && f < |requests|
    requires Holds(requests[f].db, conversation, id)
    requires forall i | 0 <= i < f :: !Holds(requests[i].db, conversation, id)
    requires ValidCursor(CursorAfter(requests, f, user, conversation, cursor))
    requires KeyAtMost(requests[f].db.messages[id].Key(), KeyOf(CursorAfter(requests, f, user, conversation, cursor)).value)
    ensures !Receives(Sync(requests, user, conversation, cursor), id)
  {
    hide KeyOf, ListMessages, Ordinal, Sync, CursorAfter;
    SyncDelivers(requests, user, conversation, cursor, f, id);
  }

  // ---- catch-up where messages become visible in key order

  /** Whatever becomes visible between two requests has a key above everything visible before. */
  ghost predicate ArrivesInKeyOrder(requests: seq<Request>, conversation: Uuid) {
    forall i, prior, later | 0 < i < |requests| ::
      !Overtakes(requests, conversation, i, prior, later)
  }

  ghost predicate Overtakes(requests: seq<Request>, conversation: Uuid, i: int, prior: Uuid, later: Uuid)
    requires 0 < i < |requests|
  {
    && Holds(requests[i - 1].db, conversation, prior)
    && Holds(requests[i].db, conversation, later) && !Holds(requests[i - 1].db, conversation, later)
    && !KeyLess(requests[i - 1].db.messages[prior].Key(), requests[i].db.messages[later].Key())
  }

  /** The cursor belongs to a message the client could have seen. */
  ghost predicate NamesMessage(db: Db, conversation: Uuid, cursor: string) {
    ValidCursor(cursor) && exists id :: Holds(db, conversation, id) && db.messages[id].Key() == KeyOf(cursor).value
  }

  lemma ReplyIsPage(r: Request, user: UserId, conversation: Uuid, cursor: string)
    requires RowIds(r.db) && Member(r.db, user, conversation) && ValidCursor(cursor)
    ensures DistinctIds(MessagesIn(r.db, conversation))
    ensures Reply(r, user, conversation, cursor) == Ok(SyncPage(MessagesIn(r.db, conversation), r.limit, KeyOf(cursor).value, cursor))
  {
    hide KeyOf, Member, MessagesIn, SyncPage, HistoryPage, DistinctIds;
    MessagesInAreDistinct(r.db, conversation);
  }

  lemma NextNamesMessage(r: Request, user: UserId, conversation: Uuid, cursor: string)
    requires RowIds(r.db) && Member(r.db, user, conversation) && NamesMessage(r.db, conversation, cursor)
    ensures NamesMessage(r.db, conversation, Next(r, user, conversation, cursor))
  {
    hide KeyOf, KeyAtMost, Member, ListMessages, DistinctIds, SyncPage, Reply, Ascends, Within, Above;
    RequestServed(r, user, conversation, cursor);
    ReplyIsPage(r, user, conversation, cursor);
    var ms, from := MessagesIn(r.db, conversation), KeyOf(cursor).value;
    SyncCursor(ms, r.limit, from, cursor);
    var items := SyncPage(ms, r.limit, from, cursor).items;
    if items != [] {
      var last := items[|items| - 1];
      assert last in Items(r, user, conversation, cursor);
      assert Holds(r.db, conversation, last.id);
    }
  }

  lemma NamesOn(a: Db, b: Db, conversation: Uuid, cursor: string)
    requires Evolves(a, b) && NamesMessage(a, conversation, cursor)
    ensures NamesMessage(b, conversation, cursor)
  {
    hide KeyOf;
    var id :| Holds(a, conversation, id) && a.messages[id].Key() == KeyOf(cursor).value;
    HoldsOn(a, b, conversation, id);
  }

  lemma {:induction false} CursorNamesVisible(requests: seq<Request>, n: nat, user: UserId, conversation: Uuid, cursor: string)
    requires Served(requests, user, conversation) && 0 < n <= |requests|
    requires NamesMessage(requests[0].db, conversation, cursor)
    ensures forall r <- requests :: RowIds(r.db)
    ensures NamesMessage(requests[n - 1].db, conversation, CursorAfter(requests, n, user, conversation, cursor))
    decreases n
  {
    hide NamesMessage, Next, Holds;
    ServedTail(requests, user, conversation);
    NextNamesMessage(requests[0], user, conversation, cursor);
    var next := Next(requests[0], user, conversation, cursor);
    if n > 1 {
      assert Evolves(requests[0].db, requests[1].db);
      NamesOn(requests[0].db, requests[1].db, conversation, next);
      CursorNamesVisible(requests[1..], n - 1, user, conversation, next);
    }
  }

  /** Where messages become visible in key order, a client that keeps sending the returned cursor
      back, even one echoed by an empty page, misses nothing: by the time a reply says there is
      no more, it has received exactly the visible messages above its first cursor. */
  lemma CatchUpIsComplete(requests: seq<Request>, user: UserId, conversation: Uuid, cursor: string, f: nat, id: Uuid)
    requires requests != [] && Served(requests, user, conversation) && ArrivesInKeyOrder(requests, conversation)
    requires NamesMessage(requests[0].db, conversation, cursor) && Finished(requests, user, conversation, cursor)
    requires f < |requests| && Holds(requests[f].db, conversation, id)
    requires forall i | 0 <= i < f :: !Holds(requests[i].db, conversation, id)
    ensures forall r <- requests :: RowIds(r.db)
    ensures Receives(Sync(requests, user, conversation, cursor), id)
            <==> KeyLess(KeyOf(cursor).value, requests[f].db.messages[id].Key())
  {
    hide KeyOf, ListMessages, Ordinal, Sync, Finished;
    FinishedSyncDelivers(requests, user, conversation, cursor, f, id);
    CursorAdvances(requests, f, user, conversation, cursor);
    var from := CursorAfter(requests, f, user, conversation, cursor);
    if f > 0 {
      CursorNamesVisible(requests, f, user, conversation, cursor);
      var prior :| Holds(requests[f - 1].db, conversation, prior) && requests[f - 1].db.messages[prior].Key() == KeyOf(from).value;
      assert !Overtakes(requests, conversation, f, prior, id);
      AtMostThenLess(KeyOf(cursor).value, KeyOf(from).value, requests[f].db.messages[id].Key());
    }
  }

  lemma AtMostThenLess(a: Key, b: Key, c: Key)
    requires KeyAtMost(a, b) && KeyLess(b, c)
    ensures KeyLess(a, c)
  {
    hide Ordinal;
  }

  // ---- a table that does not change

  lemma AboveIsSmaller(ms: set<Message>, from: Key, last: Message)
    requires last in Above(ms, from)
    ensures Above(ms, last.Key()) < Above(ms, from)
  {
    hide KeyLess;
    forall m | m in Above(ms, last.Key()) ensures m in Above(ms, from) {
      KeyLessIsTransitive(from, last.Key(), m.Key());
    }
    KeyLessIsTransitive(last.Key(), last.Key(), last.Key());
    assert last !in Above(ms, last.Key());
  }

  lemma FullPage(ms: set<Message>, limit: nat, from: Key, cursor: string)
    requires DistinctIds(ms) && SyncPage(ms, limit, from, cursor).hasMore
    ensures DistinctIds(Above(ms, from)) && limit < |Above(ms, from)|
    ensures SyncPage(ms, limit, from, cursor).items == Ascending(Above(ms, from))[..limit]
  {
    hide DistinctIds, Above, CursorOf, Ascending, Ascends;
    AboveIsDistinct(ms, from);
    TakeTwice(Ascending(Above(ms, from)), limit);
  }

  lemma AboveShrinks(ms: set<Message>, limit: nat, from: Key, cursor: string)
    requires DistinctIds(ms) && SyncPage(ms, limit, from, cursor).hasMore && 0 < limit
    ensures var items := SyncPage(ms, limit, from, cursor).items;
            |items| == limit && Above(ms, EndKey(items, from)) < Above(ms, from)
  {
    hide DistinctIds, Above, SyncPage, Ascends, Ascending;
    FullPage(ms, limit, from, cursor);
    var last := Ascending(Above(ms, from))[limit - 1];
    assert last in Ascending(Above(ms, from));
    AboveIsSmaller(ms, from, last);
  }

  /** All pages of a fixed table; the number of rows beyond the cursor bounds their number. */
  ghost function AllPages(ms: set<Message>, limit: nat, from: Key, cursor: string): seq<Message>
    requires DistinctIds(ms) && 0 < limit
    decreases |Above(ms, from)|
  {
    var page := SyncPage(ms, limit, from, cursor);
    if page.hasMore then
      AboveShrinks(ms, limit, from, cursor);
      FewerElements(Above(ms, EndKey(page.items, from)), Above(ms, from));
      page.items + AllPages(ms, limit, EndKey(page.items, from), page.nextCursor.value)
    else page.items
  }

  lemma FewerElements<T>(a: set<T>, b: set<T>)
    requires a < b
    ensures |a| < |b|
  {
    assert |b - a| + |a * b| == |b|;
    assert a * b == a;
    var x :| x in b && x !in a;
    assert x in b - a;
  }

  /** On a table that does not change the pages put together are exactly the sorted rows beyond
      the cursor, for every page size. */
  lemma {:induction false} PagesMakeTheList(ms: set<Message>, limit: nat, from: Key, cursor: string)
    requires DistinctIds(ms) && 0 < limit
    ensures DistinctIds(Above(ms, from))
    ensures AllPages(ms, limit, from, cursor) == Ascending(Above(ms, from))
    decreases |Above(ms, from)|
  {
    hide KeyLess, Ascending, DistinctIds;
    AboveIsDistinct(ms, from);
    SyncPageIsInterval(ms, limit, from, cursor);
    var page := SyncPage(ms, limit, from, cursor);
    var mid := EndKey(page.items, from);
    if page.hasMore {
      AboveShrinks(ms, limit, from, cursor);
      FewerElements(Above(ms, mid), Above(ms, from));
      PagesMakeTheList(ms, limit, mid, page.nextCursor.value);
      JoinPages(ms, page.items, Ascending(Above(ms, mid)), from, mid);
    } else {
      AscendingIsUnique(page.items, Ascending(Above(ms, from)));
    }
  }

  lemma JoinPages(ms: set<Message>, items: seq<Message>, rest: seq<Message>, from: Key, mid: Key)
    requires DistinctIds(Above(ms, from)) && Ascends(items) && Ascends(rest) && items != []
    requires mid == EndKey(items, from)
    requires forall m :: m in items <==> m in ms && Within(m, from, mid)
    requires forall m :: m in rest <==> m in Above(ms, mid)
    ensures items + rest == Ascending(Above(ms, from))
  {
    hide Ordinal, DistinctIds;
    var last := items[|items| - 1];
    assert last in items;
    AscendsAppend(items, rest, from, mid);
    AscendingIsUnique(items + rest, Ascending(Above(ms, from)));
  }

  // ---- history, newest first

  /** The key lies below the cursor, if there is one. */
  predicate Older(k: Key, before: Option<string>)
    requires before.Some? ==> ValidCursor(before.value)
  {
    before.None? || KeyLess(k, KeyOf(before.value).value)
  }

  ghost function HistoryReply(r: Request, user: UserId, conversation: Uuid, before: Option<string>): Result<Page, Error>
    requires RowIds(r.db)
  {
    ListMessages(r.db, user, conversation, r.limit, before, None)
  }

  lemma HistoryHolds(ms: set<Message>, limit: nat, m: Message)
    requires DistinctIds(ms) && 0 < limit < |ms|
    ensures var r := Reversed(Ascending(ms)); m in r[..limit] <==> m in ms && !Earlier(m, r[limit - 1])
  {
    hide DistinctIds, Ascending, Earlier, Ascends;
    var s := Ascending(ms);
    if m in s {
      ReversedPrefixByKey(s, limit, m);
    } else {
      assert m !in Reversed(s);
    }
  }

  lemma HistoryItems(ms: set<Message>, limit: nat)
    requires DistinctIds(ms) && 0 < limit
    ensures var r, page := Reversed(Ascending(ms)), HistoryPage(ms, limit);
            && page.items == Take(r, limit) && |r| == |ms|
            && page.nextCursor == if |ms| > limit then Some(CursorOf(r[limit - 1])) else None
  {
    hide Ascends, DistinctIds, Ascending, CursorOf, Reversed;
    TakeTwice(Reversed(Ascending(ms)), limit);
  }

  lemma HistoryPageIsInterval(ms: set<Message>, limit: nat)
    requires DistinctIds(ms) && 0 < limit
    ensures var page := HistoryPage(ms, limit);
            && Descends(page.items)
            && (page.nextCursor.None? ==> forall m :: m in page.items <==> m in ms)
            && (page.nextCursor.Some? ==>
                  && ValidCursor(page.nextCursor.value)
                  && forall m :: m in page.items <==> m in ms && !KeyLess(m.Key(), KeyOf(page.nextCursor.value).value))
  {
    hide KeyLess, KeyOf, CursorOf, DistinctIds, Ascends, Ascending, Reversed, HistoryPage;
    var r := Reversed(Ascending(ms));
    HistoryItems(ms, limit);
    ReversedDescends(Ascending(ms));
    if |r| > limit {
      CursorNamesKey(r[limit - 1]);
      forall m ensures m in r[..limit] <==> m in ms && !Earlier(m, r[limit - 1]) {
        HistoryHolds(ms, limit, m);
      }
    }
  }

  lemma BelowIsDistinct(ms: set<Message>, k: Key)
    requires DistinctIds(ms)
    ensures DistinctIds(Below(ms, k))
  {
  }

  /** A page of history holds every visible message older than its cursor and not older than the
      cursor it returns; when it returns none, nothing older is left. */
  lemma HistoryServed(r: Request, user: UserId, conversation: Uuid, before: Option<string>)
    requires RowIds(r.db) && Member(r.db, user, conversation) && 0 < r.limit
    requires before.Some? ==> ValidCursor(before.value)
    ensures var reply := HistoryReply(r, user, conversation, before);
            && reply.Ok? && Descends(reply.value.items)
            && (reply.value.nextCursor.Some? ==> ValidCursor(reply.value.nextCursor.value))
            && forall m :: m in reply.value.items <==>
                 m in MessagesIn(r.db, conversation) && Older(m.Key(), before)
                 && (reply.value.nextCursor.Some? ==> !Older(m.Key(), reply.value.nextCursor))
  {
    hide KeyLess, KeyOf, HistoryPage;
    MessagesInAreDistinct(r.db, conversation);
    var ms := MessagesIn(r.db, conversation);
    if before.Some? {
      BelowIsDistinct(ms, KeyOf(before.value).value);
      HistoryPageIsInterval(Below(ms, KeyOf(before.value).value), r.limit);
    } else {
      HistoryPageIsInterval(ms, r.limit);
    }
  }

  /** Everything a client receives by sending each returned cursor back as `before`. */
  ghost function History(requests: seq<Request>, user: UserId, conversation: Uuid, before: Option<string>): seq<Message>
    requires forall r <- requests :: RowIds(r.db)
  {
    if requests == [] then []
    else
      match HistoryReply(requests[0], user, conversation, before)
      case Err(_) => []
      case Ok(page) =>
        page.items + if page.nextCursor.None? then [] else History(requests[1..], user, conversation, page.nextCursor)
  }

  /** The client has got to a page without a next cursor. */
  ghost predicate Exhausted(requests: seq<Request>, user: UserId, conversation: Uuid, before: Option<string>)
    requires forall r <- requests :: RowIds(r.db)
  {
    requests != [] &&
    match HistoryReply(requests[0], user, conversation, before)
    case Err(_) => false
    case Ok(page) => page.nextCursor.None? || Exhausted(requests[1..], user, conversation, page.nextCursor)
  }

  /** Whatever is inserted between the pages, the client receives every message that was visible
      to its first request and older than its first cursor. */
  lemma {:induction false} HistoryIsComplete(requests: seq<Request>, user: UserId, conversation: Uuid, before: Option<string>, id: Uuid)
    requires requests != [] && Served(requests, user, conversation) && forall r <- requests :: 0 < r.limit
    requires before.Some? ==> ValidCursor(before.value)
    requires Exhausted(requests, user, conversation, before)
    requires Holds(requests[0].db, conversation, id) && Older(requests[0].db.messages[id].Key(), before)
    ensures Receives(History(requests, user, conversation, before), id)
    decreases |requests|
  {
    hide KeyOf, ListMessages, Older, ValidCursor;
    var m := requests[0].db.messages[id];
    ServedTail(requests, user, conversation);
    assert requests[0] in requests;
    HistoryServed(requests[0], user, conversation, before);
    var page := HistoryReply(requests[0], user, conversation, before).value;
    var rest := if page.nextCursor.None? then [] else History(requests[1..], user, conversation, page.nextCursor);
    assert m in MessagesIn(requests[0].db, conversation);
    ReceivesSplit(page.items, rest, id);
    if m !in page.items {
      assert forall r <- requests[1..] :: r in requests;
      assert requests[1] == requests[1..][0];
      assert Evolves(requests[0].db, requests[1].db);
      HoldsOn(requests[0].db, requests[1].db, conversation, id);
      HistoryIsComplete(requests[1..], user, conversation, page.nextCursor, id);
    } else {
      assert m.id == id;
    }
  }

  /** Nothing comes twice: the whole run is strictly descending. */
  lemma {:induction false} HistoryIsOrdered(requests: seq<Request>, user: UserId, conversation: Uuid, before: Option<string>)
    requires Served(requests, user, conversation) && forall r <- requests :: 0 < r.limit
    requires before.Some? ==> ValidCursor(before.value)
    ensures Descends(History(requests, user, conversation, before))
    ensures forall m <- History(requests, user, conversation, before) :: Older(m.Key(), before)
    decreases |requests|
  {
    hide KeyOf, ListMessages, Ordinal;
    if requests != [] {
      ServedTail(requests, user, conversation);
      assert requests[0] in requests;
      HistoryServed(requests[0], user, conversation, before);
      var page := HistoryReply(requests[0], user, conversation, before).value;
      if page.nextCursor.Some? {
        assert forall r <- requests[1..] :: r in requests;
        HistoryIsOrdered(requests[1..], user, conversation, page.nextCursor);
        DescendsAppend(page.items, History(requests[1..], user, conversation, page.nextCursor), KeyOf(page.nextCursor.value).value);
        NextIsOlder(requests[0], user, conversation, before);
      }
    }
  }

  lemma DescendsAppend(s: seq<Message>, t: seq<Message>, mid: Key)
    requires Descends(s) && Descends(t)
    requires forall m <- s :: !KeyLess(m.Key(), mid)
    requires forall m <- t :: KeyLess(m.Key(), mid)
    ensures Descends(s + t)
  {
    hide Ordinal;
    var u := s + t;
    forall i, j | 0 <= i < j < |u| ensures Earlier(u[j], u[i]) {
      if i < |s| && j >= |s| {
        assert u[i] in s && u[j] in t;
      }
    }
  }

  /** The next cursor is the key of a message on the page, hence older than the page's cursor. */
  lemma NextIsOlder(r: Request, user: UserId, conversation: Uuid, before: Option<string>)
    requires RowIds(r.db) && Member(r.db, user, conversation) && 0 < r.limit
    requires before.Some? ==> ValidCursor(before.value)
    requires HistoryReply(r, user, conversation, before).Ok?
    requires HistoryReply(r, user, conversation, before).value.nextCursor.Some?
    ensures var next := HistoryReply(r, user, conversation, before).value.nextCursor;
            ValidCursor(next.value) && forall k :: KeyLess(k, KeyOf(next.value).value) ==> Older(k, before)
  {
    hide Ordinal, KeyOf, CursorOf;
    HistoryServed(r, user, conversation, before);
    var page := HistoryReply(r, user, conversation, before).value;
    var last := page.items[|page.items| - 1];
    CursorNamesKey(last);
    assert last in page.items;
  }

  // ---- list_conversations

  datatype Summary = Summary(id: Uuid, peer: UserId, last: Option<Message>, unread: nat)

  /** The newest message of a conversation, by the LATERAL subquery. */
  ghost function LastMessage(db: Db, conversation: Uuid): Option<Message>
    requires RowIds(db)
  {
    MessagesInAreDistinct(db, conversation);
    var s := Ascending(MessagesIn(db, conversation));
    if s == [] then None else Some(s[|s| - 1])
  }

  ghost function Summarize(db: Db, user: UserId, conversation: Uuid): Summary
    requires RowIds(db) && conversation in db.conversations
  {
    Summary(conversation, db.conversations[conversation].PeerOf(user), LastMessage(db, conversation),
            |Receipts.UnreadIn(db.messages, conversation, user)|)
  }

  lemma Inhabited(db: Db, conversation: Uuid)
    requires DbOk(db) && conversation in db.conversations
    ensures RowIds(db) && MessagesIn(db, conversation) != {}
  {
    hide LogOk, PairIsUnique, ClientIdIsUnique, Between, Stamped;
    forall id | id in db.messages ensures db.messages[id].id == id {
      assert MessageOk(db, id);
    }
    assert ConversationOk(db, conversation);
    var m :| m in db.messages && db.messages[m].conversation == conversation;
    assert db.messages[m] in MessagesIn(db, conversation);
  }

  lemma FirstOfHistory(ms: set<Message>, limit: nat)
    requires DistinctIds(ms) && ms != {} && 0 < limit
    ensures HistoryPage(ms, limit).items != []
    ensures Ascending(ms) != [] && HistoryPage(ms, limit).items[0] == Ascending(ms)[|ms| - 1]
  {
    hide Ascending, DistinctIds, CursorOf, Ascends;
    TakeTwice(Descending(ms), limit);
  }

  lemma LastIsNewest(ms: set<Message>, m: Message)
    requires DistinctIds(ms) && m in ms
    ensures Ascending(ms) != [] && Ascending(ms)[|ms| - 1] in ms && KeyAtMost(m.Key(), Ascending(ms)[|ms| - 1].Key())
  {
    hide KeyLess, Ascending;
    var s := Ascending(ms);
    var i :| 0 <= i < |s| && s[i] == m;
    KeyLessIsTransitive(m.Key(), s[|s| - 1].Key(), m.Key());
    assert i < |s| - 1 ==> Earlier(s[i], s[|s| - 1]);
  }

  /** The messages to `user` in this conversation that have not been read. */
  function UnreadMessages(db: Db, user: UserId, conversation: Uuid): set<Message> {
    set m | m in MessagesIn(db, conversation) && m.recipient == user && m.status != Read
  }

  lemma {:induction false} AsManyMessages(db: Db, ids: set<Uuid>, ms: set<Message>)
    requires RowIds(db) && forall id | id in ids :: id in db.messages && db.messages[id] in ms
    requires forall m | m in ms :: m.id in ids && db.messages[m.id] == m
    ensures |ids| == |ms|
    decreases ids
  {
    if ids == {} {
      assert ms == {};
    } else {
      var id :| id in ids;
      AsManyMessages(db, ids - {id}, ms - {db.messages[id]});
    }
  }

  lemma UnreadAreCounted(db: Db, user: UserId, conversation: Uuid)
    requires RowIds(db)
    ensures |Receipts.UnreadIn(db.messages, conversation, user)| == |UnreadMessages(db, user, conversation)|
  {
    AsManyMessages(db, Receipts.UnreadIn(db.messages, conversation, user), UnreadMessages(db, user, conversation));
  }

  /** In every reachable state a conversation's summary shows its newest message, of which there always is
      one and which its newest-first page starts with, and counts the messages to the user that have not
      been read. */
  lemma SummaryAgreesWithHistory(db: Db, user: UserId, conversation: Uuid, limit: nat)
    requires DbOk(db) && Member(db, user, conversation) && 0 < limit
    ensures RowIds(db)
    ensures var page, summary := ListMessages(db, user, conversation, limit, None, None), Summarize(db, user, conversation);
            && page.Ok? && page.value.items != [] && summary.last == Some(page.value.items[0])
            && summary.last.value in MessagesIn(db, conversation)
            && (forall m | m in MessagesIn(db, conversation) :: KeyAtMost(m.Key(), summary.last.value.Key()))
            && summary.unread == |UnreadMessages(db, user, conversation)|
  {
    hide DbOk, DistinctIds, Ascending, HistoryPage, MessagesIn, Ascends, KeyAtMost, UnreadMessages;
    Inhabited(db, conversation);
    var ms := MessagesIn(db, conversation);
    MessagesInAreDistinct(db, conversation);
    FirstOfHistory(ms, limit);
    UnreadAreCounted(db, user, conversation);
    forall m | m in ms ensures Ascending(ms)[|ms| - 1] in ms && KeyAtMost(m.Key(), Ascending(ms)[|ms| - 1].Key()) {
      LastIsNewest(ms, m);
    }
    assert Ascending(ms)[|ms| - 1] in ms by {
      var m :| m in ms;
      LastIsNewest(ms, m);
    }
  }

  /** Reading lowers the count in the reader's summary by exactly the number of ids answered with, and
      changes no other summary's count. */
  lemma ReadingLowersSummary(db: Db, call: Call, w: Work, first: nat, user: UserId, conversation: Uuid)
    requires WorkOk(db, call, w) && w.Reading? && RowIds(db) && conversation in db.conversations
    ensures call.ReadUpTo? && RowIds(Install(db, w, first)) && conversation in Install(db, w, first).conversations
    ensures Summarize(Install(db, w, first), user, conversation).unread
         == Summarize(db, user, conversation).unread
            - if conversation == call.conversation && user == call.user then |Answer(w).ids| else 0
  {
    hide WorkOk, Install, Receipts.UnreadIn, MessagesIn, LastMessage;
    Receipts.AnchorOfWork(db, call, w);
    Receipts.ReadLowersUnread(db, call, w, first, conversation, user);
    ReadingKeepsIds(db, call, w, first);
  }

  lemma ReadingKeepsIds(db: Db, call: Call, w: Work, first: nat)
    requires WorkOk(db, call, w) && w.Reading? && RowIds(db)
    ensures RowIds(Install(db, w, first)) && Install(db, w, first).conversations == db.conversations
  {
    hide WorkOk, Rows, Numbered;
    forall id | id in w.messages ensures id in db.messages && db.messages[id] == w.messages[id] {
      Receipts.ReadingTakes(db, call, w, id);
    }
  }
}
