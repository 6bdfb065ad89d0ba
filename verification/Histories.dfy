/** Following `next_cursor` back through a conversation's history: which messages come, exactly. */
module Histories {
  import opened Basics
  import opened Clock
  import opened Uuids
  import opened Models
  import opened ChatStore
  import opened ChatInvariant
  import opened ChatCommits
  import opened KeySets
  import opened Paging

  // ---- newest first is one list

  lemma ReversedAscends(s: seq<Message>)
    requires Descends(s)
    ensures Ascends(Reversed(s))
  {
    hide Earlier;
    var r := Reversed(s);
    forall i, j | 0 <= i < j < |r| ensures Earlier(r[i], r[j]) {
      assert Earlier(s[|s| - 1 - i], s[|s| - 1 - j]);
    }
  }

  /** Two descending sequences with the same elements are the same. */
  lemma DescendingIsUnique(s: seq<Message>, t: seq<Message>)
    requires Descends(s) && Descends(t) && forall m :: m in s <==> m in t
    ensures s == t
  {
    hide Earlier, Descends, Ascends;
    ReversedAscends(s);
    ReversedAscends(t);
    AscendingIsUnique(Reversed(s), Reversed(t));
    assert |s| == |t|;
    forall i | 0 <= i < |s| ensures s[i] == t[i] {
      assert Reversed(s)[|s| - 1 - i] == s[i] && Reversed(t)[|t| - 1 - i] == t[i];
    }
  }

  // ---- where the received messages come from

  /** A message that the client receives was visible to one of its requests. */
  lemma {:induction false} ReceivedWasVisible(requests: seq<Request>, user: UserId, conversation: Uuid, before: Option<string>, m: Message)
    returns (i: nat)
    requires Served(requests, user, conversation) && forall r <- requests :: 0 < r.limit
    requires before.Some? ==> ValidCursor(before.value)
    requires m in History(requests, user, conversation, before)
    ensures i < |requests| && m in MessagesIn(requests[i].db, conversation)
    decreases |requests|
  {
    hide KeyOf, ListMessages, Older, ValidCursor, MessagesIn;
    ServedTail(requests, user, conversation);
    assert requests[0] in requests;
    HistoryServed(requests[0], user, conversation, before);
    var page := HistoryReply(requests[0], user, conversation, before).value;
    if m in page.items {
      i := 0;
    } else {
      assert forall r <- requests[1..] :: r in requests;
      i := ReceivedWasVisible(requests[1..], user, conversation, page.nextCursor, m);
      i := i + 1;
    }
  }

  // ---- a table that does not change

  function OlderMessages(ms: set<Message>, before: Option<string>): set<Message>
    requires before.Some? ==> ValidCursor(before.value)
  {
    if before.None? then ms else Below(ms, KeyOf(before.value).value)
  }

  lemma OlderAreDistinct(ms: set<Message>, before: Option<string>)
    requires DistinctIds(ms) && (before.Some? ==> ValidCursor(before.value))
    ensures DistinctIds(OlderMessages(ms, before))
    ensures forall m :: m in OlderMessages(ms, before) <==> m in ms && Older(m.Key(), before)
  {
    hide KeyOf, KeyLess;
  }

  ghost predicate SameTable(requests: seq<Request>, db: Db) {
    forall r <- requests :: r.db == db && 0 < r.limit
  }

  /** On a table that does not change, the pages put together are exactly the messages older than the
      first cursor, newest first, whatever the page sizes. */
  lemma HistoryMakesTheList(requests: seq<Request>, db: Db, user: UserId, conversation: Uuid, before: Option<string>)
    requires requests != [] && Served(requests, user, conversation) && SameTable(requests, db)
    requires before.Some? ==> ValidCursor(before.value)
    requires Exhausted(requests, user, conversation, before)
    ensures var older := OlderMessages(MessagesIn(db, conversation), before);
            DistinctIds(older) && History(requests, user, conversation, before) == Descending(older)
  {
    hide KeyOf, ListMessages, Older, ValidCursor, OlderMessages, Exhausted, History, DistinctIds, Ascending, Descends, Ascends, Reversed;
    assert requests[0] in requests;
    var ms := MessagesIn(db, conversation);
    MessagesInAreDistinct(db, conversation);
    OlderAreDistinct(ms, before);
    var all, list := History(requests, user, conversation, before), Descending(OlderMessages(ms, before));
    HistoryIsOrdered(requests, user, conversation, before);
    ReversedDescends(Ascending(OlderMessages(ms, before)));
    forall m | m in all ensures m in list {
      var i := ReceivedWasVisible(requests, user, conversation, before, m);
      assert requests[i] in requests;
    }
    forall m | m in list ensures m in all {
      HistoryIsComplete(requests, user, conversation, before, m.id);
      var n :| n in all && n.id == m.id;
      var i := ReceivedWasVisible(requests, user, conversation, before, n);
      assert requests[i] in requests;
    }
    DescendingIsUnique(all, list);
  }

  /** A page with a next cursor leaves strictly fewer messages beyond it. */
  lemma OlderShrinks(r: Request, user: UserId, conversation: Uuid, before: Option<string>)
    requires RowIds(r.db) && Member(r.db, user, conversation) && 0 < r.limit && (before.Some? ==> ValidCursor(before.value))
    requires HistoryReply(r, user, conversation, before).Ok?
    requires HistoryReply(r, user, conversation, before).value.nextCursor.Some?
    ensures var next, ms := HistoryReply(r, user, conversation, before).value.nextCursor, MessagesIn(r.db, conversation);
            ValidCursor(next.value) && OlderMessages(ms, next) < OlderMessages(ms, before)
  {
    hide KeyOf, KeyLess, CursorOf, ListMessages, MessagesIn, Older, ValidCursor, OlderMessages, Descends;
    MessagesInAreDistinct(r.db, conversation);
    HistoryServed(r, user, conversation, before);
    NextIsOlder(r, user, conversation, before);
    var page, ms := HistoryReply(r, user, conversation, before).value, MessagesIn(r.db, conversation);
    OlderAreDistinct(ms, before);
    OlderAreDistinct(ms, page.nextCursor);
    PageIsNotEmpty(r, user, conversation, before);
    var m := page.items[0];
    assert m in page.items;
    assert m in OlderMessages(ms, before) && m !in OlderMessages(ms, page.nextCursor);
    forall n | n in OlderMessages(ms, page.nextCursor) ensures n in OlderMessages(ms, before) {
      OlderOfOlder(n.Key(), page.nextCursor.value, before);
    }
  }

  lemma OlderOfOlder(k: Key, next: string, before: Option<string>)
    requires ValidCursor(next) && (before.Some? ==> ValidCursor(before.value))
    requires forall j :: KeyLess(j, KeyOf(next).value) ==> Older(j, before)
    ensures Older(k, Some(next)) ==> Older(k, before)
  {
    hide KeyOf, KeyLess;
  }

  lemma PageIsNotEmpty(r: Request, user: UserId, conversation: Uuid, before: Option<string>)
    requires RowIds(r.db) && Member(r.db, user, conversation) && 0 < r.limit && (before.Some? ==> ValidCursor(before.value))
    requires HistoryReply(r, user, conversation, before).Ok?
    requires HistoryReply(r, user, conversation, before).value.nextCursor.Some?
    ensures HistoryReply(r, user, conversation, before).value.items != []
  {
    hide KeyOf, KeyLess, CursorOf, MessagesIn, Descending, DistinctIds, Below, Take;
  }

  /** With a page size of at least one the client comes to an end: the number of messages beyond the
      cursor bounds the number of pages. */
  lemma {:induction false} HistoryEnds(requests: seq<Request>, db: Db, user: UserId, conversation: Uuid, before: Option<string>)
    requires Served(requests, user, conversation) && SameTable(requests, db)
    requires before.Some? ==> ValidCursor(before.value)
    requires |OlderMessages(MessagesIn(db, conversation), before)| < |requests|
    ensures Exhausted(requests, user, conversation, before)
    decreases |requests|
  {
    hide KeyOf, ListMessages, Older, ValidCursor, OlderMessages, MessagesIn;
    ServedTail(requests, user, conversation);
    var r := requests[0];
    assert r in requests;
    HistoryServed(r, user, conversation, before);
    var page := HistoryReply(r, user, conversation, before).value;
    if page.nextCursor.Some? {
      OlderShrinks(r, user, conversation, before);
      FewerElements(OlderMessages(MessagesIn(db, conversation), page.nextCursor), OlderMessages(MessagesIn(db, conversation), before));
      assert forall q <- requests[1..] :: q in requests;
      HistoryEnds(requests[1..], db, user, conversation, page.nextCursor);
    }
  }

  // ---- messages that arrive between the pages

  /** The cursor that request `n` is sent with, unless the history has come to its end before. */
  ghost function CursorAt(requests: seq<Request>, n: nat, user: UserId, conversation: Uuid, before: Option<string>): Option<Option<string>>
    requires n < |requests| && forall r <- requests :: RowIds(r.db)
  {
    if n == 0 then Some(before)
    else
      assert requests[0] in requests && forall r <- requests[1..] :: r in requests;
      match HistoryReply(requests[0], user, conversation, before)
      case Err(_) => None
      case Ok(page) => if page.nextCursor.None? then None else CursorAt(requests[1..], n - 1, user, conversation, page.nextCursor)
  }

  lemma KeysAgree(requests: seq<Request>, user: UserId, conversation: Uuid, id: Uuid, i: nat, m: Message)
    requires Served(requests, user, conversation) && requests != [] && i < |requests|
    requires Holds(requests[0].db, conversation, id) && m in MessagesIn(requests[i].db, conversation) && m.id == id
    ensures m.Key() == requests[0].db.messages[id].Key()
  {
    hide Evolves;
    assert requests[i] in requests;
    HoldsOn(requests[0].db, requests[i].db, conversation, id);
  }

  /** Exactly which messages a complete history holds: a message that became visible just before request
      `f` comes if and only if the client was still asking then, with a cursor that the message is older
      than. What is newer than that is never returned. */
  lemma {:induction false} HistoryDelivers(requests: seq<Request>, user: UserId, conversation: Uuid, before: Option<string>, f: nat, id: Uuid)
    requires Served(requests, user, conversation) && forall r <- requests :: 0 < r.limit
    requires before.Some? ==> ValidCursor(before.value)
    requires f < |requests| && Exhausted(requests, user, conversation, before)
    requires Holds(requests[f].db, conversation, id)
    requires forall i | 0 <= i < f :: !Holds(requests[i].db, conversation, id)
    ensures var at := CursorAt(requests, f, user, conversation, before);
            && (at.Some? && at.value.Some? ==> ValidCursor(at.value.value))
            && (Receives(History(requests, user, conversation, before), id)
                <==> at.Some? && Older(requests[f].db.messages[id].Key(), at.value))
    decreases |requests|
  {
    hide KeyOf, ListMessages, Older, ValidCursor, MessagesIn, History, Exhausted, Receives;
    if f == 0 {
      FirstHistoryDelivers(requests, user, conversation, before, id);
    } else {
      HistoryGoesOn(requests, user, conversation, before, f, id);
      var next := HistoryReply(requests[0], user, conversation, before).value.nextCursor;
      if next.Some? {
        assert forall i | 0 <= i < f - 1 :: requests[1..][i] == requests[i + 1];
        HistoryDelivers(requests[1..], user, conversation, next, f - 1, id);
      }
    }
  }

  /** What the first page leaves to the rest, for a message that it cannot hold. */
  lemma HistoryGoesOn(requests: seq<Request>, user: UserId, conversation: Uuid, before: Option<string>, f: nat, id: Uuid)
    requires Served(requests, user, conversation) && forall r <- requests :: 0 < r.limit
    requires (before.Some? ==> ValidCursor(before.value)) && 0 < f < |requests|
    requires Exhausted(requests, user, conversation, before) && !Holds(requests[0].db, conversation, id)
    ensures Served(requests[1..], user, conversation) && forall r <- requests[1..] :: 0 < r.limit
    ensures RowIds(requests[0].db) && HistoryReply(requests[0], user, conversation, before).Ok?
    ensures var next := HistoryReply(requests[0], user, conversation, before).value.nextCursor;
            if next.None? then
              !Receives(History(requests, user, conversation, before), id) && CursorAt(requests, f, user, conversation, before).None?
            else
              && ValidCursor(next.value) && Exhausted(requests[1..], user, conversation, next)
              && (Receives(History(requests, user, conversation, before), id) <==> Receives(History(requests[1..], user, conversation, next), id))
              && CursorAt(requests, f, user, conversation, before) == CursorAt(requests[1..], f - 1, user, conversation, next)
  {
    hide KeyOf, ListMessages, Older, ValidCursor, MessagesIn, Descends;
    ServedTail(requests, user, conversation);
    assert requests[0] in requests;
    HistoryServed(requests[0], user, conversation, before);
    var page := HistoryReply(requests[0], user, conversation, before).value;
    NotHeldNotReceived(requests[0], user, conversation, before, id);
    assert forall r <- requests[1..] :: r in requests;
    var rest := if page.nextCursor.None? then [] else History(requests[1..], user, conversation, page.nextCursor);
    ReceivesSplit(page.items, rest, id);
  }

  lemma NotHeldNotReceived(r: Request, user: UserId, conversation: Uuid, before: Option<string>, id: Uuid)
    requires RowIds(r.db) && Member(r.db, user, conversation) && 0 < r.limit && (before.Some? ==> ValidCursor(before.value))
    requires !Holds(r.db, conversation, id)
    ensures HistoryReply(r, user, conversation, before).Ok? && !Receives(HistoryReply(r, user, conversation, before).value.items, id)
  {
    hide KeyOf, ListMessages, Older, ValidCursor;
    HistoryServed(r, user, conversation, before);
  }

  lemma FirstHistoryDelivers(requests: seq<Request>, user: UserId, conversation: Uuid, before: Option<string>, id: Uuid)
    requires requests != [] && Served(requests, user, conversation) && forall r <- requests :: 0 < r.limit
    requires before.Some? ==> ValidCursor(before.value)
    requires Exhausted(requests, user, conversation, before)
    requires Holds(requests[0].db, conversation, id)
    ensures Receives(History(requests, user, conversation, before), id) <==> Older(requests[0].db.messages[id].Key(), before)
  {
    hide KeyOf, ListMessages, Older, ValidCursor, MessagesIn, History, Exhausted;
    if Older(requests[0].db.messages[id].Key(), before) {
      HistoryIsComplete(requests, user, conversation, before, id);
    } else if Receives(History(requests, user, conversation, before), id) {
      HistoryIsOrdered(requests, user, conversation, before);
      var m :| m in History(requests, user, conversation, before) && m.id == id;
      var i := ReceivedWasVisible(requests, user, conversation, before, m);
      KeysAgree(requests, user, conversation, id, i, m);
    }
  }
}
