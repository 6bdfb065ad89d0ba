/** What `list_messages` of app/services/chat.py answers to any request, refusals included. */
module Listings {
  import opened Basics
  import opened Uuids
  import opened Models
  import opened ChatStore
  import opened ChatInvariant
  import opened KeySets
  import opened Paging

  /** A cursor that is given and stands for no key. */
  predicate Malformed(cursor: Option<string>) {
    cursor.Some? && cursor.value != "" && KeyOf(cursor.value).None?
  }

  /** The key stands after this cursor, if it is given. */
  predicate IsAfter(k: Key, cursor: Option<string>) {
    cursor.Some? && cursor.value != "" && KeyOf(cursor.value).Some? ==> KeyLess(KeyOf(cursor.value).value, k)
  }

  predicate IsBefore(k: Key, cursor: Option<string>) {
    cursor.Some? && cursor.value != "" && KeyOf(cursor.value).Some? ==> KeyLess(k, KeyOf(cursor.value).value)
  }

  /** The messages that a request asks about: those of the conversation beyond its cursor. */
  function Asked(db: Db, conversation: Uuid, before: Option<string>, after: Option<string>): set<Message> {
    set id | id in db.messages && db.messages[id].conversation == conversation
             && IsBefore(db.messages[id].Key(), before) && IsAfter(db.messages[id].Key(), after)
           :: db.messages[id]
  }

  /** The first `limit` of a set of messages in one of the two orders. */
  ghost predicate FirstOf(items: seq<Message>, ms: set<Message>, limit: nat, oldestFirst: bool) {
    && |items| == (if |ms| < limit then |ms| else limit)
    && (forall m <- items :: m in ms)
    && (forall i, j | 0 <= i < j < |items| :: if oldestFirst then KeyLess(items[i].Key(), items[j].Key()) else KeyLess(items[j].Key(), items[i].Key()))
    && forall m, n | m in items && n in ms && n !in items :: if oldestFirst then KeyLess(m.Key(), n.Key()) else KeyLess(n.Key(), m.Key())
  }

  /** A page: the first messages asked about, oldest first exactly for `after`; whether there are more; and the
      cursor of the last one, which history leaves out at its end and an empty catch-up page replaces by its own. */
  ghost predicate PageOf(page: Page, ms: set<Message>, limit: nat, after: Option<string>) {
    && FirstOf(page.items, ms, limit, after.Some? && after.value != "")
    && (page.hasMore <==> |ms| > limit)
    && page.nextCursor ==
         if page.items != [] && (page.hasMore || (after.Some? && after.value != "")) then Some(CursorOf(page.items[|page.items| - 1]))
         else if after.Some? && after.value != "" then after
         else None
  }

  lemma AscendingFirst(ms: set<Message>, limit: nat)
    requires DistinctIds(ms)
    ensures FirstOf(Take(Ascending(ms), limit), ms, limit, true)
  {
    hide KeyLess, Ascending, DistinctIds;
    var s := Ascending(ms);
    var items := Take(s, limit);
    forall m, n | m in items && n in ms && n !in items ensures Earlier(m, n) {
      var i :| 0 <= i < |items| && items[i] == m;
      var j :| 0 <= j < |s| && s[j] == n;
      assert j >= |items|;
      assert Earlier(s[i], s[j]);
    }
  }

  lemma DescendingFirst(ms: set<Message>, limit: nat)
    requires DistinctIds(ms)
    ensures FirstOf(Take(Descending(ms), limit), ms, limit, false)
  {
    hide KeyLess, Ascending, DistinctIds, Reversed;
    var s := Descending(ms);
    ReversedDescends(Ascending(ms));
    var items := Take(s, limit);
    forall m, n | m in items && n in ms && n !in items ensures Earlier(n, m) {
      var i :| 0 <= i < |items| && items[i] == m;
      var j :| 0 <= j < |s| && s[j] == n;
      assert j >= |items|;
      assert Earlier(s[j], s[i]);
    }
  }

  lemma SyncPageOf(ms: set<Message>, limit: nat, from: Key, cursor: string)
    requires DistinctIds(ms) && 0 < limit && cursor != ""
    ensures PageOf(SyncPage(ms, limit, from, cursor), Above(ms, from), limit, Some(cursor))
  {
    hide KeyLess, Ascending, DistinctIds, CursorOf, FirstOf, Above;
    AboveIsDistinct(ms, from);
    TakeTwice(Ascending(Above(ms, from)), limit);
    AscendingFirst(Above(ms, from), limit);
  }

  lemma HistoryPageOf(ms: set<Message>, limit: nat, after: Option<string>)
    requires DistinctIds(ms) && 0 < limit && !Given(after)
    ensures PageOf(HistoryPage(ms, limit), ms, limit, after)
  {
    hide KeyLess, Ascending, DistinctIds, CursorOf, FirstOf;
    TakeTwice(Descending(ms), limit);
    DescendingFirst(ms, limit);
  }

  lemma AskedAbove(db: Db, conversation: Uuid, before: Option<string>, after: Option<string>)
    requires !Given(before) && Given(after) && KeyOf(after.value).Some?
    ensures Asked(db, conversation, before, after) == Above(MessagesIn(db, conversation), KeyOf(after.value).value)
  {
    hide KeyLess, KeyOf;
  }

  lemma AskedBelow(db: Db, conversation: Uuid, before: Option<string>, after: Option<string>)
    requires Given(before) && !Given(after) && KeyOf(before.value).Some?
    ensures Asked(db, conversation, before, after) == Below(MessagesIn(db, conversation), KeyOf(before.value).value)
  {
    hide KeyLess, KeyOf;
  }

  lemma AskedAll(db: Db, conversation: Uuid, before: Option<string>, after: Option<string>)
    requires !Given(before) && !Given(after)
    ensures Asked(db, conversation, before, after) == MessagesIn(db, conversation)
  {
    hide KeyLess, KeyOf;
  }

  /** Every request is answered with the first messages it asks about, or refused for exactly one reason: it
      gives both cursors, the conversation is not one of the user's, or its cursor is malformed. */
  lemma ListMessagesAnswers(db: Db, user: UserId, conversation: Uuid, limit: nat, before: Option<string>, after: Option<string>)
    requires RowIds(db) && 0 < limit
    ensures var r := ListMessages(db, user, conversation, limit, before, after);
            var both := before.Some? && before.value != "" && after.Some? && after.value != "";
            var stranger := conversation !in db.conversations
                            || (user != db.conversations[conversation].userA && user != db.conversations[conversation].userB);
            && (r == Err(BadRequest) <==> both)
            && (r == Err(NotFound) <==> !both && stranger)
            && (r == Err(InvalidCursor) <==> !both && !stranger && (Malformed(before) || Malformed(after)))
            && (r.Ok? <==> !both && !stranger && !Malformed(before) && !Malformed(after))
            && (r.Ok? ==> PageOf(r.value, Asked(db, conversation, before, after), limit, after))
  {
    hide KeyOf, Asked, PageOf, SyncPage, HistoryPage, DistinctIds, Above, Below;
    MessagesInAreDistinct(db, conversation);
    var ms := MessagesIn(db, conversation);
    if Given(after) && !Given(before) && KeyOf(after.value).Some? {
      AskedAbove(db, conversation, before, after);
      SyncPageOf(ms, limit, KeyOf(after.value).value, after.value);
    } else if Given(before) && !Given(after) && KeyOf(before.value).Some? {
      AskedBelow(db, conversation, before, after);
      BelowIsDistinct(ms, KeyOf(before.value).value);
      HistoryPageOf(Below(ms, KeyOf(before.value).value), limit, after);
    } else if !Given(before) && !Given(after) {
      AskedAll(db, conversation, before, after);
      HistoryPageOf(ms, limit, after);
    }
  }

  /** In every reachable state a summary names the other participant: everything in the conversation is
      between the two. */
  lemma SummaryNamesPeer(db: Db, user: UserId, conversation: Uuid)
    requires DbOk(db) && Member(db, user, conversation)
    ensures RowIds(db)
    ensures var summary := Summarize(db, user, conversation);
            && summary.id == conversation && summary.peer != user
            && {user, summary.peer} == {db.conversations[conversation].userA, db.conversations[conversation].userB}
            && forall m | m in MessagesIn(db, conversation) :: {m.sender, m.recipient} == {user, summary.peer}
  {
    hide LogOk, StringLess, ClientIdIsUnique, PairIsUnique, LastMessage, Stamped, AttachmentOk;
    Inhabited(db, conversation);
    var c := db.conversations[conversation];
    forall id | id in db.messages && db.messages[id].conversation == conversation
      ensures {db.messages[id].sender, db.messages[id].recipient} == {c.userA, c.userB} && c.userA != c.userB
    {
      assert MessageOk(db, id);
    }
    var m :| m in MessagesIn(db, conversation);
    assert c.userA != c.userB;
  }
}
