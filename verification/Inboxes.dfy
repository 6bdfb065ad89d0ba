/** `list_conversations` of app/services/chat.py, and what a new message does to it. */
module Inboxes {
  import opened Basics
  import opened Clock
  import opened Uuids
  import opened Models
  import opened ChatStore
  import opened ChatInvariant
  import opened ChatSpecs
  import opened KeySets
  import opened Paging
  import Receipts

  function Mine(db: Db, user: UserId): set<Uuid> {
    set c | c in db.conversations && db.conversations[c].Has(user)
  }

  /** `coalesce(last.created_at, conversation.created_at)`. */
  ghost function Activity(db: Db, c: Uuid): Timestamp
    requires RowIds(db) && c in db.conversations
  {
    match LastMessage(db, c)
    case Some(m) => m.createdAt
    case None => db.conversations[c].createdAt
  }

  ghost predicate IsLatest(db: Db, cs: set<Uuid>, c: Uuid)
    requires RowIds(db) && cs <= db.conversations.Keys
  {
    c in cs && forall d | d in cs :: Ordinal(Activity(db, d)) <= Ordinal(Activity(db, c))
  }

  lemma {:induction false} LatestExists(db: Db, cs: set<Uuid>)
    requires RowIds(db) && cs <= db.conversations.Keys && cs != {}
    ensures exists c :: IsLatest(db, cs, c)
    decreases cs
  {
    hide Activity, Ordinal;
    var x :| x in cs;
    if cs == {x} {
      assert IsLatest(db, cs, x);
    } else {
      LatestExists(db, cs - {x});
      var y :| IsLatest(db, cs - {x}, y);
      assert IsLatest(db, cs, if Ordinal(Activity(db, x)) <= Ordinal(Activity(db, y)) then y else x);
    }
  }

  /** ORDER BY activity DESC; conversations with the same activity come in any order. */
  ghost function ByActivity(db: Db, cs: set<Uuid>): (s: seq<Uuid>)
    requires RowIds(db) && cs <= db.conversations.Keys
    ensures |s| == |cs| && forall c :: c in s <==> c in cs
  {
    hide Activity, Ordinal;
    if cs == {} then []
    else
      LatestExists(db, cs);
      var c :| IsLatest(db, cs, c);
      [c] + ByActivity(db, cs - {c})
  }

  /** The conversations differ, and no later one in the list has more recent activity. */
  ghost predicate LatestFirst(db: Db, s: seq<Uuid>)
    requires RowIds(db) && forall c <- s :: c in db.conversations
  {
    forall i, j | 0 <= i < j < |s| :: s[i] != s[j] && !Before(Activity(db, s[i]), Activity(db, s[j]))
  }

  lemma ByActivitySplits(db: Db, cs: set<Uuid>) returns (c: Uuid)
    requires RowIds(db) && cs <= db.conversations.Keys && cs != {}
    ensures IsLatest(db, cs, c) && c in cs && ByActivity(db, cs) == [c] + ByActivity(db, cs - {c})
  {
    hide Activity, Ordinal;
    LatestExists(db, cs);
    c :| IsLatest(db, cs, c) && ByActivity(db, cs) == [c] + ByActivity(db, cs - {c});
  }

  lemma NoneBefore(db: Db, cs: set<Uuid>, c: Uuid, d: Uuid)
    requires RowIds(db) && cs <= db.conversations.Keys && IsLatest(db, cs, c) && d in cs
    ensures !Before(Activity(db, c), Activity(db, d))
  {
    hide Activity, Ordinal, Before;
    OrdinalIsChronological(Activity(db, c), Activity(db, d));
  }

  lemma {:induction false} ByActivityIsLatestFirst(db: Db, cs: set<Uuid>)
    requires RowIds(db) && cs <= db.conversations.Keys
    ensures LatestFirst(db, ByActivity(db, cs))
    decreases cs
  {
    hide RowIds, Activity, Before, ByActivity, IsLatest;
    if cs != {} {
      var c := ByActivitySplits(db, cs);
      var rest := ByActivity(db, cs - {c});
      ByActivityIsLatestFirst(db, cs - {c});
      forall d | d in rest ensures d != c && !Before(Activity(db, c), Activity(db, d)) {
        NoneBefore(db, cs, c, d);
      }
    }
  }

  ghost function Summaries(db: Db, user: UserId, cs: seq<Uuid>): (rows: seq<Summary>)
    requires RowIds(db) && forall c <- cs :: c in db.conversations
    ensures |rows| == |cs| && forall i | 0 <= i < |rows| :: rows[i] == Summarize(db, user, cs[i])
  {
    if cs == [] then [] else [Summarize(db, user, cs[0])] + Summaries(db, user, cs[1..])
  }

  ghost function ListConversations(db: Db, user: UserId, limit: nat): seq<Summary>
    requires RowIds(db)
  {
    Summaries(db, user, Take(ByActivity(db, Mine(db, user)), limit))
  }

  /** The time of the newest message of a listed conversation. */
  function Shown(s: Summary): Timestamp
    requires s.last.Some?
  {
    s.last.value.createdAt
  }

  lemma ActivityIsShown(db: Db, user: UserId, c: Uuid)
    requires DbOk(db) && c in db.conversations
    ensures RowIds(db) && Summarize(db, user, c).id == c && Summarize(db, user, c).last.Some? && Shown(Summarize(db, user, c)) == Activity(db, c)
  {
    hide DbOk, Ascending, MessagesIn, DistinctIds;
    Inhabited(db, c);
  }

  lemma ShownAre(db: Db, user: UserId)
    requires DbOk(db)
    ensures RowIds(db)
    ensures forall c | c in db.conversations ::
              Summarize(db, user, c).id == c && Summarize(db, user, c).last.Some? && Shown(Summarize(db, user, c)) == Activity(db, c)
  {
    hide DbOk, Summarize, Activity, Shown;
    RowIdsHold(db);
    forall c | c in db.conversations
      ensures Summarize(db, user, c).id == c && Summarize(db, user, c).last.Some? && Shown(Summarize(db, user, c)) == Activity(db, c)
    {
      ActivityIsShown(db, user, c);
    }
  }

  /** In every reachable state the list names the user's conversations once each, latest activity first, all
      of them or as many as the limit allows, and none that is left out is later than one that is listed. */
  lemma ListIsLatestFirst(db: Db, user: UserId, limit: nat)
    requires DbOk(db)
    ensures RowIds(db)
    ensures var rows, mine := ListConversations(db, user, limit), Mine(db, user);
            && |rows| == (if |mine| < limit then |mine| else limit)
            && (forall i | 0 <= i < |rows| :: rows[i].id in mine && rows[i] == Summarize(db, user, rows[i].id) && rows[i].last.Some?)
            && (forall i, j | 0 <= i < j < |rows| :: rows[i].id != rows[j].id && !Before(Shown(rows[i]), Shown(rows[j])))
            && forall i, c | 0 <= i < |rows| && c in mine && (forall j | 0 <= j < |rows| :: rows[j].id != c) ::
                 Summarize(db, user, c).last.Some? && !Before(Shown(rows[i]), Shown(Summarize(db, user, c)))
  {
    hide DbOk, RowIds, Activity, Before, Shown, Summarize, ByActivity;
    RowIdsHold(db);
    ShownAre(db, user);
    var s := ByActivity(db, Mine(db, user));
    ByActivityIsLatestFirst(db, Mine(db, user));
    var rows := ListConversations(db, user, limit);
    assert forall i | 0 <= i < |rows| :: rows[i].id == s[i] && Shown(rows[i]) == Activity(db, s[i]);
    forall i, c | 0 <= i < |rows| && c in Mine(db, user) && (forall j | 0 <= j < |rows| :: rows[j].id != c)
      ensures !Before(Shown(rows[i]), Shown(Summarize(db, user, c)))
    {
      var k :| 0 <= k < |s| && s[k] == c;
      assert k >= |rows|;
    }
  }

  lemma RowIdsHold(db: Db)
    requires DbOk(db)
    ensures RowIds(db)
  {
    hide ConversationsOk, LogOk, ClientIdIsUnique;
    MessagesAreOwn(db);
  }

  // ---- a new message

  /** Every message that `user` takes part in was stamped before `now`. */
  predicate AllEarlier(db: Db, user: UserId, now: Timestamp) {
    forall id | id in db.messages && (db.messages[id].sender == user || db.messages[id].recipient == user) ::
      Before(db.messages[id].createdAt, now)
  }

  lemma ParticipantsOf(db: Db, user: UserId, id: Uuid)
    requires DbOk(db) && id in db.messages && db.messages[id].conversation in Mine(db, user)
    ensures db.messages[id].sender == user || db.messages[id].recipient == user
  {
    hide ConversationsOk, LogOk, StringLess, Stamped, AttachmentOk;
    assert MessageOk(db, id);
  }

  lemma LastAfterSend(db: Db, next: nat, db': Db, user: UserId, req: SendRequest, mime: Option<string>, now: Timestamp, out: Message, reader: UserId)
    requires DbOk(db) && DbOk(db') && Adds(db, next, db', user, req, mime, now, out) && reader in {user, req.recipient}
    requires AllEarlier(db, reader, now) && out.conversation in Mine(db', reader)
    ensures RowIds(db') && LastMessage(db', out.conversation) == Some(out)
  {
    hide DbOk, Ascending, InConversation, Before, Ordinal, DistinctIds;
    RowIdsHold(db');
    var ms := MessagesIn(db', out.conversation);
    MessagesInAreDistinct(db', out.conversation);
    assert out in ms by { assert db'.messages[out.id] == out; }
    LastIsNewest(ms, out);
    var last := Ascending(ms)[|ms| - 1];
    assert last in ms;
    if last != out {
      assert last.id in db.messages && db.messages[last.id] == last;
      ParticipantsOf(db', reader, last.id);
      KeysFollowTheCalendar(last.Key(), out.Key());
      KeysAreTotallyOrdered(last.Key(), out.Key());
    }
  }

  lemma OtherLasts(db: Db, next: nat, db': Db, user: UserId, req: SendRequest, mime: Option<string>, now: Timestamp, out: Message,
                   reader: UserId, c: Uuid)
    requires DbOk(db) && DbOk(db') && Adds(db, next, db', user, req, mime, now, out)
    requires AllEarlier(db, reader, now) && c in Mine(db', reader) && c != out.conversation
    ensures RowIds(db') && LastMessage(db', c).Some? && Before(LastMessage(db', c).value.createdAt, now)
  {
    hide DbOk, Ascending, InConversation, Before, DistinctIds;
    RowIdsHold(db');
    Inhabited(db', c);
    MessagesInAreDistinct(db', c);
    var m := LastMessage(db', c).value;
    assert m in MessagesIn(db', c);
    assert m.id in db.messages && db.messages[m.id] == m;
    ParticipantsOf(db', reader, m.id);
  }

  lemma UnreadAfterSend(t: map<Uuid, Message>, out: Message, reader: UserId)
    requires out.id !in t && out.status == Sent
    ensures |Receipts.UnreadIn(t[out.id := out], out.conversation, reader)|
         == |Receipts.UnreadIn(t, out.conversation, reader)| + if reader == out.recipient then 1 else 0
  {
    var before, after := Receipts.UnreadIn(t, out.conversation, reader), Receipts.UnreadIn(t[out.id := out], out.conversation, reader);
    if reader == out.recipient {
      assert after == before + {out.id};
    } else {
      assert after == before;
    }
  }

  /** A message that is sent later than everything its reader has seen comes first in the reader's list, with
      the message as the last one, and adds one to the recipient's unread count and none to the sender's. */
  lemma SendMovesToTop(db: Db, next: nat, db': Db, user: UserId, req: SendRequest, stored: Option<Upload>, now: Timestamp, r: Response,
                       reader: UserId, limit: nat)
    requires DbOk(db) && DbOk(db') && SendsAlone(db, next, db', user, req, stored, now, r) && r.SendDone? && r.created
    requires reader in {user, req.recipient} && AllEarlier(db, reader, now) && 0 < limit
    ensures RowIds(db')
    ensures var rows := ListConversations(db', reader, limit);
            && rows != [] && rows[0].id == r.out.conversation && rows[0].last == Some(r.out)
            && rows[0].peer == (if reader == user then req.recipient else user)
            && rows[0].unread == |Receipts.UnreadIn(db.messages, r.out.conversation, reader)| + if reader == req.recipient then 1 else 0
  {
    hide DbOk, Before, Ordinal, ByActivity, LastMessage, Receipts.UnreadIn, AllEarlier, Adds, Accepts;
    var out := r.out;
    SentIsAdded(db, next, db', user, req, stored, now, r);
    var mine := Mine(db', reader);
    LastAfterSend(db, next, db', user, req, out.mime, now, out, reader);
    UnreadAfterSend(db.messages, out, reader);
    var s := ByActivity(db', mine);
    ByActivityIsLatestFirst(db', mine);
    var k :| 0 <= k < |s| && s[k] == out.conversation;
    assert Activity(db', s[k]) == now;
    if s[0] != out.conversation {
      OtherLasts(db, next, db', user, req, out.mime, now, out, reader, s[0]);
    }
  }

  lemma SentIsAdded(db: Db, next: nat, db': Db, user: UserId, req: SendRequest, stored: Option<Upload>, now: Timestamp, r: Response)
    requires SendsAlone(db, next, db', user, req, stored, now, r) && r.SendDone? && r.created
    ensures user != req.recipient && Adds(db, next, db', user, req, r.out.mime, now, r.out) && r.out.createdAt == now
    ensures r.out.id !in db.messages && db'.messages == db.messages[r.out.id := r.out] && r.out.status == Sent && r.out.recipient == req.recipient
    ensures r.out.conversation in Mine(db', user) && r.out.conversation in Mine(db', req.recipient)
    ensures db'.conversations[r.out.conversation].PeerOf(user) == req.recipient
    ensures db'.conversations[r.out.conversation].PeerOf(req.recipient) == user
  {
    hide Accepts;
    var c := db'.conversations[r.out.conversation];
    assert c.userA in {user, req.recipient} && c.userB in {user, req.recipient};
    assert user in {c.userA, c.userB} && req.recipient in {c.userA, c.userB};
  }
}
