/** A commit keeps the invariant: the rows it publishes are justified, complete and ordered, and
    nothing that other transactions rely on changes under them. */
module ChatCommits {
  import opened Basics
  import opened Clock
  import opened Uuids
  import opened Models
  import opened ChatStore
  import opened ChatInvariant
  import opened ChatMoves

  // ---- how committed data may change

  predicate Succeeds(m: Message, n: Message) {
    && SameMessage(m, n)
    && Rank(m.status) <= Rank(n.status)
    && (m.deliveredAt.Some? ==> n.deliveredAt == m.deliveredAt)
    && (m.readAt.Some? ==> n.readAt == m.readAt)
  }

  predicate KeepsConversation(db: Db, db': Db, c: Uuid) {
    c in db.conversations ==> c in db'.conversations && db'.conversations[c] == db.conversations[c]
  }

  predicate KeepsMessage(db: Db, db': Db, id: Uuid) {
    id in db.messages ==> id in db'.messages && Succeeds(db.messages[id], db'.messages[id])
  }

  predicate KeepsRow(db: Db, db': Db, i: nat) {
    i in db.log ==> i in db'.log && db'.log[i] == db.log[i]
  }

  /** Nothing is deleted, statuses only rise, stamps are written once, the log only grows. */
  ghost predicate Evolves(db: Db, db': Db) {
    && (forall c :: KeepsConversation(db, db', c))
    && (forall id :: KeepsMessage(db, db', id))
    && (forall i :: KeepsRow(db, db', i))
  }

  lemma EvolvesIsTransitive(a: Db, b: Db, c: Db)
    requires Evolves(a, b) && Evolves(b, c)
    ensures Evolves(a, c)
  {
    forall x ensures KeepsConversation(a, c, x) {
      assert KeepsConversation(a, b, x) && KeepsConversation(b, c, x);
    }
    forall id ensures KeepsMessage(a, c, id) {
      assert KeepsMessage(a, b, id) && KeepsMessage(b, c, id);
    }
    forall i ensures KeepsRow(a, c, i) {
      assert KeepsRow(a, b, i) && KeepsRow(b, c, i);
    }
  }

  lemma WriteSucceeds(db: Db, call: Call, w: Work, id: Uuid)
    requires WorkOk(db, call, w) && MessagesOk(db) && id in Writes(w) && id in db.messages
    ensures Succeeds(db.messages[id], Writes(w)[id]) && Stamped(Writes(w)[id])
    ensures Rank(db.messages[id].status) < Rank(Writes(w)[id].status)
  {
    hide TargetOk, ClientIdTaken, Anchored, Matched, IsRead, Listed, SortedPair, UserTopic, KeyAtMost;
    assert MessageOk(db, id);
    if w.Reading? {
      assert Readable(db, w.conv, w.reader, id, w.messages[id]);
    }
  }

  lemma OwnIsNew(db: Db, call: Call, w: Work, c: Uuid)
    requires WorkOk(db, call, w) && c in OwnConversation(w)
    ensures c !in db.conversations
  {
    hide SortedPair, PairTaken, ClientIdTaken;
  }

  lemma InstallEvolves(db: Db, call: Call, w: Work, first: nat)
    requires WorkOk(db, call, w) && MessagesOk(db)
    requires forall i | i in db.log :: !(first <= i < first + |Rows(w)|)
    ensures Evolves(db, Install(db, w, first))
  {
    hide WorkOk, MessagesOk, Writes, Rows;
    var db' := Install(db, w, first);
    forall id ensures KeepsMessage(db, db', id) {
      if id in db.messages && id in Writes(w) {
        WriteSucceeds(db, call, w, id);
      }
    }
    forall c ensures KeepsConversation(db, db', c) {
      if c in OwnConversation(w) {
        OwnIsNew(db, call, w, c);
      }
    }
    forall i ensures KeepsRow(db, db', i) {
    }
  }

  // ---- tables

  lemma ConversationInstalled(db: Db, call: Call, w: Work, first: nat, c: Uuid)
    requires ConversationsOk(db) && MessagesOk(db) && WorkOk(db, call, w)
    requires c in Install(db, w, first).conversations
    ensures ConversationOk(Install(db, w, first), c)
  {
    hide Rows, Numbered, SortedPair, ClientIdTaken, Anchored, Matched, IsRead, Readable, PairTaken, Stamped, MessageOk, MessagesOk, StringLess;
    var messages := Install(db, w, first).messages;
    if c in db.conversations {
      assert ConversationOk(db, c);
      var m :| m in db.messages && db.messages[m].conversation == c;
      if m in Writes(w) {
        WriteSucceeds(db, call, w, m);
      }
      assert m in messages && messages[m].conversation == c;
    } else {
      SortedPairIsUnordered(w.message.sender, w.message.recipient);
      assert messages[w.message.id].conversation == c;
    }
  }

  lemma PairIsNew(db: Db, call: Call, w: Work, c: Uuid, d: Uuid)
    requires WorkOk(db, call, w) && c in OwnConversation(w) && d in db.conversations
    ensures !SamePair(OwnConversation(w)[c], db.conversations[d]) && c != d
  {
    var own := w.own.value;
    assert !PairTaken(db, (own.userA, own.userB));
  }

  lemma PairsInstalled(db: Db, call: Call, w: Work, first: nat, c: Uuid, d: Uuid)
    requires ConversationsOk(db) && WorkOk(db, call, w)
    requires c in db.conversations + OwnConversation(w) && d in db.conversations + OwnConversation(w)
    ensures PairIsUnique(Install(db, w, first), c, d)
  {
    var own := OwnConversation(w);
    if c !in own && d !in own {
      assert PairIsUnique(db, c, d);
    } else if c in own && d !in own {
      PairIsNew(db, call, w, c, d);
    } else if d in own && c !in own {
      PairIsNew(db, call, w, d, c);
    }
  }

  lemma ConversationsInstalled(db: Db, call: Call, w: Work, first: nat)
    requires ConversationsOk(db) && MessagesOk(db) && WorkOk(db, call, w)
    ensures ConversationsOk(Install(db, w, first))
  {
    var db' := Install(db, w, first);
    forall c | c in db'.conversations ensures ConversationOk(db', c) {
      ConversationInstalled(db, call, w, first, c);
    }
    forall c, d | c in db'.conversations && d in db'.conversations ensures PairIsUnique(db', c, d) {
      PairsInstalled(db, call, w, first, c, d);
    }
  }

  lemma NewMessageInstalled(db: Db, call: Call, w: Work, first: nat)
    requires WorkOk(db, call, w) && w.NewMessage?
    ensures w.message.id in Install(db, w, first).messages && MessageOk(Install(db, w, first), w.message.id)
  {
    hide Rows, Numbered, ClientIdTaken, SortedPair, PairTaken;
  }

  lemma OldMessageInstalled(db: Db, call: Call, w: Work, first: nat, id: Uuid)
    requires ConversationsOk(db) && MessagesOk(db) && WorkOk(db, call, w) && id in db.messages
    ensures id in Install(db, w, first).messages && MessageOk(Install(db, w, first), id)
  {
    hide Rows, Numbered, WorkOk, Between, Writes;
    assert MessageOk(db, id);
    if id in Writes(w) {
      WriteSucceeds(db, call, w, id);
    }
    var c := db.messages[id].conversation;
    if c in OwnConversation(w) {
      OwnIsNew(db, call, w, c);
    }
  }

  lemma MessageInstalled(db: Db, call: Call, w: Work, first: nat, id: Uuid)
    requires ConversationsOk(db) && MessagesOk(db) && WorkOk(db, call, w)
    requires id in Install(db, w, first).messages
    ensures MessageOk(Install(db, w, first), id)
  {
    hide ConversationsOk, MessagesOk, WorkOk, MessageOk, Rows, Writes;
    if id in db.messages {
      OldMessageInstalled(db, call, w, first, id);
    } else {
      WrittenIds(db, call, w, id);
      NewMessageInstalled(db, call, w, first);
    }
  }

  lemma WrittenIds(db: Db, call: Call, w: Work, id: Uuid)
    requires WorkOk(db, call, w) && id in Writes(w) && id !in db.messages
    ensures w.NewMessage? && id == w.message.id
  {
    hide SortedPair, ClientIdTaken, TargetOk, Anchored, Matched, IsRead;
  }

  /** Where the (sender, client id) of an installed row comes from. */
  lemma ClientIdKept(db: Db, call: Call, w: Work, id: Uuid)
    requires MessagesOk(db) && WorkOk(db, call, w) && id in db.messages + Writes(w)
    ensures id in db.messages ==> SameMessage(db.messages[id], (db.messages + Writes(w))[id])
    ensures id !in db.messages ==> w.NewMessage? && id == w.message.id && (db.messages + Writes(w))[id] == w.message
    ensures id !in db.messages ==> !ClientIdTaken(db, w.message.sender, w.message.clientId)
  {
    if id in db.messages && id in Writes(w) {
      WriteSucceeds(db, call, w, id);
    }
  }

  lemma ClientIdsInstalled(db: Db, call: Call, w: Work, first: nat, m: Uuid, n: Uuid)
    requires MessagesOk(db) && WorkOk(db, call, w)
    requires m in db.messages + Writes(w) && n in db.messages + Writes(w)
    ensures ClientIdIsUnique(Install(db, w, first), m, n)
  {
    hide WorkOk, MessageOk, Writes, Numbered, Rows;
    ClientIdKept(db, call, w, m);
    ClientIdKept(db, call, w, n);
    if m in db.messages && n in db.messages {
      assert ClientIdIsUnique(db, m, n);
    } else if m in db.messages {
      assert !SameClientId(db.messages[m], w.message.sender, w.message.clientId);
    } else if n in db.messages {
      assert !SameClientId(db.messages[n], w.message.sender, w.message.clientId);
    }
  }

  lemma MessagesInstalled(db: Db, call: Call, w: Work, first: nat)
    requires ConversationsOk(db) && MessagesOk(db) && WorkOk(db, call, w)
    ensures MessagesOk(Install(db, w, first))
  {
    var db' := Install(db, w, first);
    forall id | id in db'.messages ensures MessageOk(db', id) {
      MessageInstalled(db, call, w, first, id);
    }
    forall m, n | m in db'.messages && n in db'.messages ensures ClientIdIsUnique(db', m, n) {
      ClientIdsInstalled(db, call, w, first, m, n);
    }
  }

  // ---- the outbox log

  lemma TopicIsInjective(u: UserId, v: UserId)
    requires UserTopic(u) == UserTopic(v)
    ensures u == v
  {
    assert UserTopic(u)[5..] == u && UserTopic(v)[5..] == v;
  }

  /** `dict.fromkeys` keeps everyone, once each, in the order of first occurrence: what comes later in
      the list never changes what has been kept before. */
  lemma {:induction false} EveryoneOnce(users: seq<UserId>, k: nat)
    requires k <= |users|
    ensures forall u :: u in Distinct(users) <==> u in users
    ensures forall i, j | 0 <= i < j < |Distinct(users)| :: Distinct(users)[i] != Distinct(users)[j]
    ensures Distinct(users[..k]) <= Distinct(users)
    decreases |users|
  {
    if users != [] {
      var last := |users| - 1;
      assert users == users[..last] + [users[last]];
      if k <= last {
        EveryoneOnce(users[..last], k);
        assert users[..last][..k] == users[..k];
      } else {
        EveryoneOnce(users[..last], last);
        assert users[..k] == users;
      }
    }
  }

  /** One row per recipient, addressed to that recipient, with the payload given. */
  lemma OneRowEach(recipients: seq<UserId>, payload: Payload)
    ensures forall u | u in recipients :: Row(UserTopic(u), payload) in Enqueue(recipients, payload)
    ensures forall i, j | 0 <= i < j < |Enqueue(recipients, payload)| :: Enqueue(recipients, payload)[i] != Enqueue(recipients, payload)[j]
    ensures forall row <- Enqueue(recipients, payload) :: row.payload == payload
  {
    hide Distinct, UserTopic;
    EveryoneOnce(recipients, 0);
    var users, rows := Distinct(recipients), Enqueue(recipients, payload);
    forall u | u in recipients ensures Row(UserTopic(u), payload) in rows {
      var i :| 0 <= i < |users| && users[i] == u;
      assert rows[i] == Row(UserTopic(u), payload);
    }
    forall i, j | 0 <= i < j < |rows| ensures rows[i] != rows[j] {
      if UserTopic(users[i]) == UserTopic(users[j]) {
        TopicIsInjective(users[i], users[j]);
      }
    }
  }

  /** `message.new` goes to the recipient and then to the sender. */
  lemma NewMessageRows(w: Work)
    requires w.NewMessage? && w.message.sender != w.message.recipient
    ensures Rows(w) == [Row(UserTopic(w.message.recipient), MessageNew(w.message)),
                        Row(UserTopic(w.message.sender), MessageNew(w.message))]
  {
    var u, v := w.message.recipient, w.message.sender;
    assert [u, v][..1] == [u] && [u][..0] == [];
    assert Distinct([u]) == [u];
    assert Distinct([u, v]) == [u, v];
  }

  lemma SingleRow(user: UserId, payload: Payload)
    ensures Enqueue([user], payload) == [Row(UserTopic(user), payload)]
  {
    assert [user][..0] == [];
    assert Distinct([user]) == [user];
  }

  /** The rows of a unit of work, written out. */
  function PlainRows(w: Work): seq<Row> {
    match w
    case NewMessage(_, m) => [Row(UserTopic(m.recipient), MessageNew(m)), Row(UserTopic(m.sender), MessageNew(m))]
    case Delivery(m, at) => [Row(UserTopic(m.sender), MessageDelivered(m.id, m.conversation, m.clientId, at))]
    case Reading(conv, reader, _, at, _, ms) => [Row(UserTopic(conv.PeerOf(reader)), MessageRead(conv.id, reader, ms.Keys, at))]
  }

  lemma RowsArePlain(db: Db, call: Call, w: Work)
    requires WorkOk(db, call, w)
    ensures Rows(w) == PlainRows(w)
  {
    hide TargetOk, ClientIdTaken, Anchored, Matched, IsRead, Readable, Listed, UserTopic, Distinct, Enqueue;
    match w
    case NewMessage(_, _) => NewMessageRows(w);
    case Delivery(m, at) => SingleRow(m.sender, MessageDelivered(m.id, m.conversation, m.clientId, at));
    case Reading(conv, reader, _, at, _, ms) => SingleRow(conv.PeerOf(reader), MessageRead(conv.id, reader, ms.Keys, at));
  }

  lemma PeerIsSender(db: Db, conv: Conversation, reader: UserId, id: Uuid)
    requires MessagesOk(db) && Listed(db, conv) && id in db.messages
    requires db.messages[id].conversation == conv.id && db.messages[id].recipient == reader
    ensures conv.PeerOf(reader) == db.messages[id].sender
  {
    assert MessageOk(db, id);
  }

  /** The rows of a unit of work announce exactly the messages it writes, at their new status. */
  lemma RowsAnnounceWrites(db: Db, call: Call, w: Work, row: Row, id: Uuid)
    requires WorkOk(db, call, w) && MessagesOk(db) && row in Rows(w)
    ensures StageOf(row.payload, id).Some? <==> id in Writes(w)
    ensures id in Writes(w) ==> StageOf(row.payload, id) == Some(Writes(w)[id].status)
  {
    hide MessagesOk, TargetOk, ClientIdTaken, Anchored, Matched, IsRead, Readable, Listed, Rows, UserTopic;
    RowsArePlain(db, call, w);
  }

  lemma ReadingParts(db: Db, call: Call, w: Work, id: Uuid)
    requires w.Reading? && WorkOk(db, call, w) && id in w.messages
    ensures call.ReadUpTo? && w.reader == call.user && Anchored(db, call, w.conv, w.upTo)
    ensures Readable(db, w.conv, w.reader, id, w.messages[id]) && Matched(db, w.conv, w.reader, w.upTo, id)
  {
    hide Anchored, IsRead, Listed, Readable, Matched;
  }

  lemma ReadingIsSome(db: Db, call: Call, w: Work)
    requires w.Reading? && WorkOk(db, call, w)
    ensures Listed(db, w.conv) && w.messages.Keys != {}
  {
    hide Anchored, IsRead, Listed, Readable, Matched;
  }

  lemma ReadWritten(db: Db, w: Work, first: nat, id: Uuid)
    requires w.Reading? && id in w.messages
    ensures id in Install(db, w, first).messages && Install(db, w, first).messages[id] == MarkRead(w.messages[id], w.at)
  {
    hide Rows, Numbered, MarkRead;
  }

  lemma ReadRowJustified(db: Db, call: Call, w: Work, first: nat, row: Row)
    requires w.Reading? && WorkOk(db, call, w) && MessagesOk(db) && row in Rows(w)
    ensures Justified(Install(db, w, first), row)
  {
    hide WorkOk, MessagesOk, Rows, UserTopic, Install, Matched, Anchored, Listed;
    RowsArePlain(db, call, w);
    ReadingIsSome(db, call, w);
    var db' := Install(db, w, first);
    forall id | id in w.messages ensures ReadJustified(db', row.topic, w.conv.id, w.reader, w.at, id) {
      ReadingParts(db, call, w, id);
      PeerIsSender(db, w.conv, w.reader, id);
      ReadWritten(db, w, first, id);
    }
  }

  lemma NewRowJustified(db: Db, call: Call, w: Work, first: nat, row: Row)
    requires WorkOk(db, call, w) && MessagesOk(db) && row in Rows(w)
    ensures Justified(Install(db, w, first), row)
  {
    hide MessagesOk, Rows, UserTopic, Anchored, Matched, IsRead, TargetOk, ClientIdTaken, Numbered;
    RowsArePlain(db, call, w);
    if w.Reading? {
      ReadRowJustified(db, call, w, first, row);
    }
  }

  lemma OldRowJustified(db: Db, db': Db, row: Row)
    requires MessagesOk(db) && MessagesOk(db') && Evolves(db, db') && Justified(db, row)
    ensures Justified(db', row)
  {
    match row.payload
    case MessageNew(out) => assert KeepsMessage(db, db', out.id);
    case MessageDelivered(id, _, _, _) => assert KeepsMessage(db, db', id);
    case MessageRead(conversation, reader, ids, at) =>
      forall id | id in ids ensures ReadJustified(db', row.topic, conversation, reader, at, id) {
        assert ReadJustified(db, row.topic, conversation, reader, at, id) && KeepsMessage(db, db', id);
      }
  }

  /** No row runs ahead of the stored status. */
  lemma StageBound(db: Db, row: Row, id: Uuid)
    requires Justified(db, row) && StageOf(row.payload, id).Some?
    ensures id in db.messages && Rank(StageOf(row.payload, id).value) <= Rank(db.messages[id].status)
  {
    if row.payload.MessageRead? {
      assert ReadJustified(db, row.topic, row.payload.conversation, row.payload.reader, row.payload.at, id);
    }
  }

  lemma HasRowKept(log: map<nat, Row>, log': map<nat, Row>, id: Uuid, stage: Status, user: UserId)
    requires HasRow(log, id, stage, user)
    requires forall i | i in log :: i in log' && log'[i] == log[i]
    ensures HasRow(log', id, stage, user)
  {
    var i :| i in log && Announces(log[i], id, stage, user);
    assert i in log' && Announces(log'[i], id, stage, user);
  }

  lemma HasRowAt(log: map<nat, Row>, i: nat, id: Uuid, stage: Status, user: UserId)
    requires i in log && Announces(log[i], id, stage, user)
    ensures HasRow(log, id, stage, user)
  {
  }

  lemma RowInstalled(db: Db, w: Work, first: nat, k: nat)
    requires k < |Rows(w)|
    ensures first + k in Install(db, w, first).log && Install(db, w, first).log[first + k] == Rows(w)[k]
  {
    assert first + k in Numbered(Rows(w), first);
  }

  lemma RowAnnounces(db: Db, w: Work, first: nat, k: nat, id: Uuid, stage: Status, user: UserId)
    requires k < |Rows(w)| && Announces(Rows(w)[k], id, stage, user)
    ensures HasRow(Install(db, w, first).log, id, stage, user)
  {
    RowInstalled(db, w, first, k);
    HasRowAt(Install(db, w, first).log, first + k, id, stage, user);
  }

  lemma NewMessageAnnounced(db: Db, w: Work, first: nat)
    requires w.NewMessage? && w.message.sender != w.message.recipient
    ensures HasRow(Install(db, w, first).log, w.message.id, Sent, w.message.recipient)
    ensures HasRow(Install(db, w, first).log, w.message.id, Sent, w.message.sender)
  {
    NewMessageRows(w);
    RowAnnounces(db, w, first, 0, w.message.id, Sent, w.message.recipient);
    RowAnnounces(db, w, first, 1, w.message.id, Sent, w.message.sender);
  }

  lemma ReceiptAnnounced(db: Db, call: Call, w: Work, first: nat, id: Uuid)
    requires WorkOk(db, call, w) && MessagesOk(db) && id in Writes(w) && !w.NewMessage?
    ensures HasRow(Install(db, w, first).log, id, Writes(w)[id].status, Writes(w)[id].sender)
  {
    hide MessagesOk, Rows, UserTopic, Anchored, Matched, IsRead, TargetOk, ClientIdTaken, Install, HasRow;
    RowsArePlain(db, call, w);
    match w
    case Delivery(m, at) => RowAnnounces(db, w, first, 0, id, Delivered, m.sender);
    case Reading(conv, reader, _, at, _, ms) =>
      assert Readable(db, conv, reader, id, ms[id]);
      PeerIsSender(db, conv, reader, id);
      RowAnnounces(db, w, first, 0, id, Read, ms[id].sender);
  }

  /** Every message a unit of work writes gets its rows. */
  lemma WriteAnnounced(db: Db, call: Call, w: Work, first: nat, id: Uuid)
    requires WorkOk(db, call, w) && MessagesOk(db) && id in Writes(w)
    ensures HasRow(Install(db, w, first).log, id, Writes(w)[id].status, Writes(w)[id].sender)
    ensures id !in db.messages ==> HasRow(Install(db, w, first).log, id, Sent, Writes(w)[id].recipient)
  {
    if w.NewMessage? {
      NewMessageAnnounced(db, w, first);
    } else {
      ReceiptAnnounced(db, call, w, first, id);
      if w.Reading? {
        assert Readable(db, w.conv, w.reader, id, w.messages[id]);
      }
    }
  }

  lemma MessageAnnounced(db: Db, call: Call, w: Work, first: nat, id: Uuid)
    requires WorkOk(db, call, w) && MessagesOk(db) && id in Install(db, w, first).messages
    requires id in db.messages ==> Announced(db, id)
    requires forall i | i in db.log :: !(first <= i < first + |Rows(w)|)
    ensures Announced(Install(db, w, first), id)
  {
    var db' := Install(db, w, first);
    if id in Writes(w) {
      WriteAnnounced(db, call, w, first, id);
    }
    if id in db.messages {
      var m := db.messages[id];
      HasRowKept(db.log, db'.log, id, Sent, m.recipient);
      HasRowKept(db.log, db'.log, id, Sent, m.sender);
      HasRowKept(db.log, db'.log, id, m.status, m.sender);
      if id in Writes(w) {
        WriteSucceeds(db, call, w, id);
      }
    }
  }

  /** A committed row about a message precedes the rows that a unit of work adds about it. */
  lemma OldRowsPrecede(db: Db, nextRow: nat, call: Call, w: Work, first: nat, i: nat, row: Row, id: Uuid)
    requires WorkOk(db, call, w) && MessagesOk(db) && NumbersOk(db, nextRow, w, first)
    requires i in db.log && Justified(db, db.log[i]) && row in Rows(w)
    requires StageOf(db.log[i].payload, id).Some? && StageOf(row.payload, id).Some?
    ensures i < first
    ensures Rank(StageOf(db.log[i].payload, id).value) < Rank(StageOf(row.payload, id).value)
  {
    hide WorkOk, MessagesOk, Justified, StageOf, Rows, Writes;
    RowsAnnounceWrites(db, call, w, row, id);
    StageBound(db, db.log[i], id);
    WriteSucceeds(db, call, w, id);
    assert Precedes(db.log[i], i, Writes(w).Keys, first);
  }

  lemma InOrderOldNew(db: Db, nextRow: nat, call: Call, w: Work, first: nat, i: nat, k: nat, id: Uuid)
    requires WorkOk(db, call, w) && MessagesOk(db) && NumbersOk(db, nextRow, w, first)
    requires i in db.log && k < |Rows(w)| && Justified(db, db.log[i])
    ensures i in Install(db, w, first).log && first + k in Install(db, w, first).log
    ensures InOrder(Install(db, w, first).log, i, first + k, id)
    ensures InOrder(Install(db, w, first).log, first + k, i, id)
  {
    RowInstalled(db, w, first, k);
    if StageOf(db.log[i].payload, id).Some? && StageOf(Rows(w)[k].payload, id).Some? {
      OldRowsPrecede(db, nextRow, call, w, first, i, Rows(w)[k], id);
    }
  }

  /** Two rows of one unit of work announce a message at the same stage, to different users. */
  lemma NewRowsDiffer(db: Db, call: Call, w: Work, k: nat, l: nat, id: Uuid)
    requires WorkOk(db, call, w) && MessagesOk(db) && k < |Rows(w)| && l < |Rows(w)|
    ensures StageOf(Rows(w)[k].payload, id) == StageOf(Rows(w)[l].payload, id)
    ensures Rows(w)[k].topic == Rows(w)[l].topic ==> k == l
  {
    hide MessagesOk, Rows, UserTopic, Anchored, Matched, IsRead, TargetOk, ClientIdTaken, StageOf, Readable;
    RowsArePlain(db, call, w);
    if w.NewMessage? && UserTopic(w.message.recipient) == UserTopic(w.message.sender) {
      TopicIsInjective(w.message.recipient, w.message.sender);
    }
  }

  /** `InOrder` for rows that the log is known to have. */
  predicate Sequenced(log: map<nat, Row>, i: nat, j: nat, id: Uuid) {
    i in log && j in log && InOrder(log, i, j, id)
  }

  lemma InOrderNewNew(db: Db, call: Call, w: Work, first: nat, k: nat, l: nat, id: Uuid)
    requires WorkOk(db, call, w) && MessagesOk(db) && k < |Rows(w)| && l < |Rows(w)|
    ensures Sequenced(Install(db, w, first).log, first + k, first + l, id)
  {
    hide WorkOk, MessagesOk, Rows, StageOf, Install;
    RowInstalled(db, w, first, k);
    RowInstalled(db, w, first, l);
    NewRowsDiffer(db, call, w, k, l, id);
  }

  lemma InOrderOldOld(log: map<nat, Row>, added: map<nat, Row>, i: nat, j: nat, id: Uuid)
    requires i in log && j in log && i !in added && j !in added && InOrder(log, i, j, id)
    ensures InOrder(log + added, i, j, id)
  {
  }

  lemma InOrderInstalled(db: Db, nextRow: nat, call: Call, w: Work, first: nat, i: nat, j: nat, id: Uuid)
    requires WorkOk(db, call, w) && MessagesOk(db) && NumbersOk(db, nextRow, w, first)
    requires i in Install(db, w, first).log && j in Install(db, w, first).log
    requires i in db.log ==> Justified(db, db.log[i])
    requires j in db.log ==> Justified(db, db.log[j])
    requires i in db.log && j in db.log ==> InOrder(db.log, i, j, id)
    ensures InOrder(Install(db, w, first).log, i, j, id)
  {
    hide WorkOk, MessagesOk, InOrder, Justified, Precedes, Rows, Writes;
    if i in db.log && j in db.log {
      InOrderOldOld(db.log, Numbered(Rows(w), first), i, j, id);
    } else if i in db.log {
      InOrderOldNew(db, nextRow, call, w, first, i, j - first, id);
    } else if j in db.log {
      InOrderOldNew(db, nextRow, call, w, first, j, i - first, id);
    } else {
      InOrderNewNew(db, call, w, first, i - first, j - first, id);
    }
  }

  lemma LogInstalled(db: Db, nextRow: nat, call: Call, w: Work, first: nat)
    requires DbOk(db) && WorkOk(db, call, w) && NumbersOk(db, nextRow, w, first)
    ensures LogOk(Install(db, w, first))
  {
    hide WorkOk, Justified, Announced, InOrder, MessagesOk, ConversationsOk, KeepsConversation, KeepsMessage, Rows, Writes, Precedes;
    var db' := Install(db, w, first);
    InstallEvolves(db, call, w, first);
    MessagesInstalled(db, call, w, first);
    forall i | i in db'.log ensures Justified(db', db'.log[i]) {
      if i in db.log {
        assert KeepsRow(db, db', i);
        OldRowJustified(db, db', db.log[i]);
      } else {
        NewRowJustified(db, call, w, first, db'.log[i]);
      }
    }
    forall id | id in db'.messages ensures Announced(db', id) {
      MessageAnnounced(db, call, w, first, id);
    }
    forall i, j, id | i in db'.log && j in db'.log ensures InOrder(db'.log, i, j, id) {
      InOrderInstalled(db, nextRow, call, w, first, i, j, id);
    }
  }

  lemma DbInstalled(db: Db, nextRow: nat, call: Call, w: Work, first: nat)
    requires DbOk(db) && WorkOk(db, call, w) && NumbersOk(db, nextRow, w, first)
    ensures DbOk(Install(db, w, first))
  {
    ConversationsInstalled(db, call, w, first);
    MessagesInstalled(db, call, w, first);
    LogInstalled(db, nextRow, call, w, first);
  }

  // ---- the other transactions

  lemma OwnStable(db: Db, call: Call, w: Work, first: nat, own: Conversation, u: UserId, v: UserId)
    requires WorkOk(db, call, w) && OwnOk(db, own, u, v)
    requires w.NewMessage? && w.own.Some? ==> w.own.value.id != own.id && !SamePair(w.own.value, own)
    ensures OwnOk(Install(db, w, first), own, u, v)
  {
    var db' := Install(db, w, first);
    forall c | c in db'.conversations
      ensures (db'.conversations[c].userA, db'.conversations[c].userB) != (own.userA, own.userB)
    {
      if c in db.conversations && c !in OwnConversation(w) {
        assert (db.conversations[c].userA, db.conversations[c].userB) != (own.userA, own.userB);
      }
    }
  }

  lemma TargetStable(db: Db, call: Call, w: Work, first: nat, own: Option<Conversation>, id: Uuid, u: UserId, v: UserId)
    requires WorkOk(db, call, w) && TargetOk(db, own, id, u, v)
    requires own.Some? && w.NewMessage? && w.own.Some? ==>
               w.own.value.id != own.value.id && !SamePair(w.own.value, own.value)
    ensures TargetOk(Install(db, w, first), own, id, u, v)
  {
    if own.Some? {
      OwnStable(db, call, w, first, own.value, u, v);
    }
  }

  lemma ClientIdStaysFree(db: Db, call: Call, w: Work, first: nat, sender: UserId, clientId: string)
    requires WorkOk(db, call, w) && MessagesOk(db) && !ClientIdTaken(db, sender, clientId)
    requires w.NewMessage? ==> !SameClientId(w.message, sender, clientId)
    ensures !ClientIdTaken(Install(db, w, first), sender, clientId)
  {
    var db' := Install(db, w, first);
    forall id | id in db'.messages ensures !SameClientId(db'.messages[id], sender, clientId) {
      ClientIdKept(db, call, w, id);
      if id in db.messages {
        assert !SameClientId(db.messages[id], sender, clientId);
      }
    }
  }

  lemma ClientIdStaysTaken(db: Db, db': Db, sender: UserId, clientId: string)
    requires Evolves(db, db') && ClientIdTaken(db, sender, clientId)
    ensures ClientIdTaken(db', sender, clientId)
  {
    var id :| id in db.messages && SameClientId(db.messages[id], sender, clientId);
    assert KeepsMessage(db, db', id);
    assert SameClientId(db'.messages[id], sender, clientId);
  }

  lemma PairStaysTaken(db: Db, db': Db, pair: (UserId, UserId))
    requires Evolves(db, db') && PairTaken(db, pair)
    ensures PairTaken(db', pair)
  {
    var c :| c in db.conversations && (db.conversations[c].userA, db.conversations[c].userB) == pair;
    assert KeepsConversation(db, db', c);
    assert (db'.conversations[c].userA, db'.conversations[c].userB) == pair;
  }

  lemma ReadableStable(db: Db, w: Work, first: nat, conv: Conversation, reader: UserId, id: Uuid, m: Message)
    requires Readable(db, conv, reader, id, m) && id !in Writes(w)
    ensures Readable(Install(db, w, first), conv, reader, id, m)
  {
  }

  lemma NewMessageStable(db: Db, call: Call, w: Work, first: nat, other: Call, v: Work)
    requires v.NewMessage? && WorkOk(db, call, w) && MessagesOk(db) && WorkOk(db, other, v)
    requires Compatible(Flushed(w, first), Staged(v))
    ensures WorkOk(Install(db, w, first), other, v)
  {
    hide MessageOk, Rows, CreatedId, ClientIdTaken, OwnOk, TargetOk, SortedPair, Anchored, Matched, IsRead, Readable, Numbered, Stamped;
    assert v.message.id in Writes(v);
    TargetStable(db, call, w, first, v.own, v.message.conversation, v.message.sender, v.message.recipient);
    ClientIdStaysFree(db, call, w, first, v.message.sender, v.message.clientId);
  }

  lemma VisibleStable(db: Db, db': Db, conv: Conversation, reader: UserId, upTo: Key, visible: set<Uuid>, got: set<Uuid>)
    requires Evolves(db, db')
    requires forall id | id in visible :: Matched(db, conv, reader, upTo, id)
    requires forall id | id in visible - got :: IsRead(db, id)
    ensures forall id | id in visible :: Matched(db', conv, reader, upTo, id)
    ensures forall id | id in visible - got :: IsRead(db', id)
  {
    hide KeyAtMost;
    forall id | id in visible ensures Matched(db', conv, reader, upTo, id) && (id !in got ==> IsRead(db', id)) {
      assert Matched(db, conv, reader, upTo, id) && KeepsMessage(db, db', id);
      if id !in got {
        assert id in visible - got;
      }
    }
  }

  lemma AnchorStable(db: Db, db': Db, call: Call, conv: Conversation, upTo: Key)
    requires Evolves(db, db') && Listed(db, conv) && call.ReadUpTo? && Anchored(db, call, conv, upTo)
    ensures Listed(db', conv) && Anchored(db', call, conv, upTo)
  {
    assert KeepsConversation(db, db', conv.id) && KeepsMessage(db, db', call.message);
  }

  lemma ReadingStable(db: Db, w: Work, first: nat, other: Call, v: Work)
    requires v.Reading? && WorkOk(db, other, v) && Evolves(db, Install(db, w, first))
    requires Writes(w).Keys !! Writes(v).Keys
    ensures WorkOk(Install(db, w, first), other, v)
  {
    hide Matched, IsRead, Anchored, Evolves, Listed;
    var db' := Install(db, w, first);
    AnchorStable(db, db', other, v.conv, v.upTo);
    VisibleStable(db, db', v.conv, v.reader, v.upTo, v.visible, v.messages.Keys);
    forall id | id in v.messages ensures Readable(db', v.conv, v.reader, id, v.messages[id]) {
      assert id in Writes(v);
      ReadableStable(db, w, first, v.conv, v.reader, id, v.messages[id]);
    }
  }

  lemma DeliveryStable(db: Db, w: Work, first: nat, other: Call, v: Work)
    requires v.Delivery? && WorkOk(db, other, v) && Writes(w).Keys !! Writes(v).Keys
    ensures WorkOk(Install(db, w, first), other, v)
  {
    hide Rows, Numbered;
    assert v.message.id in Writes(v);
  }

  lemma WorkStable(db: Db, call: Call, w: Work, first: nat, other: Call, v: Work)
    requires WorkOk(db, call, w) && MessagesOk(db) && WorkOk(db, other, v)
    requires Evolves(db, Install(db, w, first))
    requires Compatible(Flushed(w, first), Staged(v))
    ensures WorkOk(Install(db, w, first), other, v)
  {
    hide MessagesOk, Evolves, WorkOk, Install, Writes, Rows;
    match v
    case NewMessage(_, _) => NewMessageStable(db, call, w, first, other, v);
    case Delivery(_, _) => DeliveryStable(db, w, first, other, v);
    case Reading(_, _, _, _, _, _) => ReadingStable(db, w, first, other, v);
  }

  /** The rows of one transaction say nothing about the messages another one holds. */
  lemma RowsAreForeign(db: Db, call: Call, w: Work, row: Row, i: nat, ids: set<Uuid>, drawn: nat)
    requires WorkOk(db, call, w) && MessagesOk(db) && row in Rows(w) && Writes(w).Keys !! ids
    ensures Precedes(row, i, ids, drawn)
  {
    hide WorkOk, MessagesOk, Rows, Writes;
    forall id | id in ids ensures StageOf(row.payload, id).None? {
      RowsAnnounceWrites(db, call, w, row, id);
    }
  }

  lemma NumbersStable(db: Db, nextRow: nat, call: Call, w: Work, first: nat, v: Work, drawn: nat)
    requires WorkOk(db, call, w) && MessagesOk(db)
    requires NumbersOk(db, nextRow, v, drawn)
    requires Writes(w).Keys !! Writes(v).Keys
    requires first + |Rows(w)| <= drawn || drawn + |Rows(v)| <= first
    ensures NumbersOk(Install(db, w, first), nextRow, v, drawn)
  {
    hide WorkOk, MessagesOk, Rows, Writes, Precedes, StageOf;
    var log := Install(db, w, first).log;
    forall i | i in log ensures Precedes(log[i], i, Writes(v).Keys, drawn) {
      if i in Numbered(Rows(w), first) {
        RowsAreForeign(db, call, w, log[i], i, Writes(v).Keys, drawn);
      } else {
        assert Precedes(db.log[i], i, Writes(v).Keys, drawn);
      }
    }
  }

  lemma LockStable(db: Db, w: Work, first: nat, user: UserId, pc: Pc)
    requires pc.ReadLock? && LockOk(db, user, pc)
    requires Evolves(db, Install(db, w, first)) && Writes(w).Keys !! pc.got.Keys
    ensures LockOk(Install(db, w, first), user, pc)
  {
    hide Matched, IsRead, KeepsMessage, KeepsRow;
    var db' := Install(db, w, first);
    assert KeepsConversation(db, db', pc.conv.id);
    VisibleStable(db, db', pc.conv, user, pc.upTo, pc.visible, pc.todo + pc.got.Keys);
    forall id | id in pc.got ensures Readable(db', pc.conv, user, id, pc.got[id]) {
      ReadableStable(db, w, first, pc.conv, user, id, pc.got[id]);
    }
  }

  lemma SentColumnsStay(db: Db, db': Db, id: Uuid)
    requires KeepsMessage(db, db', id) && id in db.messages
    ensures id in db'.messages
    ensures var m, n := db.messages[id], db'.messages[id];
            && n.sender == m.sender && n.recipient == m.recipient && n.clientId == m.clientId
            && n.body == m.body && n.attachment == m.attachment
  {
  }

  lemma RefusalStable(db: Db, db': Db, call: Call, e: Error)
    requires Evolves(db, db') && RefusalOk(db, call, e)
    ensures RefusalOk(db', call, e)
  {
    hide KeepsMessage, KeepsRow, KeepsConversation;
    if e.IdempotencyConflict? {
      var id :| id in db.messages && db.messages[id].sender == call.user && db.messages[id].clientId == call.req.clientId
                && (db.messages[id].recipient != call.req.recipient || db.messages[id].body != call.req.body
                    || db.messages[id].attachment != call.req.attachment);
      SentColumnsStay(db, db', id);
      assert id in db'.messages && db'.messages[id].sender == call.user;
    } else if e.AccessDenied? {
      SentColumnsStay(db, db', call.message);
    }
  }

  lemma ReadByStable(db: Db, db': Db, call: Call, at: Option<Timestamp>, id: Uuid)
    requires Evolves(db, db') && MessagesOk(db) && call.ReadUpTo? && ReadBy(db, call, at, id)
    ensures ReadBy(db', call, at, id)
  {
    hide KeyAtMost;
    assert KeepsMessage(db, db', id) && KeepsMessage(db, db', call.message) && MessageOk(db, id);
  }

  lemma ResponseStable(db: Db, db': Db, call: Call, r: Response)
    requires Evolves(db, db') && MessagesOk(db) && ResponseOk(db, call, r)
    ensures ResponseOk(db', call, r)
  {
    hide ReadBy, RefusalOk, MessagesOk, Stamped;
    match r
    case SendDone(out, _) => assert KeepsMessage(db, db', out.id);
    case AckDone(out) => assert KeepsMessage(db, db', call.message);
    case ReadDone(_, ids, at) =>
      forall id | id in ids ensures ReadBy(db', call, at, id) {
        ReadByStable(db, db', call, at, id);
      }
    case Failed(e) => RefusalStable(db, db', call, e);
  }

  lemma SendStable(db: Db, nextRow: nat, call: Call, w: Work, first: nat, other: Call, pc: Pc)
    requires WorkOk(db, call, w) && Evolves(db, Install(db, w, first))
    requires PcOk(db, nextRow, other, pc) && Compatible(Flushed(w, first), pc)
    requires pc.SendSelect? || pc.SendInsert? || pc.SendRetry?
    ensures PcOk(Install(db, w, first), nextRow, other, pc)
  {
    hide WorkOk, OwnOk, PairTaken, ClientIdTaken, Evolves, LockOk, ResponseOk, NumbersOk, Rows, Writes;
    var db' := Install(db, w, first);
    match pc
    case SendSelect(_, own) =>
      if own.Some? {
        OwnStable(db, call, w, first, own.value, other.user, other.req.recipient);
      } else {
        PairStaysTaken(db, db', SortedPair(other.user, other.req.recipient));
      }
    case SendInsert(_, own, conv) =>
      TargetStable(db, call, w, first, own, conv.id, other.user, other.req.recipient);
    case SendRetry =>
      ClientIdStaysTaken(db, db', other.user, other.req.clientId);
  }

  lemma StagedIsCompatible(a: Pc, pc: Pc)
    requires pc.Flushed? && Compatible(a, pc)
    ensures Compatible(a, Staged(pc.work)) && Held(a) !! Writes(pc.work).Keys
    ensures a.Flushed? ==> a.first + |Rows(a.work)| <= pc.first || pc.first + |Rows(pc.work)| <= a.first
  {
    hide Rows, Writes;
  }

  lemma FlushedStable(db: Db, nextRow: nat, call: Call, w: Work, first: nat, other: Call, pc: Pc)
    requires WorkOk(db, call, w) && MessagesOk(db) && Evolves(db, Install(db, w, first))
    requires PcOk(db, nextRow, other, pc) && Compatible(Flushed(w, first), pc) && pc.Flushed?
    ensures PcOk(Install(db, w, first), nextRow, other, pc)
  {
    hide WorkOk, MessagesOk, Evolves, Install, NumbersOk, Compatible, Rows, Writes;
    StagedIsCompatible(Flushed(w, first), pc);
    WorkStable(db, call, w, first, other, pc.work);
    NumbersStable(db, nextRow, call, w, first, pc.work, pc.first);
  }

  lemma LockPcStable(db: Db, nextRow: nat, w: Work, first: nat, other: Call, pc: Pc)
    requires Evolves(db, Install(db, w, first)) && PcOk(db, nextRow, other, pc) && Held(pc) !! Writes(w).Keys && pc.ReadLock?
    ensures PcOk(Install(db, w, first), nextRow, other, pc)
  {
    hide Anchored, Rows, Numbered, Install, Writes, Evolves, Matched, Readable, IsRead;
    LockStable(db, w, first, other.user, pc);
    AnchorStable(db, Install(db, w, first), other, pc.conv, pc.upTo);
  }

  lemma ReceiptStable(db: Db, nextRow: nat, w: Work, first: nat, other: Call, pc: Pc)
    requires Evolves(db, Install(db, w, first)) && PcOk(db, nextRow, other, pc) && Held(pc) !! Writes(w).Keys
    requires pc.AckLock? || pc.AckMiss? || pc.ReadAnchor? || pc.ReadUpdate? || pc.ReadLock?
    ensures PcOk(Install(db, w, first), nextRow, other, pc)
  {
    hide LockOk, Anchored, Install, Writes, Rows;
    var db' := Install(db, w, first);
    match pc
    case AckLock(_) => assert KeepsMessage(db, db', other.message);
    case AckMiss(_) => assert KeepsMessage(db, db', other.message);
    case ReadAnchor(conv) => assert KeepsConversation(db, db', conv.id);
    case ReadUpdate(conv, upTo, _) => AnchorStable(db, db', other, conv, upTo);
    case ReadLock(_, _, _, _, _, _) => LockPcStable(db, nextRow, w, first, other, pc);
  }

  lemma HeldApart(w: Work, first: nat, pc: Pc)
    requires Compatible(Flushed(w, first), pc)
    ensures Held(pc) !! Writes(w).Keys
  {
    hide Writes, Rows;
  }

  lemma OtherPcsStable(db: Db, db': Db, nextRow: nat, call: Call, pc: Pc)
    requires PcOk(db, nextRow, call, pc)
    requires pc.SendLookup? || pc.SendAttachment? || pc.SendConversation? || pc.AckUpdate? || pc.ReadConversation?
    ensures PcOk(db', nextRow, call, pc)
  {
  }

  lemma PcStable(db: Db, nextRow: nat, call: Call, w: Work, first: nat, other: Call, pc: Pc)
    requires WorkOk(db, call, w) && MessagesOk(db) && Evolves(db, Install(db, w, first))
    requires PcOk(db, nextRow, other, pc) && Compatible(Flushed(w, first), pc)
    ensures PcOk(Install(db, w, first), nextRow, other, pc)
  {
    hide MessagesOk, Evolves, Install, WorkOk, NumbersOk, LockOk, ResponseOk, Anchored, OwnOk, TargetOk, PairTaken, ClientIdTaken, Compatible, Rows, Writes;
    var db' := Install(db, w, first);
    if pc.SendSelect? || pc.SendInsert? || pc.SendRetry? {
      SendStable(db, nextRow, call, w, first, other, pc);
    } else if pc.AckLock? || pc.AckMiss? || pc.ReadAnchor? || pc.ReadUpdate? || pc.ReadLock? {
      HeldApart(w, first, pc);
      ReceiptStable(db, nextRow, w, first, other, pc);
    } else if pc.Staged? {
      WorkStable(db, call, w, first, other, pc.work);
    } else if pc.Flushed? {
      FlushedStable(db, nextRow, call, w, first, other, pc);
    } else if Finished(pc) {
      ResponseStable(db, db', other, pc.response);
    } else {
      OtherPcsStable(db, db', nextRow, other, pc);
    }
  }

  lemma KeyInstalled(db: Db, call: Call, w: Work, first: nat, id: Uuid)
    requires WorkOk(db, call, w) && MessagesOk(db) && id in db.messages
    ensures id in Install(db, w, first).messages && Install(db, w, first).messages[id].Key() == db.messages[id].Key()
  {
    hide WorkOk, MessagesOk, Writes, Rows, Numbered, OwnConversation;
    if id in Writes(w) {
      WriteSucceeds(db, call, w, id);
    }
  }

  lemma ReadAnswerOk(db: Db, call: Call, w: Work, first: nat, id: Uuid)
    requires w.Reading? && WorkOk(db, call, w) && MessagesOk(db) && id in w.messages
    ensures call.ReadUpTo? && ReadBy(Install(db, w, first), call, Some(w.at), id)
  {
    hide WorkOk, MessagesOk, Rows, Numbered, OwnConversation, KeyAtMost;
    ReadingParts(db, call, w, id);
    KeyInstalled(db, call, w, first, id);
    KeyInstalled(db, call, w, first, call.message);
  }

  lemma AnswerOk(db: Db, call: Call, w: Work, first: nat)
    requires WorkOk(db, call, w) && MessagesOk(db)
    ensures ResponseOk(Install(db, w, first), call, Answer(w))
  {
    hide MessagesOk, Rows, Numbered, ClientIdTaken, TargetOk, Matched, IsRead, Readable, SortedPair, UserTopic, Stamped, Listed,
      OwnConversation, ReadBy, AttachmentOk, KeyAtMost;
    if w.Reading? {
      forall id | id in w.messages ensures ReadBy(Install(db, w, first), call, Some(w.at), id) {
        ReadAnswerOk(db, call, w, first, id);
      }
    }
  }

  lemma CommitEffect(s: Store, a: Action)
    requires Enabled(s, a) && a.Commit?
    ensures a.p in s.procs && s.procs[a.p].pc.Flushed?
    ensures Apply(s, a).db == Install(s.db, s.procs[a.p].pc.work, s.procs[a.p].pc.first) && Apply(s, a).nextRow == s.nextRow
    ensures Apply(s, a).procs == s.procs[a.p := s.procs[a.p].(pc :=
              if a.acknowledged then Committed(Answer(s.procs[a.p].pc.work)) else Done(Failed(Unavailable)))]
  {
    hide Install, Answer;
  }

  lemma FlushedParts(db: Db, nextRow: nat, call: Call, pc: Pc)
    requires PcOk(db, nextRow, call, pc) && pc.Flushed?
    ensures WorkOk(db, call, pc.work) && NumbersOk(db, nextRow, pc.work, pc.first)
    ensures forall i | i in db.log :: !(pc.first <= i < pc.first + |Rows(pc.work)|)
  {
    hide WorkOk, Rows, Precedes;
  }

  lemma CommittedOk(db: Db, nextRow: nat, call: Call, w: Work, first: nat, acknowledged: bool)
    requires WorkOk(db, call, w) && MessagesOk(db)
    ensures PcOk(Install(db, w, first), nextRow, call, if acknowledged then Committed(Answer(w)) else Done(Failed(Unavailable)))
  {
    hide WorkOk, MessagesOk, Install, Answer;
    AnswerOk(db, call, w, first);
  }

  lemma CommitPcOk(s: Store, a: Action, q: nat)
    requires ProcsOk(s) && MessagesOk(s.db) && Enabled(s, a) && a.Commit? && q in s.procs
    ensures q in Apply(s, a).procs && PcOk(Apply(s, a).db, s.nextRow, s.procs[q].call, Apply(s, a).procs[q].pc)
  {
    hide Enabled, Apply, WorkOk, MessagesOk, Evolves, Install, Compatible, Rows, PcOk, NumbersOk, Answer;
    CommitEffect(s, a);
    var call, pc := s.procs[a.p].call, s.procs[a.p].pc;
    assert PcOk(s.db, s.nextRow, call, pc);
    FlushedParts(s.db, s.nextRow, call, pc);
    if q == a.p {
      CommittedOk(s.db, s.nextRow, call, pc.work, pc.first, a.acknowledged);
    } else {
      InstallEvolves(s.db, call, pc.work, pc.first);
      assert PcOk(s.db, s.nextRow, s.procs[q].call, s.procs[q].pc) && Compatible(pc, s.procs[q].pc);
      PcStable(s.db, s.nextRow, call, pc.work, pc.first, s.procs[q].call, s.procs[q].pc);
    }
  }

  lemma AnswerIsCompatible(a: Pc, b: Pc)
    requires Finished(a) && (CreatedId(a).Some? ==> CreatedId(a) != CreatedId(b))
    ensures Compatible(a, b) && Compatible(b, a)
  {
  }

  /** Only one response ever claims to have created a message. */
  lemma CreatedOnce(s: Store, p: nat, q: nat)
    requires ProcsOk(s) && p in s.procs && s.procs[p].pc.Flushed? && q in s.procs && q != p
    ensures CreatedId(Committed(Answer(s.procs[p].pc.work))).Some? ==>
              CreatedId(Committed(Answer(s.procs[p].pc.work))) != CreatedId(s.procs[q].pc)
  {
    var pc, other := s.procs[p].pc, s.procs[q].pc;
    assert PcOk(s.db, s.nextRow, s.procs[p].call, pc);
    assert PcOk(s.db, s.nextRow, s.procs[q].call, other);
    if CreatedId(other).Some? {
      assert CreatedId(other).value in s.db.messages;
    }
  }

  lemma CommitProcsOk(s: Store, a: Action)
    requires MessagesOk(s.db) && ProcsOk(s) && Enabled(s, a) && a.Commit?
    ensures ProcsOk(Apply(s, a))
  {
    hide PcOk, MessagesOk, Install, Rows, Writes, Compatible;
    var s' := Apply(s, a);
    forall q | q in s'.procs ensures PcOk(s'.db, s'.nextRow, s'.procs[q].call, s'.procs[q].pc) {
      CommitPcOk(s, a, q);
    }
    forall x, y | x in s'.procs && y in s'.procs && x != y
      ensures Compatible(s'.procs[x].pc, s'.procs[y].pc)
    {
      if x == a.p {
        CreatedOnce(s, a.p, y);
        AnswerIsCompatible(s'.procs[x].pc, s'.procs[y].pc);
      } else if y == a.p {
        CreatedOnce(s, a.p, x);
        AnswerIsCompatible(s'.procs[y].pc, s'.procs[x].pc);
      } else {
        assert Compatible(s.procs[x].pc, s.procs[y].pc);
      }
    }
  }

  lemma CommitDbOk(s: Store, a: Action)
    requires DbOk(s.db) && ProcsOk(s) && Enabled(s, a) && a.Commit?
    ensures DbOk(Apply(s, a).db) && Evolves(s.db, Apply(s, a).db)
  {
    hide WorkOk, Evolves, Install, LogOk, ConversationsOk, MessagesOk, Rows, Writes, Precedes, Compatible;
    var pc := s.procs[a.p].pc;
    assert PcOk(s.db, s.nextRow, s.procs[a.p].call, pc);
    InstallEvolves(s.db, s.procs[a.p].call, pc.work, pc.first);
    DbInstalled(s.db, s.nextRow, s.procs[a.p].call, pc.work, pc.first);
  }

  // ---- drawing identity values

  /** Numbers drawn from the sequence now are above all committed ones and all drawn before. */
  lemma DrawnNumbersOk(db: Db, nextRow: nat, w: Work)
    requires forall i | i in db.log :: i < nextRow
    ensures NumbersOk(db, nextRow + |Rows(w)|, w, nextRow)
  {
    hide Rows, Writes, StageOf;
  }

  lemma SequenceGrows(db: Db, nextRow: nat, later: nat, call: Call, pc: Pc)
    requires PcOk(db, nextRow, call, pc) && nextRow <= later
    ensures PcOk(db, later, call, pc)
  {
    hide WorkOk, LockOk, ResponseOk, TargetOk, OwnOk, Rows, Writes, Precedes;
  }

  lemma FlushIsCompatible(w: Work, first: nat, other: Pc)
    requires Compatible(Staged(w), other) && (other.Flushed? ==> other.first + |Rows(other.work)| <= first)
    ensures Compatible(Flushed(w, first), other) && Compatible(other, Flushed(w, first))
  {
    hide Rows, Writes;
  }

  lemma FlushProcsOk(s: Store, a: Action)
    requires ProcsOk(s) && (forall i | i in s.db.log :: i < s.nextRow) && Enabled(s, a) && a.Flush?
    ensures ProcsOk(Apply(s, a))
  {
    hide WorkOk, LockOk, ResponseOk, TargetOk, OwnOk, Rows, Writes, Precedes, Compatible;
    var s' := Apply(s, a);
    var w := s.procs[a.p].pc.work;
    assert PcOk(s.db, s.nextRow, s.procs[a.p].call, s.procs[a.p].pc);
    DrawnNumbersOk(s.db, s.nextRow, w);
    forall q | q in s'.procs ensures PcOk(s'.db, s'.nextRow, s'.procs[q].call, s'.procs[q].pc) {
      if q != a.p {
        SequenceGrows(s.db, s.nextRow, s'.nextRow, s.procs[q].call, s.procs[q].pc);
      }
    }
    forall q | q in s'.procs && q != a.p
      ensures Compatible(s'.procs[a.p].pc, s'.procs[q].pc) && Compatible(s'.procs[q].pc, s'.procs[a.p].pc)
    {
      assert PcOk(s.db, s.nextRow, s.procs[q].call, s.procs[q].pc);
      FlushIsCompatible(w, s.nextRow, s.procs[q].pc);
    }
  }

  // ---- every step

  lemma InvParts(s: Store)
    ensures Inv(s) <==> DbOk(s.db) && ProcsOk(s) && forall i | i in s.db.log :: i < s.nextRow
    ensures DbOk(s.db) <==> ConversationsOk(s.db) && MessagesOk(s.db) && LogOk(s.db)
  {
  }

  lemma CommitNumbersOk(s: Store, a: Action)
    requires ProcsOk(s) && (forall i | i in s.db.log :: i < s.nextRow) && Enabled(s, a) && a.Commit?
    ensures forall i | i in Apply(s, a).db.log :: i < Apply(s, a).nextRow
  {
    hide WorkOk, Compatible, Rows, Writes, Precedes;
    assert PcOk(s.db, s.nextRow, s.procs[a.p].call, s.procs[a.p].pc);
  }

  lemma EvolvesIsReflexive(db: Db)
    ensures Evolves(db, db)
  {
  }

  lemma OtherStepsKeepDb(s: Store, a: Action)
    requires Enabled(s, a) && !a.Commit?
    ensures Apply(s, a).db == s.db && Apply(s, a).nextRow >= s.nextRow
  {
  }

  lemma StepOk(s: Store, a: Action)
    requires Inv(s) && Enabled(s, a)
    ensures Inv(Apply(s, a)) && Evolves(s.db, Apply(s, a).db)
  {
    hide *;
    InvParts(s);
    InvParts(Apply(s, a));
    if a.Commit? {
      CommitProcsOk(s, a);
      CommitDbOk(s, a);
      CommitNumbersOk(s, a);
    } else {
      OtherStepsKeepDb(s, a);
      EvolvesIsReflexive(s.db);
      if a.Begin? {
        BeginOk(s, a);
      } else if a.Flush? {
        FlushProcsOk(s, a);
      } else {
        LocalStepOk(s, a);
      }
    }
  }

  /** Every state that any schedule of any requests can reach satisfies the invariant, and
      committed data only evolves on the way. */
  lemma {:induction false} RunOk(s: Store, actions: seq<Action>, s': Store)
    requires Inv(s) && Reaches(s, actions, s')
    ensures Inv(s') && Evolves(s.db, s'.db)
    decreases |actions|
  {
    if actions != [] {
      var next := Apply(s, actions[0]);
      StepOk(s, actions[0]);
      RunOk(next, actions[1..], s');
      EvolvesIsTransitive(s.db, next.db, s'.db);
    }
  }
}
