/** What every step of the chat store keeps. */
module ChatInvariant {
  import opened Basics
  import opened Clock
  import opened Uuids
  import opened Models
  import opened ChatStore

  // ---- committed tables

  predicate Between(c: Conversation, u: UserId, v: UserId) {
    (c.userA, c.userB) == SortedPair(u, v)
  }

  predicate Stamped(m: Message) {
    && (m.deliveredAt.Some? <==> m.status != Sent)
    && (m.readAt.Some? <==> m.status == Read)
  }

  predicate MessageOk(db: Db, id: Uuid)
    requires id in db.messages
  {
    var m := db.messages[id];
    && m.id == id
    && m.sender != m.recipient
    && m.conversation in db.conversations
    && Between(db.conversations[m.conversation], m.sender, m.recipient)
    && Stamped(m)
    && (m.body.Some? || m.attachment.Some?)
    && AttachmentOk(m.sender, m.attachment, m.mime)
  }

  /** An attachment was issued to the sender and its type is an allowed one. */
  predicate AttachmentOk(sender: UserId, attachment: Option<string>, mime: Option<string>) {
    match attachment
    case None => mime.None?
    case Some(key) => "u/" + sender + "/" <= key && mime.Some? && mime.value in ATTACHMENT_ALLOWED_MIME
  }

  predicate ClientIdIsUnique(db: Db, m: Uuid, n: Uuid)
    requires m in db.messages && n in db.messages
  {
    SameClientId(db.messages[m], db.messages[n].sender, db.messages[n].clientId) ==> m == n
  }

  ghost predicate MessagesOk(db: Db) {
    && (forall id | id in db.messages :: MessageOk(db, id))
    && (forall m, n | m in db.messages && n in db.messages :: ClientIdIsUnique(db, m, n))
  }

  ghost predicate ConversationOk(db: Db, c: Uuid)
    requires c in db.conversations
  {
    && db.conversations[c].id == c
    && StringLess(db.conversations[c].userA, db.conversations[c].userB)
    && exists m :: m in db.messages && db.messages[m].conversation == c
  }

  predicate PairIsUnique(db: Db, c: Uuid, d: Uuid)
    requires c in db.conversations && d in db.conversations
  {
    SamePair(db.conversations[c], db.conversations[d]) ==> c == d
  }

  ghost predicate ConversationsOk(db: Db) {
    && (forall c | c in db.conversations :: ConversationOk(db, c))
    && (forall c, d | c in db.conversations && d in db.conversations :: PairIsUnique(db, c, d))
  }

  // ---- the outbox log

  /** The stage of message `id` that an event announces. */
  function StageOf(e: Payload, id: Uuid): Option<Status> {
    match e
    case MessageNew(out) => if out.id == id then Some(Sent) else None
    case MessageDelivered(m, _, _, _) => if m == id then Some(Delivered) else None
    case MessageRead(_, _, ids, _) => if id in ids then Some(Read) else None
  }

  /** The columns of a message that no command ever changes. */
  predicate SameMessage(m: Message, n: Message) {
    m.(status := Sent, deliveredAt := None, readAt := None) == n.(status := Sent, deliveredAt := None, readAt := None)
  }

  /** The state change that a row announces is committed, and the row goes to the right user. */
  predicate Justified(db: Db, row: Row) {
    match row.payload
    case MessageNew(out) =>
      && out.id in db.messages
      && out.status == Sent && Stamped(out)
      && var m := db.messages[out.id];
      SameMessage(m, out) && (row.topic == UserTopic(m.sender) || row.topic == UserTopic(m.recipient))
    case MessageDelivered(id, conversation, clientId, at) =>
      && id in db.messages
      && var m := db.messages[id];
      && m.status != Sent && m.deliveredAt == Some(at)
      && m.conversation == conversation && m.clientId == clientId
      && row.topic == UserTopic(m.sender)
    case MessageRead(conversation, reader, ids, at) =>
      && ids != {}
      && forall id | id in ids :: ReadJustified(db, row.topic, conversation, reader, at, id)
  }

  predicate ReadJustified(db: Db, topic: string, conversation: Uuid, reader: UserId, at: Timestamp, id: Uuid) {
    && id in db.messages
    && var m := db.messages[id];
    && m.status == Read && m.readAt == Some(at)
    && m.conversation == conversation && m.recipient == reader
    && topic == UserTopic(m.sender)
  }

  predicate Announces(row: Row, id: Uuid, stage: Status, user: UserId) {
    row.topic == UserTopic(user) && StageOf(row.payload, id) == Some(stage)
  }

  ghost predicate HasRow(log: map<nat, Row>, id: Uuid, stage: Status, user: UserId) {
    exists i :: i in log && Announces(log[i], id, stage, user)
  }

  ghost predicate Announced(db: Db, id: Uuid)
    requires id in db.messages
  {
    var m := db.messages[id];
    && HasRow(db.log, id, Sent, m.recipient)
    && HasRow(db.log, id, Sent, m.sender)
    && HasRow(db.log, id, m.status, m.sender)
  }

  /** Rows about one message are numbered by stage, and no stage is announced twice to a user. */
  predicate InOrder(log: map<nat, Row>, i: nat, j: nat, id: Uuid)
    requires i in log && j in log
  {
    var a, b := StageOf(log[i].payload, id), StageOf(log[j].payload, id);
    a.Some? && b.Some? ==>
      && (Rank(a.value) < Rank(b.value) ==> i < j)
      && (a == b && log[i].topic == log[j].topic ==> i == j)
  }

  ghost predicate LogOk(db: Db) {
    && (forall i | i in db.log :: Justified(db, db.log[i]))
    && (forall id | id in db.messages :: Announced(db, id))
    && (forall i, j, id | i in db.log && j in db.log :: InOrder(db.log, i, j, id))
  }

  ghost predicate DbOk(db: Db) {
    ConversationsOk(db) && MessagesOk(db) && LogOk(db)
  }

  // ---- processes

  predicate OwnOk(db: Db, own: Conversation, u: UserId, v: UserId) {
    own.id !in db.conversations && Between(own, u, v) && !PairTaken(db, (own.userA, own.userB))
  }

  /** The conversation a send will use: its own uncommitted one or a committed one. */
  predicate TargetOk(db: Db, own: Option<Conversation>, conversation: Uuid, u: UserId, v: UserId) {
    match own
    case Some(c) => OwnOk(db, c, u, v) && c.id == conversation
    case None => conversation in db.conversations && Between(db.conversations[conversation], u, v)
  }

  predicate Listed(db: Db, conv: Conversation) {
    conv.id in db.conversations && db.conversations[conv.id] == conv
  }

  /** A row that `mark_read` has locked, as it was when locked. */
  predicate Readable(db: Db, conv: Conversation, reader: UserId, id: Uuid, m: Message) {
    && id in db.messages && db.messages[id] == m
    && m.status != Read && m.conversation == conv.id && m.recipient == reader
  }

  /** `upTo` is the key of the message that the reader named, in the conversation it named. */
  predicate Anchored(db: Db, call: Call, conv: Conversation, upTo: Key)
    requires call.ReadUpTo?
  {
    && conv.id == call.conversation
    && call.message in db.messages
    && db.messages[call.message].conversation == conv.id && db.messages[call.message].Key() == upTo
  }

  predicate WorkOk(db: Db, call: Call, w: Work) {
    match w
    case NewMessage(own, m) =>
      && call.Send? && m.sender == call.user && m.clientId == call.req.clientId
      && m.recipient == call.req.recipient && m.body == call.req.body && m.attachment == call.req.attachment
      && m.sender != m.recipient
      && m.status == Sent && Stamped(m) && (m.body.Some? || m.attachment.Some?)
      && AttachmentOk(m.sender, m.attachment, m.mime)
      && m.id !in db.messages && !ClientIdTaken(db, m.sender, m.clientId)
      && TargetOk(db, own, m.conversation, m.sender, m.recipient)
    case Delivery(m, at) =>
      && call.Ack? && call.message == m.id
      && m.id in db.messages && db.messages[m.id] == m
      && m.status == Sent && m.recipient == call.user
    case Reading(conv, reader, upTo, at, visible, ms) =>
      && call.ReadUpTo? && call.user == reader && Listed(db, conv) && conv.Has(reader)
      && Anchored(db, call, conv, upTo)
      && ms.Keys != {} && ms.Keys <= visible
      && (forall id | id in visible :: Matched(db, conv, reader, upTo, id))
      && (forall id | id in visible - ms.Keys :: IsRead(db, id))
      && forall id | id in ms :: Readable(db, conv, reader, id, ms[id])
  }

  predicate ResponseOk(db: Db, call: Call, r: Response) {
    match r
    case SendDone(out, created) =>
      && call.Send? && out.id in db.messages
      && SameMessage(db.messages[out.id], out) && Stamped(out)
      && out.sender == call.user && out.clientId == call.req.clientId
      && out.recipient == call.req.recipient && out.body == call.req.body && out.attachment == call.req.attachment
      && (created ==> out.status == Sent)
    case AckDone(out) =>
      && call.Ack? && out.id == call.message && call.message in db.messages
      && SameMessage(db.messages[call.message], out)
      && out.recipient == call.user
      && Rank(out.status) <= Rank(db.messages[call.message].status)
    case ReadDone(conversation, ids, at) =>
      && call.ReadUpTo? && conversation == call.conversation && (at.Some? <==> ids != {})
      && forall id | id in ids :: ReadBy(db, call, at, id)
    case Failed(e) => RefusalOk(db, call, e)
  }

  /** Message `id` was sent to the caller in the conversation, no later than the message named, and it was
      read at the time answered. */
  predicate ReadBy(db: Db, call: Call, at: Option<Timestamp>, id: Uuid)
    requires call.ReadUpTo?
  {
    && id in db.messages && call.message in db.messages
    && var m := db.messages[id];
    && m.status == Read && m.readAt == at
    && m.conversation == call.conversation && m.recipient == call.user
    && KeyAtMost(m.Key(), db.messages[call.message].Key())
  }

  /** The sender has used the client id for a message with another recipient, body or attachment. */
  predicate Reused(db: Db, user: UserId, req: SendRequest) {
    exists id | id in db.messages ::
      && db.messages[id].sender == user && db.messages[id].clientId == req.clientId
      && (db.messages[id].recipient != req.recipient || db.messages[id].body != req.body
          || db.messages[id].attachment != req.attachment)
  }

  /** Every refusal has its reason. */
  predicate RefusalOk(db: Db, call: Call, e: Error) {
    match e
    case InvalidRecipient => call.Send? && call.user == call.req.recipient
    case BodyTooLong => call.Send? && call.req.body.Some? && call.req.graphemes > MESSAGE_MAX_GRAPHEMES
    case InvalidAttachment => call.Send? && call.req.attachment.Some? && !("u/" + call.user + "/" <= call.req.attachment.value)
    case AttachmentNotFound => call.Send? && call.req.attachment.Some? && "u/" + call.user + "/" <= call.req.attachment.value
    case PayloadTooLarge => call.Send? && call.req.attachment.Some? && "u/" + call.user + "/" <= call.req.attachment.value
    case UnsupportedMediaType => call.Send? && call.req.attachment.Some? && "u/" + call.user + "/" <= call.req.attachment.value
    case IdempotencyConflict => call.Send? && Reused(db, call.user, call.req)
    case AccessDenied =>
      call.Ack? && call.message in db.messages && db.messages[call.message].sender == call.user
    case NotFound => !call.Send?
    case Unavailable => true
    case _ => false
  }

  predicate LockOk(db: Db, user: UserId, pc: Pc)
    requires pc.ReadLock?
  {
    && Listed(db, pc.conv) && pc.conv.Has(user)
    && pc.todo <= pc.visible && pc.got.Keys <= pc.visible - pc.todo
    && (forall id | id in pc.visible :: Matched(db, pc.conv, user, pc.upTo, id))
    && (forall id | id in pc.got :: Readable(db, pc.conv, user, id, pc.got[id]))
    && (forall id | id in pc.visible - pc.todo - pc.got.Keys :: IsRead(db, id))
  }

  predicate Matched(db: Db, conv: Conversation, user: UserId, upTo: Key, id: Uuid) {
    && id in db.messages && db.messages[id].conversation == conv.id
    && db.messages[id].recipient == user && KeyAtMost(db.messages[id].Key(), upTo)
  }

  predicate IsRead(db: Db, id: Uuid) {
    id in db.messages && db.messages[id].status == Read
  }

  predicate PcOk(db: Db, nextRow: nat, call: Call, pc: Pc) {
    match pc
    case SendLookup => call.Send? && call.user != call.req.recipient
    case SendAttachment => call.Send? && call.user != call.req.recipient && call.req.attachment.Some?
    case SendConversation(mime) => call.Send? && call.user != call.req.recipient && AttachmentOk(call.user, call.req.attachment, mime)
    case SendSelect(mime, own) =>
      && call.Send? && call.user != call.req.recipient && AttachmentOk(call.user, call.req.attachment, mime)
      && (match own
          case Some(c) => OwnOk(db, c, call.user, call.req.recipient)
          case None => PairTaken(db, SortedPair(call.user, call.req.recipient)))
    case SendInsert(mime, own, conv) =>
      && call.Send? && call.user != call.req.recipient && AttachmentOk(call.user, call.req.attachment, mime)
      && TargetOk(db, own, conv.id, call.user, call.req.recipient)
    case SendRetry => call.Send? && ClientIdTaken(db, call.user, call.req.clientId)
    case AckUpdate => call.Ack?
    case AckLock(_) => call.Ack? && call.message in db.messages && db.messages[call.message].recipient == call.user
    case AckMiss(seen) => call.Ack? && (seen ==> call.message in db.messages && !Acknowledges(db.messages[call.message], call.user))
    case ReadConversation => call.ReadUpTo?
    case ReadAnchor(conv) => call.ReadUpTo? && Listed(db, conv) && conv.Has(call.user) && conv.id == call.conversation
    case ReadUpdate(conv, upTo, _) => call.ReadUpTo? && Listed(db, conv) && conv.Has(call.user) && Anchored(db, call, conv, upTo)
    case ReadLock(conv, upTo, _, _, _, _) => call.ReadUpTo? && LockOk(db, call.user, pc) && Anchored(db, call, conv, upTo)
    case Staged(w) => WorkOk(db, call, w)
    case Flushed(w, first) => WorkOk(db, call, w) && NumbersOk(db, nextRow, w, first)
    case Committed(r) => ResponseOk(db, call, r)
    case Done(r) => ResponseOk(db, call, r)
  }

  /** The identity values a transaction has drawn: unused, and above every committed row about
      the messages it writes. */
  predicate NumbersOk(db: Db, nextRow: nat, w: Work, first: nat) {
    && first + |Rows(w)| <= nextRow
    && (forall i | i in db.log :: !(first <= i < first + |Rows(w)|))
    && (forall i | i in db.log :: Precedes(db.log[i], i, Writes(w).Keys, first))
  }

  predicate Precedes(row: Row, i: nat, ids: set<Uuid>, first: nat) {
    (exists id | id in ids :: StageOf(row.payload, id).Some?) ==> i < first
  }

  function CreatedId(pc: Pc): Option<Uuid> {
    match pc
    case Committed(r) => if r.SendDone? && r.created then Some(r.out.id) else None
    case Done(r) => if r.SendDone? && r.created then Some(r.out.id) else None
    case _ => None
  }

  /** What the locks, the unique constraints and the sequence keep apart. */
  predicate Compatible(a: Pc, b: Pc) {
    && Held(a) !! Held(b)
    && (HeldConversation(a).Some? && HeldConversation(b).Some? ==>
          HeldConversation(a).value.id != HeldConversation(b).value.id
          && !SamePair(HeldConversation(a).value, HeldConversation(b).value))
    && (HeldMessage(a).Some? && HeldMessage(b).Some? ==>
          !SameClientId(HeldMessage(a).value, HeldMessage(b).value.sender, HeldMessage(b).value.clientId))
    && (a.Flushed? && b.Flushed? ==> a.first + |Rows(a.work)| <= b.first || b.first + |Rows(b.work)| <= a.first)
    && (CreatedId(a).Some? ==> CreatedId(a) != CreatedId(b))
  }

  ghost predicate ProcsOk(s: Store) {
    && (forall p | p in s.procs :: PcOk(s.db, s.nextRow, s.procs[p].call, s.procs[p].pc))
    && (forall p, q | p in s.procs && q in s.procs && p != q :: Compatible(s.procs[p].pc, s.procs[q].pc))
  }

  ghost predicate Inv(s: Store) {
    && DbOk(s.db)
    && (forall i | i in s.db.log :: i < s.nextRow)
    && ProcsOk(s)
  }

  lemma InitOk()
    ensures Inv(Init())
  {
  }
}
