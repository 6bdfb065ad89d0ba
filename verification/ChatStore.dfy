/** The transactional side of app/services/chat.py as a step machine.

    Each request in progress is a process with a program counter. A step is one SQL statement,
    one row lock taken by an UPDATE, a flush, a commit, or a failure; any other process may
    step in between. Statements see committed rows and the process's own writes (READ
    COMMITTED), an INSERT waits for a conflicting uncommitted one, and an UPDATE waits for a
    row lock and then checks its WHERE clause again on the row's newest version. */
module ChatStore {
  import opened Basics
  import opened Clock
  import opened Uuids
  import opened Models

  const MESSAGE_MAX_GRAPHEMES := 4000
  const ATTACHMENT_MAX_BYTES := 5 * 1024 * 1024
  const ATTACHMENT_ALLOWED_MIME := {"image/jpeg", "image/png", "image/gif", "image/webp", "application/pdf"}

  datatype Call =
    | Send(user: UserId, req: SendRequest)
    | Ack(user: UserId, message: Uuid)
    | ReadUpTo(user: UserId, conversation: Uuid, message: Uuid)

  datatype Response =
    | SendDone(out: Message, created: bool)
    | AckDone(out: Message)
    | ReadDone(conversation: Uuid, ids: set<Uuid>, at: Option<Timestamp>)
    | Failed(error: Error)

  /** What a transaction has written when only its flush and commit are left to do. A receipt
      keeps the rows as they were when it locked them. */
  datatype Work =
    | NewMessage(own: Option<Conversation>, message: Message)
    | Delivery(message: Message, at: Timestamp)
    | Reading(conv: Conversation, reader: UserId, upTo: Key, at: Timestamp, visible: set<Uuid>, messages: map<Uuid, Message>)

  datatype Pc =
    // send_message
    | SendLookup
    | SendAttachment
    | SendConversation(mime: Option<string>)
    | SendSelect(mime: Option<string>, own: Option<Conversation>)
    | SendInsert(mime: Option<string>, own: Option<Conversation>, conv: Conversation)
    | SendRetry
    // mark_delivered; `seen` tells whether the UPDATE's snapshot held the message
    | AckUpdate
    | AckLock(now: Timestamp)
    | AckMiss(seen: bool)
    // mark_read; `visible` is what the UPDATE's snapshot matches, `todo` what it has yet to lock
    | ReadConversation
    | ReadAnchor(conv: Conversation)
    | ReadUpdate(conv: Conversation, upTo: Key, now: Timestamp)
    | ReadLock(conv: Conversation, upTo: Key, now: Timestamp,
               visible: set<Uuid>, todo: set<Uuid>, got: map<Uuid, Message>)
    // every command
    | Staged(work: Work)
    | Flushed(work: Work, first: nat)
    | Committed(response: Response)
    | Done(response: Response)

  datatype Proc = Proc(call: Call, replica: nat, pc: Pc)

  /** Committed state. The log keeps every outbox row ever committed, under its identity value. */
  datatype Db = Db(
    conversations: map<Uuid, Conversation>, messages: map<Uuid, Message>, log: map<nat, Row>)

  /** `nextRow` is the outbox identity sequence; like every sequence it is not rolled back. */
  datatype Store = Store(db: Db, procs: map<nat, Proc>, nextRow: nat)

  function Init(): Store {
    Store(Db(map[], map[], map[]), map[], 0)
  }

  // ---- the pure helpers of the service

  function UserTopic(user: UserId): string {
    "user:" + user
  }

  /** `dict.fromkeys`: first occurrences, in order. */
  function Distinct(users: seq<UserId>): seq<UserId> {
    if users == [] then []
    else
      var last := |users| - 1;
      var before := Distinct(users[..last]);
      if users[last] in before then before else before + [users[last]]
  }

  /** One outbox row per recipient. */
  function Enqueue(recipients: seq<UserId>, payload: Payload): seq<Row> {
    var users := Distinct(recipients);
    seq(|users|, i requires 0 <= i < |users| => Row(UserTopic(users[i]), payload))
  }

  function Deliver(m: Message, now: Timestamp): Message {
    m.(status := Delivered, deliveredAt := Some(now))
  }

  function MarkRead(m: Message, now: Timestamp): Message {
    m.(status := Read, readAt := Some(now),
       deliveredAt := if m.deliveredAt.Some? then m.deliveredAt else Some(now))
  }

  function NewRow(id: Uuid, conv: Conversation, sender: UserId, req: SendRequest,
                  mime: Option<string>, now: Timestamp): Message
  {
    Message(id, conv.id, sender, req.recipient, req.clientId, req.body, req.attachment, mime,
            Sent, now, None, None)
  }

  predicate SameRequest(m: Message, req: SendRequest) {
    m.recipient == req.recipient && m.body == req.body && m.attachment == req.attachment
  }

  /** `_check_attachment`, with what the storage's HEAD request finds: the file's type, or the refusal. */
  function CheckUpload(sender: UserId, key: string, stored: Option<Upload>): Result<string, Error> {
    if !("u/" + sender + "/" <= key) then Err(InvalidAttachment)
    else if stored.None? then Err(AttachmentNotFound)
    else if stored.value.size > ATTACHMENT_MAX_BYTES then Err(PayloadTooLarge)
    else if stored.value.contentType !in ATTACHMENT_ALLOWED_MIME then Err(UnsupportedMediaType)
    else Ok(stored.value.contentType)
  }

  function Replay(m: Message, req: SendRequest): Response {
    if SameRequest(m, req) then SendDone(m, false) else Failed(IdempotencyConflict)
  }

  // ---- what a unit of work writes

  function Writes(w: Work): map<Uuid, Message> {
    match w
    case NewMessage(_, m) => map[m.id := m]
    case Delivery(m, at) => map[m.id := Deliver(m, at)]
    case Reading(_, _, _, at, _, ms) => map id | id in ms :: MarkRead(ms[id], at)
  }

  function OwnConversation(w: Work): map<Uuid, Conversation> {
    if w.NewMessage? && w.own.Some? then map[w.own.value.id := w.own.value] else map[]
  }

  function Rows(w: Work): seq<Row> {
    match w
    case NewMessage(_, m) => Enqueue([m.recipient, m.sender], MessageNew(m))
    case Delivery(m, at) =>
      Enqueue([m.sender], MessageDelivered(m.id, m.conversation, m.clientId, at))
    case Reading(conv, reader, _, at, _, ms) =>
      Enqueue([conv.PeerOf(reader)], MessageRead(conv.id, reader, ms.Keys, at))
  }

  function Numbered(rows: seq<Row>, first: nat): (numbered: map<nat, Row>)
    ensures forall i | i in numbered :: first <= i < first + |rows| && numbered[i] == rows[i - first]
    ensures forall i | first <= i < first + |rows| :: i in numbered
  {
    if rows == [] then map[] else Numbered(rows[1..], first + 1)[first := rows[0]]
  }

  function Answer(w: Work): Response {
    match w
    case NewMessage(_, m) => SendDone(m, true)
    case Delivery(m, at) => AckDone(Deliver(m, at))
    case Reading(conv, _, _, at, _, ms) => ReadDone(conv.id, ms.Keys, Some(at))
  }

  function Install(db: Db, w: Work, first: nat): Db {
    Db(db.conversations + OwnConversation(w), db.messages + Writes(w),
       db.log + Numbered(Rows(w), first))
  }

  // ---- what uncommitted transactions hold

  function Held(pc: Pc): set<Uuid> {
    match pc
    case ReadLock(_, _, _, _, _, got) => got.Keys
    case Staged(w) => Writes(w).Keys
    case Flushed(w, _) => Writes(w).Keys
    case _ => {}
  }

  function HeldConversation(pc: Pc): Option<Conversation> {
    match pc
    case SendSelect(_, own) => own
    case SendInsert(_, own, _) => own
    case Staged(w) => if w.NewMessage? then w.own else None
    case Flushed(w, _) => if w.NewMessage? then w.own else None
    case _ => None
  }

  function HeldMessage(pc: Pc): Option<Message> {
    match pc
    case Staged(w) => if w.NewMessage? then Some(w.message) else None
    case Flushed(w, _) => if w.NewMessage? then Some(w.message) else None
    case _ => None
  }

  predicate SamePair(c: Conversation, d: Conversation) {
    c.userA == d.userA && c.userB == d.userB
  }

  predicate SameClientId(m: Message, sender: UserId, clientId: string) {
    m.sender == sender && m.clientId == clientId
  }

  /** Another transaction has inserted a conversation for this pair, or under this id. */
  predicate ConversationHeld(s: Store, p: nat, c: Conversation) {
    exists q | q in s.procs && q != p ::
      HeldConversation(s.procs[q].pc).Some?
      && (SamePair(HeldConversation(s.procs[q].pc).value, c) || HeldConversation(s.procs[q].pc).value.id == c.id)
  }

  predicate PairHeld(s: Store, p: nat, pair: (UserId, UserId)) {
    exists q | q in s.procs && q != p ::
      HeldConversation(s.procs[q].pc).Some?
      && HeldConversation(s.procs[q].pc).value.userA == pair.0
      && HeldConversation(s.procs[q].pc).value.userB == pair.1
  }

  predicate ClientIdHeld(s: Store, p: nat, sender: UserId, clientId: string) {
    exists q | q in s.procs && q != p ::
      HeldMessage(s.procs[q].pc).Some? && SameClientId(HeldMessage(s.procs[q].pc).value, sender, clientId)
  }

  predicate RowHeld(s: Store, p: nat, id: Uuid) {
    exists q | q in s.procs && q != p :: id in Held(s.procs[q].pc)
  }

  // ---- queries

  predicate PairTaken(db: Db, pair: (UserId, UserId)) {
    exists c | c in db.conversations :: (db.conversations[c].userA, db.conversations[c].userB) == pair
  }

  predicate ClientIdTaken(db: Db, sender: UserId, clientId: string) {
    exists m | m in db.messages :: SameClientId(db.messages[m], sender, clientId)
  }

  /** `found` is what `_by_client_msg_id` returns. */
  predicate LookupFinds(db: Db, sender: UserId, clientId: string, found: Option<Uuid>) {
    match found
    case Some(id) => id in db.messages && SameClientId(db.messages[id], sender, clientId)
    case None => !ClientIdTaken(db, sender, clientId)
  }

  /** The rows that `mark_read`'s UPDATE matches in its snapshot. */
  function Unread(db: Db, conversation: Uuid, user: UserId, upTo: Key): set<Uuid> {
    set id | id in db.messages
             && db.messages[id].conversation == conversation
             && db.messages[id].recipient == user
             && db.messages[id].status != Read
             && KeyAtMost(db.messages[id].Key(), upTo)
  }

  // ---- steps

  datatype Action =
    | Begin(p: nat, replica: nat, call: Call)
    | Lookup(p: nat, found: Option<Uuid>)
    | CheckAttachment(p: nat, stored: Option<Upload>)
    | InsertConversation(p: nat, id: Uuid, now: Timestamp)
    | SelectConversation(p: nat, id: Uuid)
    | InsertMessage(p: nat, id: Uuid, now: Timestamp)
    | LookupAgain(p: nat, found: Option<Uuid>)
    | UpdateSent(p: nat, now: Timestamp)
    | LockSent(p: nat)
    | GetMessage(p: nat)
    | GetConversation(p: nat)
    | GetAnchor(p: nat, now: Timestamp)
    | UpdateUnread(p: nat)
    | LockUnread(p: nat, id: Uuid)
    | EndUpdate(p: nat)
    | Flush(p: nat)
    | Commit(p: nat, acknowledged: bool)                   // the answer may be lost on its way back
    | Notify(p: nat)                                       // `on_commit` runs and the call returns
    | Abort(p: nat)                                        // any failure before the commit

  predicate Finished(pc: Pc) {
    pc.Committed? || pc.Done?
  }

  predicate Enabled(s: Store, a: Action) {
    if a.Begin? then a.p !in s.procs
    else
      a.p in s.procs &&
      var call, pc := s.procs[a.p].call, s.procs[a.p].pc;
      match a
      case Lookup(_, found) => pc.SendLookup? && call.Send? && LookupFinds(s.db, call.user, call.req.clientId, found)
      case CheckAttachment(_, _) => pc.SendAttachment? && call.Send? && call.req.attachment.Some?
      case InsertConversation(p, id, now) =>
        pc.SendConversation? && call.Send? && !PairHeld(s, p, SortedPair(call.user, call.req.recipient))
        && (PairTaken(s.db, SortedPair(call.user, call.req.recipient))
            || (id !in s.db.conversations
                && !ConversationHeld(s, p, FreshConversation(id, call.user, call.req.recipient, now))))
      case SelectConversation(_, id) =>
        pc.SendSelect? && call.Send? && SelectFinds(s.db, pc.own, SortedPair(call.user, call.req.recipient), id)
      case InsertMessage(p, id, _) =>
        pc.SendInsert? && call.Send? && !ClientIdHeld(s, p, call.user, call.req.clientId)
        && (ClientIdTaken(s.db, call.user, call.req.clientId)
            || (id !in s.db.messages && !RowHeld(s, p, id) && HasContent(call.req)))
      case LookupAgain(_, found) => pc.SendRetry? && call.Send? && LookupFinds(s.db, call.user, call.req.clientId, found)
      case UpdateSent(_, _) => pc.AckUpdate? && call.Ack?
      case LockSent(p) => pc.AckLock? && call.Ack? && call.message in s.db.messages && !RowHeld(s, p, call.message)
      case GetMessage(_) => pc.AckMiss? && call.Ack?
      case GetConversation(_) => pc.ReadConversation? && call.ReadUpTo?
      case GetAnchor(_, _) => pc.ReadAnchor? && call.ReadUpTo?
      case UpdateUnread(_) => pc.ReadUpdate? && call.ReadUpTo?
      case LockUnread(p, id) => pc.ReadLock? && id in pc.todo && id in s.db.messages && !RowHeld(s, p, id)
      case EndUpdate(_) => pc.ReadLock? && call.ReadUpTo? && pc.todo == {}
      case Flush(_) => pc.Staged?
      case Commit(_, _) => pc.Flushed?
      case Notify(_) => pc.Committed?
      case Abort(_) => !Finished(pc)
  }

  predicate HasContent(req: SendRequest) {
    req.body.Some? || req.attachment.Some?
  }

  function FreshConversation(id: Uuid, u: UserId, v: UserId, now: Timestamp): Conversation {
    Conversation(id, SortedPair(u, v).0, SortedPair(u, v).1, now)
  }

  predicate SelectFinds(db: Db, own: Option<Conversation>, pair: (UserId, UserId), id: Uuid) {
    || (own.Some? && own.value.id == id && (own.value.userA, own.value.userB) == pair)
    || (id in db.conversations && (db.conversations[id].userA, db.conversations[id].userB) == pair)
  }

  /** The part of a command that runs before its first statement. */
  function Enter(call: Call): Pc {
    match call
    case Send(sender, req) =>
      if req.recipient == sender then Done(Failed(InvalidRecipient))
      else if req.body.Some? && req.graphemes > MESSAGE_MAX_GRAPHEMES then Done(Failed(BodyTooLong))
      else SendLookup
    case Ack(_, _) => AckUpdate
    case ReadUpTo(_, _, _) => ReadConversation
  }

  /** Where a process goes by a step that touches nothing but its own program counter. */
  function Move(s: Store, a: Action): Pc
    requires Enabled(s, a) && !a.Begin? && !a.Flush? && !a.Commit?
  {
    var call, pc := s.procs[a.p].call, s.procs[a.p].pc;
    match a
    case Lookup(_, found) =>
      (match found
       case Some(id) => Done(Replay(s.db.messages[id], call.req))
       case None => if call.req.attachment.Some? then SendAttachment else SendConversation(None))
    case CheckAttachment(_, stored) =>
      (match CheckUpload(call.user, call.req.attachment.value, stored)
       case Ok(mime) => SendConversation(Some(mime))
       case Err(e) => Done(Failed(e)))
    case InsertConversation(_, id, now) =>
      if PairTaken(s.db, SortedPair(call.user, call.req.recipient)) then SendSelect(pc.mime, None)
      else SendSelect(pc.mime, Some(FreshConversation(id, call.user, call.req.recipient, now)))
    case SelectConversation(_, id) =>
      SendInsert(pc.mime, pc.own,
                 if pc.own.Some? && pc.own.value.id == id then pc.own.value else s.db.conversations[id])
    case InsertMessage(_, id, now) =>
      if ClientIdTaken(s.db, call.user, call.req.clientId) then SendRetry  // the rollback drops its own conversation
      else Staged(NewMessage(pc.own, NewRow(id, pc.conv, call.user, call.req, pc.mime, now)))
    case LookupAgain(_, found) =>
      (match found
       case Some(id) => Done(Replay(s.db.messages[id], call.req))
       case None => Done(Failed(ConcurrentSend)))
    case UpdateSent(_, now) =>
      if call.message !in s.db.messages then AckMiss(false)
      else if Acknowledges(s.db.messages[call.message], call.user) then AckLock(now)
      else AckMiss(true)
    case LockSent(_) =>
      if Acknowledges(s.db.messages[call.message], call.user)
      then Staged(Delivery(s.db.messages[call.message], pc.now))
      else AckMiss(true)
    case GetMessage(_) => Done(Explain(s.db, call.user, call.message))
    case GetConversation(_) =>
      if call.conversation in s.db.conversations && s.db.conversations[call.conversation].Has(call.user)
      then ReadAnchor(s.db.conversations[call.conversation])
      else Done(Failed(NotFound))
    case GetAnchor(_, now) =>
      if call.message in s.db.messages && s.db.messages[call.message].conversation == pc.conv.id
      then ReadUpdate(pc.conv, s.db.messages[call.message].Key(), now)
      else Done(Failed(NotFound))
    case UpdateUnread(_) =>
      var found := Unread(s.db, pc.conv.id, call.user, pc.upTo);
      ReadLock(pc.conv, pc.upTo, pc.now, found, found, map[])
    case LockUnread(_, id) =>
      var got := if s.db.messages[id].status != Read then pc.got[id := s.db.messages[id]] else pc.got;
      pc.(todo := pc.todo - {id}, got := got)
    case EndUpdate(_) =>
      if pc.got == map[] then Done(ReadDone(pc.conv.id, {}, None))
      else Staged(Reading(pc.conv, call.user, pc.upTo, pc.now, pc.visible, pc.got))
    case Notify(_) => Done(pc.response)
    case Abort(_) => Done(Failed(Unavailable))
  }

  predicate Acknowledges(m: Message, user: UserId) {
    m.recipient == user && m.status == Sent
  }

  /** What `mark_delivered` answers when its UPDATE changed no row. */
  function Explain(db: Db, user: UserId, id: Uuid): Response {
    if id !in db.messages || user !in {db.messages[id].sender, db.messages[id].recipient} then Failed(NotFound)
    else if db.messages[id].recipient != user then Failed(AccessDenied)
    else AckDone(db.messages[id])
  }

  function Goto(s: Store, p: nat, pc: Pc): Store
    requires p in s.procs
  {
    s.(procs := s.procs[p := s.procs[p].(pc := pc)])
  }

  function Apply(s: Store, a: Action): Store
    requires Enabled(s, a)
  {
    match a
    case Begin(p, replica, call) => s.(procs := s.procs[p := Proc(call, replica, Enter(call))])
    case Flush(p) =>
      var w := s.procs[p].pc.work;
      Goto(s, p, Flushed(w, s.nextRow)).(nextRow := s.nextRow + |Rows(w)|)
    case Commit(p, acknowledged) =>
      var pc := s.procs[p].pc;
      var after := if acknowledged then Committed(Answer(pc.work)) else Done(Failed(Unavailable));
      Goto(s, p, after).(db := Install(s.db, pc.work, pc.first))
    case _ => Goto(s, a.p, Move(s, a))
  }

  /** `s'` is reached from `s` by this schedule of steps. */
  ghost predicate Reaches(s: Store, actions: seq<Action>, s': Store)
    decreases |actions|
  {
    if actions == [] then s' == s
    else Enabled(s, actions[0]) && Reaches(Apply(s, actions[0]), actions[1..], s')
  }
}
