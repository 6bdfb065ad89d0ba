/** What each command of app/services/chat.py does when it has the database to itself: the answer and
    the tables it leaves, column by column. */
module ChatSpecs {
  import opened Basics
  import opened Clock
  import opened Uuids
  import opened Models
  import opened ChatStore
  import opened ChatInvariant
  import opened ChatCommits
  import opened ChatTheorems
  import Receipts

  // ---- send_message

  /** The sender has used the client id for this message. */
  predicate Used(m: Message, user: UserId, req: SendRequest) {
    m.sender == user && m.clientId == req.clientId
  }

  predicate AnyUsed(db: Db, user: UserId, req: SendRequest) {
    exists id | id in db.messages :: Used(db.messages[id], user, req)
  }

  /** A client id that has been used: the stored message again, or a conflict if anything differs. */
  ghost predicate Repeats(db: Db, db': Db, user: UserId, req: SendRequest, r: Response) {
    && db' == db
    && exists id | id in db.messages && Used(db.messages[id], user, req) ::
         var m := db.messages[id];
         r == if m.recipient == req.recipient && m.body == req.body && m.attachment == req.attachment
              then SendDone(m, false) else Failed(IdempotencyConflict)
  }

  /** Why an attachment is refused. The type that the storage knows goes with one that is not. */
  predicate Refuses(user: UserId, key: string, stored: Option<Upload>, e: Error) {
    match e
    case InvalidAttachment => !("u/" + user + "/" <= key)
    case AttachmentNotFound => "u/" + user + "/" <= key && stored.None?
    case PayloadTooLarge => "u/" + user + "/" <= key && stored.Some? && stored.value.size > 5_242_880
    case UnsupportedMediaType =>
      && "u/" + user + "/" <= key && stored.Some? && stored.value.size <= 5_242_880
      && stored.value.contentType !in {"image/jpeg", "image/png", "image/gif", "image/webp", "application/pdf"}
    case _ => false
  }

  predicate Accepts(user: UserId, attachment: Option<string>, stored: Option<Upload>, mime: Option<string>) {
    match attachment
    case None => mime == None
    case Some(key) =>
      && "u/" + user + "/" <= key && stored.Some? && stored.value.size <= 5_242_880
      && stored.value.contentType in {"image/jpeg", "image/png", "image/gif", "image/webp", "application/pdf"}
      && mime == Some(stored.value.contentType)
  }

  /** The conversation of the pair, which is new only if the pair had none. */
  predicate InConversation(db: Db, db': Db, conversation: Uuid, user: UserId, recipient: UserId) {
    && conversation in db'.conversations
    && {db'.conversations[conversation].userA, db'.conversations[conversation].userB} == {user, recipient}
    && (if conversation in db.conversations then db'.conversations == db.conversations
        else
          && db'.conversations == db.conversations[conversation := db'.conversations[conversation]]
          && forall c | c in db.conversations :: {db.conversations[c].userA, db.conversations[c].userB} != {user, recipient})
  }

  /** One message, and its two outbox rows under the next two numbers. */
  predicate Adds(db: Db, next: nat, db': Db, user: UserId, req: SendRequest, mime: Option<string>, now: Timestamp, out: Message) {
    && out == Message(out.id, out.conversation, user, req.recipient, req.clientId, req.body, req.attachment, mime,
                      Sent, now, None, None)
    && out.id !in db.messages && db'.messages == db.messages[out.id := out]
    && InConversation(db, db', out.conversation, user, req.recipient)
    && db'.log == db.log[next := Row("user:" + req.recipient, MessageNew(out))][next + 1 := Row("user:" + user, MessageNew(out))]
  }

  /** `send_message` from the lookup of the client id on, for an attachment that has been accepted. */
  ghost predicate Stores(db: Db, next: nat, db': Db, user: UserId, req: SendRequest, mime: Option<string>, now: Timestamp, r: Response) {
    if AnyUsed(db, user, req) then Repeats(db, db', user, req, r)
    else r.SendDone? && r.created && Adds(db, next, db', user, req, mime, now, r.out)
  }

  ghost predicate SendsAlone(db: Db, next: nat, db': Db, user: UserId, req: SendRequest, stored: Option<Upload>, now: Timestamp, r: Response) {
    if user == req.recipient then r == Failed(InvalidRecipient) && db' == db
    else if req.body.Some? && req.graphemes > 4000 then r == Failed(BodyTooLong) && db' == db
    else if AnyUsed(db, user, req) then Repeats(db, db', user, req, r)
    else if r.Failed? then req.attachment.Some? && Refuses(user, req.attachment.value, stored, r.error) && db' == db
    else
      && r.SendDone? && r.created && Accepts(user, req.attachment, stored, r.out.mime)
      && Adds(db, next, db', user, req, r.out.mime, now, r.out)
  }

  lemma UploadIsChecked(user: UserId, key: string, stored: Option<Upload>)
    ensures var c := CheckUpload(user, key, stored);
            && (c.Ok? ==> Accepts(user, Some(key), stored, Some(c.value)))
            && (c.Err? ==> Refuses(user, key, stored, c.error)
                           && c.error in {InvalidAttachment, AttachmentNotFound, PayloadTooLarge, UnsupportedMediaType})
  {
  }

  lemma ReplayRepeats(db: Db, user: UserId, req: SendRequest, id: Uuid)
    requires LookupFinds(db, user, req.clientId, Some(id))
    ensures id in db.messages && AnyUsed(db, user, req) && Repeats(db, db, user, req, Replay(db.messages[id], req))
  {
    assert Used(db.messages[id], user, req);
  }

  lemma PairIsAsGiven(db: Db, c: Uuid, user: UserId, recipient: UserId)
    requires ConversationsOk(db) && c in db.conversations && user != recipient
    requires {db.conversations[c].userA, db.conversations[c].userB} == {user, recipient}
    ensures (db.conversations[c].userA, db.conversations[c].userB) == SortedPair(user, recipient)
  {
    hide StringLess;
    assert ConversationOk(db, c);
    SortedPairIsUnordered(user, recipient);
    var pair := SortedPair(user, recipient);
    SortedSetsAgree(db.conversations[c], Conversation(c, pair.0, pair.1, db.conversations[c].createdAt));
  }

  lemma NewTarget(db: Db, conv: Conversation, user: UserId, recipient: UserId)
    requires ConversationsOk(db) && OwnOk(db, conv, user, recipient) && user != recipient
    ensures conv.id !in db.conversations && {conv.userA, conv.userB} == {user, recipient}
    ensures forall c | c in db.conversations :: {db.conversations[c].userA, db.conversations[c].userB} != {user, recipient}
  {
    hide ConversationsOk, SortedPair;
    SortedPairIsUnordered(user, recipient);
    forall c | c in db.conversations ensures {db.conversations[c].userA, db.conversations[c].userB} != {user, recipient} {
      if {db.conversations[c].userA, db.conversations[c].userB} == {user, recipient} {
        PairIsAsGiven(db, c, user, recipient);
      }
    }
  }

  lemma SendParts(db: Db, call: Call, w: Work)
    requires WorkOk(db, call, w) && w.NewMessage?
    ensures var m := w.message;
            && TargetOk(db, w.own, m.conversation, m.sender, m.recipient) && m.sender != m.recipient
            && call.Send? && m.sender == call.user && m.clientId == call.req.clientId
            && m.recipient == call.req.recipient && m.body == call.req.body && m.attachment == call.req.attachment
            && m.status == Sent && m.deliveredAt == None && m.readAt == None
            && m.id !in db.messages && !ClientIdTaken(db, m.sender, m.clientId)
  {
    hide TargetOk, ClientIdTaken, AttachmentOk;
  }

  lemma TargetIsConversation(db: Db, w: Work, first: nat)
    requires ConversationsOk(db) && w.NewMessage? && w.message.sender != w.message.recipient
    requires TargetOk(db, w.own, w.message.conversation, w.message.sender, w.message.recipient)
    ensures InConversation(db, Install(db, w, first), w.message.conversation, w.message.sender, w.message.recipient)
  {
    hide Rows, Numbered, SortedPair, ConversationsOk, OwnOk, Writes;
    SortedPairIsUnordered(w.message.sender, w.message.recipient);
    if w.own.Some? {
      NewTarget(db, w.own.value, w.message.sender, w.message.recipient);
    }
  }

  lemma TwoNumbered(rows: seq<Row>, first: nat, log: map<nat, Row>)
    requires |rows| == 2
    ensures log + Numbered(rows, first) == log[first := rows[0]][first + 1 := rows[1]]
  {
  }

  lemma OneNumbered(rows: seq<Row>, first: nat, log: map<nat, Row>)
    requires |rows| == 1
    ensures log + Numbered(rows, first) == log[first := rows[0]]
  {
  }

  lemma SendInstalls(db: Db, call: Call, w: Work, first: nat)
    requires DbOk(db) && WorkOk(db, call, w) && w.NewMessage?
    ensures call.Send? && !AnyUsed(db, call.user, call.req)
    ensures Adds(db, first, Install(db, w, first), call.user, call.req, w.message.mime, w.message.createdAt, w.message)
  {
    hide ConversationsOk, MessagesOk, LogOk, WorkOk, TargetOk, Rows, Numbered, InConversation, Writes, OwnConversation;
    SendParts(db, call, w);
    Receipts.SendCommitsAtomically(db, call, w, first);
    TargetIsConversation(db, w, first);
    NewMessageRows(w);
    TwoNumbered(Rows(w), first, db.log);
    forall id | id in db.messages ensures !Used(db.messages[id], call.user, call.req) {
      assert !SameClientId(db.messages[id], call.user, call.req.clientId);
    }
  }

  // ---- mark_delivered

  predicate AcksAlone(db: Db, next: nat, db': Db, user: UserId, message: Uuid, now: Timestamp, r: Response) {
    if message !in db.messages || (user != db.messages[message].sender && user != db.messages[message].recipient) then
      r == Failed(NotFound) && db' == db
    else
      var m := db.messages[message];
      if user == m.sender then r == Failed(AccessDenied) && db' == db
      else if m.status != Sent then r == AckDone(m) && db' == db
      else
        var out := m.(status := Delivered, deliveredAt := Some(now));
        && r == AckDone(out)
        && db'.conversations == db.conversations && db'.messages == db.messages[message := out]
        && db'.log == db.log[next := Row("user:" + m.sender, MessageDelivered(message, m.conversation, m.clientId, now))]
  }

  lemma AckInstalls(db: Db, call: Call, w: Work, first: nat)
    requires MessagesOk(db) && WorkOk(db, call, w) && w.Delivery?
    ensures call.Ack? && AcksAlone(db, first, Install(db, w, first), call.user, call.message, w.at, Answer(w))
  {
    hide Rows, Numbered, MessagesOk, AttachmentOk;
    RowsArePlain(db, call, w);
    OneNumbered(Rows(w), first, db.log);
    assert MessageOk(db, call.message) by { MessageIsOk(db, call.message); }
  }

  lemma MessageIsOk(db: Db, id: Uuid)
    requires MessagesOk(db) && id in db.messages
    ensures MessageOk(db, id)
  {
  }

  lemma MissChangesNothing(db: Db, next: nat, user: UserId, message: Uuid, now: Timestamp)
    requires MessagesOk(db)
    requires message in db.messages ==> !Acknowledges(db.messages[message], user)
    ensures AcksAlone(db, next, db, user, message, now, Explain(db, user, message))
  {
    if message in db.messages {
      MessageIsOk(db, message);
    }
  }

  // ---- mark_read

  /** Unread messages to `user` in the conversation, no later than the anchor. */
  function Due(db: Db, user: UserId, conversation: Uuid, anchor: Uuid): set<Uuid>
    requires anchor in db.messages
  {
    set id | id in db.messages && db.messages[id].conversation == conversation && db.messages[id].recipient == user
             && db.messages[id].status != Read && KeyAtMost(db.messages[id].Key(), db.messages[anchor].Key())
  }

  predicate ReadsAlone(db: Db, next: nat, db': Db, user: UserId, conversation: Uuid, message: Uuid, now: Timestamp, r: Response) {
    if conversation !in db.conversations
       || (user != db.conversations[conversation].userA && user != db.conversations[conversation].userB)
       || message !in db.messages || db.messages[message].conversation != conversation
    then r == Failed(NotFound) && db' == db
    else
      var c, ids := db.conversations[conversation], Due(db, user, conversation, message);
      if ids == {} then r == ReadDone(conversation, {}, None) && db' == db
      else
        && r == ReadDone(conversation, ids, Some(now))
        && db'.conversations == db.conversations && db'.messages.Keys == db.messages.Keys
        && (forall id | id in db.messages ::
              var m := db.messages[id];
              db'.messages[id] ==
                if id !in ids then m
                else m.(status := Read, readAt := Some(now), deliveredAt := if m.deliveredAt == None then Some(now) else m.deliveredAt))
        && db'.log == db.log[next := Row("user:" + (if user == c.userA then c.userB else c.userA), MessageRead(conversation, user, ids, now))]
  }

  /** The columns that a read receipt sets. */
  lemma RowsAreRead(db: Db, call: Call, w: Work, id: Uuid)
    requires WorkOk(db, call, w) && w.Reading? && id in db.messages
    ensures var m := db.messages[id];
            (db.messages + Writes(w))[id] ==
              if id !in w.messages then m
              else m.(status := Read, readAt := Some(w.at), deliveredAt := if m.deliveredAt == None then Some(w.at) else m.deliveredAt)
  {
    hide WorkOk;
    if id in w.messages {
      Receipts.ReadingTakes(db, call, w, id);
    }
  }

  lemma DueIsUnread(db: Db, call: Call, w: Work)
    requires WorkOk(db, call, w) && w.Reading?
    ensures call.ReadUpTo? && call.message in db.messages
    ensures Due(db, call.user, call.conversation, call.message) == Unread(db, w.conv.id, w.reader, w.upTo)
  {
    hide KeyAtMost, Matched, IsRead, Readable, Listed;
  }

  lemma WrittenAreThere(db: Db, call: Call, w: Work, first: nat)
    requires WorkOk(db, call, w) && w.Reading?
    ensures Install(db, w, first).messages == db.messages + Writes(w) && (db.messages + Writes(w)).Keys == db.messages.Keys
    ensures Install(db, w, first).conversations == db.conversations
  {
    hide WorkOk, Rows, Numbered;
    forall id | id in w.messages ensures id in db.messages {
      Receipts.ReadingTakes(db, call, w, id);
    }
  }

  lemma ReadInstalls(db: Db, call: Call, w: Work, first: nat)
    requires MessagesOk(db) && WorkOk(db, call, w) && w.Reading?
    requires w.messages.Keys == Unread(db, w.conv.id, w.reader, w.upTo)
    ensures call.ReadUpTo? && ReadsAlone(db, first, Install(db, w, first), call.user, call.conversation, call.message, w.at, Answer(w))
  {
    hide Numbered, MessagesOk, KeyAtMost, Matched, IsRead, Readable, Due, Writes, Unread, Distinct;
    DueIsUnread(db, call, w);
    WrittenAreThere(db, call, w, first);
    forall id | id in db.messages { RowsAreRead(db, call, w, id); }
    RowsArePlain(db, call, w);
    hide Rows;
    OneNumbered(Rows(w), first, db.log);
  }

  // ---- once more

  lemma SentIsUsed(db: Db, next: nat, mid: Db, user: UserId, req: SendRequest, stored: Option<Upload>, now: Timestamp, r: Response)
    requires MessagesOk(mid) && SendsAlone(db, next, mid, user, req, stored, now, r) && r.SendDone?
    ensures user != req.recipient && !(req.body.Some? && req.graphemes > MESSAGE_MAX_GRAPHEMES)
    ensures r.out.id in mid.messages && mid.messages[r.out.id] == r.out && Used(r.out, user, req)
    ensures r.out.recipient == req.recipient && r.out.body == req.body && r.out.attachment == req.attachment
  {
    hide InConversation, Accepts, MessagesOk;
    MessagesAreOwn(mid);
  }

  /** A send that succeeded and is retried answers with the same message and changes nothing, whatever has
      become of the upload and the clock. */
  lemma SendAgain(db: Db, next: nat, mid: Db, next': nat, db': Db, user: UserId, req: SendRequest,
                  stored: Option<Upload>, now: Timestamp, r: Response, stored': Option<Upload>, now': Timestamp, r': Response)
    requires MessagesOk(mid) && SendsAlone(db, next, mid, user, req, stored, now, r) && r.SendDone?
    requires SendsAlone(mid, next', db', user, req, stored', now', r')
    ensures r' == SendDone(r.out, false) && db' == mid
  {
    hide Adds, Accepts, MessageOk;
    SentIsUsed(db, next, mid, user, req, stored, now, r);
    assert AnyUsed(mid, user, req);
    var id :| id in mid.messages && Used(mid.messages[id], user, req)
              && r' == if mid.messages[id].recipient == req.recipient && mid.messages[id].body == req.body && mid.messages[id].attachment == req.attachment
                       then SendDone(mid.messages[id], false) else Failed(IdempotencyConflict);
    assert ClientIdIsUnique(mid, id, r.out.id);
  }

  lemma MessagesAreOwn(db: Db)
    requires MessagesOk(db)
    ensures forall id | id in db.messages :: db.messages[id].id == id
  {
    hide AttachmentOk, Between, Stamped;
    forall id | id in db.messages ensures db.messages[id].id == id {
      assert MessageOk(db, id);
    }
  }

  /** An acknowledgement that is repeated answers the same and changes nothing. */
  lemma AckAgain(db: Db, next: nat, mid: Db, next': nat, db': Db, user: UserId, message: Uuid,
                 now: Timestamp, r: Response, now': Timestamp, r': Response)
    requires AcksAlone(db, next, mid, user, message, now, r)
    requires AcksAlone(mid, next', db', user, message, now', r')
    ensures r' == r && db' == mid
  {
  }

  lemma ReadsMove(db: Db, next: nat, mid: Db, user: UserId, conversation: Uuid, message: Uuid, now: Timestamp, r: Response, id: Uuid)
    requires ReadsAlone(db, next, mid, user, conversation, message, now, r) && r.ReadDone? && id in mid.messages
    ensures id in db.messages && message in db.messages && mid.messages[id].Key() == db.messages[id].Key()
    ensures mid.messages[id].conversation == db.messages[id].conversation && mid.messages[id].recipient == db.messages[id].recipient
    ensures if id in Due(db, user, conversation, message) then mid.messages[id].status == Read
            else mid.messages[id].status == db.messages[id].status
  {
    hide Due;
  }

  /** A read receipt that is repeated, or follows one with a later anchor, finds nothing to do. */
  lemma ReadAgain(db: Db, next: nat, mid: Db, next': nat, db': Db, user: UserId, conversation: Uuid, message: Uuid, earlier: Uuid,
                  now: Timestamp, r: Response, now': Timestamp, r': Response)
    requires ReadsAlone(db, next, mid, user, conversation, message, now, r) && r.ReadDone?
    requires earlier in db.messages && db.messages[earlier].conversation == conversation
    requires KeyAtMost(db.messages[earlier].Key(), db.messages[message].Key())
    requires ReadsAlone(mid, next', db', user, conversation, earlier, now', r')
    ensures r' == ReadDone(conversation, {}, None) && db' == mid
  {
    hide KeyLess;
    assert conversation in mid.conversations && mid.conversations == db.conversations && earlier in mid.messages;
    ReadsMove(db, next, mid, user, conversation, message, now, r, earlier);
    forall id | id in mid.messages ensures id !in Due(mid, user, conversation, earlier) {
      ReadsMove(db, next, mid, user, conversation, message, now, r, id);
      NotLater(db.messages[id].Key(), db.messages[earlier].Key(), db.messages[message].Key());
    }
    assert Due(mid, user, conversation, earlier) == {};
  }

  lemma NotLater(a: Key, b: Key, c: Key)
    ensures KeyAtMost(a, b) && KeyAtMost(b, c) ==> KeyAtMost(a, c)
  {
    hide Ordinal;
  }
}
