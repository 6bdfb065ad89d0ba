/** What holds of the chat store in every state that any interleaving of requests can reach. */
module ChatTheorems {
  import opened Basics
  import opened Clock
  import opened Uuids
  import opened Models
  import opened ChatStore
  import opened ChatInvariant
  import opened ChatCommits

  lemma ReachableOk(actions: seq<Action>, s: Store)
    requires Reaches(Init(), actions, s)
    ensures Inv(s)
  {
    InitOk();
    RunOk(Init(), actions, s);
  }

  // ---- announcements

  /** `stage` is the last thing that the rows in `log` tell `user` about message `id`. */
  ghost predicate LastAnnounced(log: map<nat, Row>, id: Uuid, user: UserId, stage: Status) {
    && HasRow(log, id, stage, user)
    && forall i | i in log && log[i].topic == UserTopic(user) && StageOf(log[i].payload, id).Some? ::
         Rank(StageOf(log[i].payload, id).value) <= Rank(stage)
  }

  /** The database and the committed announcements agree: what the sender was last told about a
      message is its stored status, and what is announced is committed. */
  lemma FaithfulAnnouncement(actions: seq<Action>, s: Store, id: Uuid)
    requires Reaches(Init(), actions, s) && id in s.db.messages
    ensures LastAnnounced(s.db.log, id, s.db.messages[id].sender, s.db.messages[id].status)
    ensures HasRow(s.db.log, id, Sent, s.db.messages[id].recipient)
    ensures forall i | i in s.db.log :: Justified(s.db, s.db.log[i])
  {
    ReachableOk(actions, s);
    assert Announced(s.db, id);
    var log, m := s.db.log, s.db.messages[id];
    forall i | i in log && log[i].topic == UserTopic(m.sender) && StageOf(log[i].payload, id).Some?
      ensures Rank(StageOf(log[i].payload, id).value) <= Rank(m.status)
    {
      StageBound(s.db, log[i], id);
    }
  }

  /** Rows about a message are numbered in the order sent, delivered, read, and each user is told
      each stage at most once. */
  lemma CausalOrder(actions: seq<Action>, s: Store, i: nat, j: nat, id: Uuid)
    requires Reaches(Init(), actions, s) && i in s.db.log && j in s.db.log
    requires StageOf(s.db.log[i].payload, id).Some? && StageOf(s.db.log[j].payload, id).Some?
    ensures Rank(StageOf(s.db.log[i].payload, id).value) < Rank(StageOf(s.db.log[j].payload, id).value) ==> i < j
    ensures StageOf(s.db.log[i].payload, id) == StageOf(s.db.log[j].payload, id) ==>
              (s.db.log[i].topic == s.db.log[j].topic ==> i == j)
  {
    ReachableOk(actions, s);
    assert InOrder(s.db.log, i, j, id);
  }

  lemma NewRowIsOneOf(db: Db, id: Uuid, r: nat, t: nat, i: nat)
    requires i in db.log && r in db.log && t in db.log
    requires id in db.messages && Justified(db, db.log[i]) && StageOf(db.log[i].payload, id) == Some(Sent)
    requires Announces(db.log[r], id, Sent, db.messages[id].recipient)
    requires Announces(db.log[t], id, Sent, db.messages[id].sender)
    requires InOrder(db.log, i, r, id) && InOrder(db.log, i, t, id)
    ensures i == r || i == t
  {
    hide UserTopic;
  }

  lemma TwoNewRows(db: Db, id: Uuid) returns (toRecipient: nat, toSender: nat)
    requires LogOk(db) && MessagesOk(db) && id in db.messages
    ensures toRecipient != toSender && toRecipient in db.log && toSender in db.log
    ensures db.log[toRecipient].topic == UserTopic(db.messages[id].recipient)
    ensures db.log[toSender].topic == UserTopic(db.messages[id].sender)
    ensures forall i | i in db.log :: StageOf(db.log[i].payload, id) == Some(Sent) <==> i == toRecipient || i == toSender
  {
    hide Justified, InOrder, StageOf;
    var m := db.messages[id];
    assert Announced(db, id) && MessageOk(db, id);
    toRecipient :| toRecipient in db.log && Announces(db.log[toRecipient], id, Sent, m.recipient);
    toSender :| toSender in db.log && Announces(db.log[toSender], id, Sent, m.sender);
    if toRecipient == toSender {
      TopicIsInjective(m.recipient, m.sender);
    }
    forall i | i in db.log && StageOf(db.log[i].payload, id) == Some(Sent) ensures i == toRecipient || i == toSender {
      assert InOrder(db.log, i, toRecipient, id) && InOrder(db.log, i, toSender, id);
      NewRowIsOneOf(db, id, toRecipient, toSender, i);
    }
  }

  /** A committed message has exactly two `message.new` rows, one for each participant. */
  lemma ExactlyTwoNewRows(actions: seq<Action>, s: Store, id: Uuid) returns (toRecipient: nat, toSender: nat)
    requires Reaches(Init(), actions, s) && id in s.db.messages
    ensures toRecipient != toSender && toRecipient in s.db.log && toSender in s.db.log
    ensures s.db.log[toRecipient].topic == UserTopic(s.db.messages[id].recipient)
    ensures s.db.log[toSender].topic == UserTopic(s.db.messages[id].sender)
    ensures forall i | i in s.db.log :: StageOf(s.db.log[i].payload, id) == Some(Sent) <==> i == toRecipient || i == toSender
  {
    hide *;
    ReachableOk(actions, s);
    InvParts(s);
    toRecipient, toSender := TwoNewRows(s.db, id);
  }

  // ---- sends

  predicate Answered(s: Store, p: nat, out: Message, created: bool)
    requires p in s.procs
  {
    Finished(s.procs[p].pc) && s.procs[p].pc.response == SendDone(out, created)
  }

  lemma AnsweredSend(s: Store, p: nat, out: Message, created: bool)
    requires ProcsOk(s) && p in s.procs && Answered(s, p, out, created)
    ensures s.procs[p].call.Send? && ResponseOk(s.db, s.procs[p].call, SendDone(out, created))
    ensures CreatedId(s.procs[p].pc) == if created then Some(out.id) else None
  {
    hide Compatible;
    assert PcOk(s.db, s.nextRow, s.procs[p].call, s.procs[p].pc);
  }

  lemma CreatedBySame(s: Store, p: nat, q: nat)
    requires ProcsOk(s) && p in s.procs && q in s.procs
    requires CreatedId(s.procs[p].pc).Some? && CreatedId(s.procs[p].pc) == CreatedId(s.procs[q].pc)
    ensures p == q
  {
    hide PcOk, CreatedId, Held, HeldConversation, HeldMessage, Rows;
    assert p != q ==> Compatible(s.procs[p].pc, s.procs[q].pc);
  }

  lemma AnsweredAlike(db: Db, p: Call, q: Call, a: Message, b: Message, c: bool, d: bool)
    requires MessagesOk(db) && ResponseOk(db, p, SendDone(a, c)) && ResponseOk(db, q, SendDone(b, d))
    requires p.Send? && q.Send? && p.user == q.user && p.req.clientId == q.req.clientId
    ensures a.id == b.id && a.id in db.messages
    ensures SameMessage(db.messages[a.id], a) && SameMessage(a, b)
    ensures a.recipient == p.req.recipient == q.req.recipient && a.body == p.req.body == q.req.body
    ensures a.attachment == p.req.attachment == q.req.attachment
  {
    hide MessageOk;
    assert ClientIdIsUnique(db, a.id, b.id);
  }

  /** Concurrent sends are one atomic put-if-absent on (sender, client_msg_id): whatever retries
      run together, all that succeed name the same durable message, they all asked for that
      message, and at most one of them is told that it created it. */
  lemma SendIsPutIfAbsent(actions: seq<Action>, s: Store, p: nat, q: nat, a: Message, b: Message, c: bool, d: bool)
    requires Reaches(Init(), actions, s) && p in s.procs && q in s.procs
    requires Answered(s, p, a, c) && Answered(s, q, b, d)
    requires s.procs[p].call.Send? && s.procs[q].call.Send?
    requires s.procs[p].call.user == s.procs[q].call.user
    requires s.procs[p].call.req.clientId == s.procs[q].call.req.clientId
    ensures a.id == b.id && a.id in s.db.messages
    ensures SameMessage(s.db.messages[a.id], a) && SameMessage(a, b)
    ensures var d, e := s.procs[p].call.req, s.procs[q].call.req;
            && a.recipient == d.recipient == e.recipient && a.body == d.body == e.body && a.attachment == d.attachment == e.attachment
    ensures c && d ==> p == q
  {
    hide *;
    ReachableOk(actions, s);
    InvParts(s);
    AnsweredSend(s, p, a, c);
    AnsweredSend(s, q, b, d);
    AnsweredAlike(s.db, s.procs[p].call, s.procs[q].call, a, b, c, d);
    if c && d {
      CreatedBySame(s, p, q);
    }
  }

  // ---- answers

  predicate Ended(s: Store, p: nat, r: Response) {
    p in s.procs && Finished(s.procs[p].pc) && s.procs[p].pc.response == r
  }

  lemma EndedOk(actions: seq<Action>, s: Store, p: nat, r: Response)
    requires Reaches(Init(), actions, s) && Ended(s, p, r)
    ensures Inv(s) && ResponseOk(s.db, s.procs[p].call, r)
  {
    hide Reaches, DbOk, Compatible, ResponseOk;
    ReachableOk(actions, s);
    assert PcOk(s.db, s.nextRow, s.procs[p].call, s.procs[p].pc);
  }

  /** A client id is refused as used only if the sender's message under it differs from the request in its
      recipient, its body or its attachment. */
  lemma ConflictMeansDifference(actions: seq<Action>, s: Store, p: nat) returns (id: Uuid)
    requires Reaches(Init(), actions, s) && Ended(s, p, Failed(IdempotencyConflict))
    ensures s.procs[p].call.Send? && id in s.db.messages
    ensures var call, m := s.procs[p].call, s.db.messages[id];
            && m.sender == call.user && m.clientId == call.req.clientId
            && (m.recipient != call.req.recipient || m.body != call.req.body || m.attachment != call.req.attachment)
  {
    hide Inv, Reaches;
    EndedOk(actions, s, p, Failed(IdempotencyConflict));
    var call := s.procs[p].call;
    id :| id in s.db.messages && s.db.messages[id].sender == call.user && s.db.messages[id].clientId == call.req.clientId
          && (s.db.messages[id].recipient != call.req.recipient || s.db.messages[id].body != call.req.body
              || s.db.messages[id].attachment != call.req.attachment);
  }

  /** Only a participant learns that a message exists: an acknowledgement is accepted from the recipient and
      refused as forbidden to the sender, and nobody else is given either answer. */
  lemma AckAnswersParticipants(actions: seq<Action>, s: Store, p: nat, r: Response)
    requires Reaches(Init(), actions, s) && Ended(s, p, r) && s.procs[p].call.Ack?
    ensures var call := s.procs[p].call;
            && (r.AckDone? ==> r.out.id == call.message && call.message in s.db.messages && s.db.messages[call.message].recipient == call.user)
            && (r == Failed(AccessDenied) ==> call.message in s.db.messages && s.db.messages[call.message].sender == call.user)
            && (r.AckDone? || r in {Failed(NotFound), Failed(AccessDenied), Failed(Unavailable)})
  {
    hide Inv, Reaches;
    EndedOk(actions, s, p, r);
  }

  /** A read receipt names messages sent to its caller up to the anchor, and the time it answers is the
      `read_at` of each. */
  lemma ReadAnswersStoredTime(actions: seq<Action>, s: Store, p: nat, conversation: Uuid, ids: set<Uuid>, at: Option<Timestamp>)
    requires Reaches(Init(), actions, s) && Ended(s, p, ReadDone(conversation, ids, at))
    ensures s.procs[p].call.ReadUpTo? && conversation == s.procs[p].call.conversation && (at.Some? <==> ids != {})
    ensures var call := s.procs[p].call;
            forall id | id in ids ::
              && id in s.db.messages && call.message in s.db.messages
              && s.db.messages[id].status == Read && s.db.messages[id].readAt == at
              && s.db.messages[id].recipient == call.user && s.db.messages[id].conversation == conversation
              && KeyAtMost(s.db.messages[id].Key(), s.db.messages[call.message].Key())
  {
    hide Inv, Reaches, KeyAtMost;
    EndedOk(actions, s, p, ReadDone(conversation, ids, at));
    forall id | id in ids ensures ReadBy(s.db, s.procs[p].call, at, id) {
    }
  }

  /** Every stored attachment was issued to the sender of its message and has an allowed type; a message
      without one has no type. */
  lemma AttachmentsAreIssued(actions: seq<Action>, s: Store, id: Uuid)
    requires Reaches(Init(), actions, s) && id in s.db.messages
    ensures var m := s.db.messages[id];
            && (m.mime.Some? <==> m.attachment.Some?)
            && (m.attachment.Some? ==>
                  ("u/" + m.sender + "/" <= m.attachment.value
                   && m.mime.value in {"image/jpeg", "image/png", "image/gif", "image/webp", "application/pdf"}))
  {
    hide LogOk, ConversationsOk, ProcsOk, Reaches, Between, Stamped;
    ReachableOk(actions, s);
    assert MessageOk(s.db, id);
  }

  /** A retry never sees the insert conflict without the row that caused it, so the answer
      "Concurrent send, retry" is never given. */
  lemma ConcurrentSendIsUnreachable(actions: seq<Action>, s: Store, p: nat)
    requires Reaches(Init(), actions, s) && p in s.procs && Finished(s.procs[p].pc)
    ensures s.procs[p].pc.response != Failed(ConcurrentSend)
  {
    ReachableOk(actions, s);
    assert PcOk(s.db, s.nextRow, s.procs[p].call, s.procs[p].pc);
  }

  /** The SELECT after `INSERT ... ON CONFLICT DO NOTHING` finds exactly one conversation, as
      `.one()` demands. */
  lemma SelectFindsOne(actions: seq<Action>, s: Store, p: nat) returns (id: Uuid)
    requires Reaches(Init(), actions, s) && p in s.procs && s.procs[p].pc.SendSelect?
    ensures s.procs[p].call.Send?
    ensures var call := s.procs[p].call;
            forall other :: SelectFinds(s.db, s.procs[p].pc.own, SortedPair(call.user, call.req.recipient), other) <==> other == id
  {
    hide LogOk, MessagesOk, Compatible, SortedPair;
    ReachableOk(actions, s);
    var call, pc := s.procs[p].call, s.procs[p].pc;
    assert PcOk(s.db, s.nextRow, call, pc);
    var pair := SortedPair(call.user, call.req.recipient);
    if pc.own.Some? {
      id := pc.own.value.id;
      assert Between(pc.own.value, call.user, call.req.recipient) && !PairTaken(s.db, pair);
    } else {
      id :| id in s.db.conversations && (s.db.conversations[id].userA, s.db.conversations[id].userB) == pair;
      forall other | other in s.db.conversations && (s.db.conversations[other].userA, s.db.conversations[other].userB) == pair
        ensures other == id
      {
        assert PairIsUnique(s.db, other, id);
      }
    }
  }

  // ---- tables

  ghost predicate Inhabited(db: Db, c: Uuid) {
    exists m :: m in db.messages && db.messages[m].conversation == c
  }

  predicate SameUsers(c: Conversation, d: Conversation) {
    {c.userA, c.userB} == {d.userA, d.userB}
  }

  /** A message's participants are its conversation's pair, and the peer of its reader is its
      sender. */
  predicate Participates(db: Db, m: Message) {
    && m.sender != m.recipient && m.conversation in db.conversations
    && var c := db.conversations[m.conversation];
    {c.userA, c.userB} == {m.sender, m.recipient} && c.PeerOf(m.recipient) == m.sender
  }

  /** Conversations are never empty and never doubled, whichever way round the pair is given,
      and a message's participants are exactly its conversation's pair. */
  lemma RelationalIntegrity(actions: seq<Action>, s: Store)
    requires Reaches(Init(), actions, s)
    ensures forall c | c in s.db.conversations :: Inhabited(s.db, c)
    ensures forall c, d | c in s.db.conversations && d in s.db.conversations
              && SameUsers(s.db.conversations[c], s.db.conversations[d]) :: c == d
    ensures forall id | id in s.db.messages :: Participates(s.db, s.db.messages[id])
  {
    hide LogOk, ProcsOk;
    ReachableOk(actions, s);
    forall c | c in s.db.conversations ensures Inhabited(s.db, c) {
      assert ConversationOk(s.db, c);
    }
    forall c, d | c in s.db.conversations && d in s.db.conversations && SameUsers(s.db.conversations[c], s.db.conversations[d])
      ensures c == d
    {
      assert ConversationOk(s.db, c) && ConversationOk(s.db, d) && PairIsUnique(s.db, c, d);
      SortedSetsAgree(s.db.conversations[c], s.db.conversations[d]);
    }
    forall id | id in s.db.messages ensures Participates(s.db, s.db.messages[id]) {
      assert MessageOk(s.db, id);
    }
  }

  lemma SortedSetsAgree(c: Conversation, d: Conversation)
    requires StringLess(c.userA, c.userB) && StringLess(d.userA, d.userB)
    requires SameUsers(c, d)
    ensures SamePair(c, d)
  {
    StringsAreTotallyOrdered(c.userA, c.userB);
    assert c.userA in {d.userA, d.userB} && c.userB in {d.userA, d.userB};
    assert d.userA in {c.userA, c.userB} && d.userB in {c.userA, c.userB};
  }

  /** Between any two moments of a run nothing is deleted, no status goes down, and
      `delivered_at` and `read_at` are written at most once; they are set exactly when the
      status says so. */
  lemma ReceiptsAreMonotone(before: seq<Action>, s: Store, after: seq<Action>, s': Store, id: Uuid)
    requires Reaches(Init(), before, s) && Reaches(s, after, s') && id in s.db.messages
    ensures id in s'.db.messages && Succeeds(s.db.messages[id], s'.db.messages[id])
    ensures Stamped(s'.db.messages[id])
  {
    ReachableOk(before, s);
    RunOk(s, after, s');
    assert KeepsMessage(s.db, s'.db, id) && MessageOk(s'.db, id);
  }
}
