/** An acknowledgement that changed no row is said to be "already delivered or read": a run in which it
    is not, and exactly when it is. */
module Anomalies {
  import opened Basics
  import opened Clock
  import opened Uuids
  import opened Models
  import opened ChatStore
  import opened ChatInvariant
  import opened ChatCommits
  import opened ChatRuns
  import opened ChatSteps
  import opened ChatTheorems

  const NOON: Timestamp := DateTime(2026, 1, 1, 12, 0, 0, 0)

  const ALICE := "a"
  const BOB := "b"

  const GREETING := SendRequest(BOB, "1", Some("hi"), None, 2)
  const HELLO := NewRow(7, FreshConversation(5, ALICE, BOB, NOON), ALICE, GREETING, None, NOON)

  // ---- "already delivered or read: idempotent no-op"

  const CHAT := FreshConversation(5, ALICE, BOB, NOON)

  /** Alice's message waits for its commit, and nothing else has happened. */
  predicate Waiting(s: Store, first: nat) {
    s.db == Db(map[], map[], map[]) && s.procs.Keys == {0}
    && Here(s, 0, Send(ALICE, GREETING), 0, Flushed(NewMessage(Some(CHAT), HELLO), first))
  }

  lemma NobodyElse(s: Store, p: nat, user: UserId, req: SendRequest, id: Uuid, conv: Conversation)
    requires s.procs == map[]
    ensures Clear(s, p, user, req, id, conv)
  {
  }

  lemma NothingTaken(db: Db)
    requires db == Db(map[], map[], map[])
    ensures !ClientIdTaken(db, ALICE, GREETING.clientId) && !PairTaken(db, SortedPair(ALICE, BOB))
  {
  }

  lemma WaitingIsReachable() returns (actions: seq<Action>, s: Store, first: nat)
    ensures Reaches(Init(), actions, s) && Waiting(s, first)
  {
    hide Reaches, Clear, ClientIdTaken, PairTaken, SortedPair;
    s := Init();
    Stop(s);
    NobodyElse(s, 0, ALICE, GREETING, 7, Target(s.db, ALICE, GREETING, 5, NOON));
    NothingTaken(s.db);
    actions, s, first := SendUntilCommit(s, [], s, 0, ALICE, GREETING, 5, 7, NOON);
  }

  /** Bob acknowledges a message whose commit falls between the two statements of
      `mark_delivered`: he is answered with the message, it stays merely sent, and Alice is told
      nothing. */
  lemma AckCanBeLost() returns (actions: seq<Action>, s: Store)
    ensures Reaches(Init(), actions, s)
    ensures Here(s, 1, Ack(BOB, 7), 0, Done(AckDone(HELLO)))
    ensures 7 in s.db.messages && s.db.messages[7].status == Sent
    ensures !HasRow(s.db.log, 7, Delivered, ALICE)
  {
    hide Reaches, Enabled, Apply, Install, Rows, HasRow;
    var first: nat;
    var call, w := Send(ALICE, GREETING), NewMessage(Some(CHAT), HELLO);
    actions, s, first := WaitingIsReachable();
    StepBegin(s, 1, Ack(BOB, 7), 0);
    actions, s := Advance(Init(), actions, s, Begin(1, 0, Ack(BOB, 7)));
    StepUpdateSent(s, 1, BOB, 7, 0, NOON);
    actions, s := Advance(Init(), actions, s, UpdateSent(1, NOON));
    StepCommit(s, 0, call, 0, w, first, true);
    OnlyHello(first);
    actions, s := Advance(Init(), actions, s, Commit(0, true));
    StepGetMessage(s, 1, BOB, 7, 0, false);
    actions, s := Advance(Init(), actions, s, GetMessage(1));
  }

  lemma OnlyHello(first: nat)
    ensures var db := Install(Db(map[], map[], map[]), NewMessage(Some(CHAT), HELLO), first);
            db.messages == map[7 := HELLO] && !HasRow(db.log, 7, Delivered, ALICE)
  {
    hide Numbered;
    var w := NewMessage(Some(CHAT), HELLO);
    var db := Install(Db(map[], map[], map[]), w, first);
    NewMessageRows(w);
    assert db.messages == map[7 := HELLO];
    forall i | i in db.log ensures !Announces(db.log[i], 7, Delivered, ALICE) {
      assert db.log[i] in Rows(w);
    }
  }

  // ---- exactly when an acknowledgement can be answered with a merely sent message

  /** Request `p` has been answered with this message. */
  predicate Acked(s: Store, p: nat, out: Message) {
    p in s.procs && Finished(s.procs[p].pc) && s.procs[p].pc.response == AckDone(out)
  }

  /** The acknowledgement's UPDATE saw the message: wherever it has got to, it cannot be answered with a
      merely sent one. */
  predicate Sighted(pc: Pc) {
    match pc
    case AckLock(_) => true
    case AckMiss(seen) => seen
    case Staged(w) => w.Delivery?
    case Flushed(w, _) => w.Delivery?
    case Committed(r) => r.AckDone? ==> r.out.status != Sent
    case Done(r) => r.AckDone? ==> r.out.status != Sent
    case _ => false
  }

  lemma MissIsPastSent(s: Store, p: nat)
    requires Inv(s) && p in s.procs && s.procs[p].call.Ack? && s.procs[p].pc == AckMiss(true)
    ensures var r := Explain(s.db, s.procs[p].call.user, s.procs[p].call.message); r.AckDone? ==> r.out.status != Sent
  {
    hide DbOk, Compatible;
    assert PcOk(s.db, s.nextRow, s.procs[p].call, s.procs[p].pc);
  }

  lemma OwnStepSighted(s: Store, a: Action)
    requires Inv(s) && Enabled(s, a) && a.p in s.procs && s.procs[a.p].call.Ack? && Sighted(s.procs[a.p].pc)
    ensures a.p in Apply(s, a).procs && Apply(s, a).procs[a.p].call == s.procs[a.p].call && Sighted(Apply(s, a).procs[a.p].pc)
  {
    hide Inv, PairHeld, ClientIdHeld, RowHeld, LookupFinds, PairTaken, ClientIdTaken, Replay, Explain, Install, Rows, Unread;
    if a.GetMessage? && s.procs[a.p].pc.AckMiss? {
      MissIsPastSent(s, a.p);
    }
  }

  lemma {:induction false} SightedRun(s: Store, p: nat, actions: seq<Action>, s': Store)
    requires Inv(s) && Reaches(s, actions, s') && p in s.procs && s.procs[p].call.Ack? && Sighted(s.procs[p].pc)
    ensures p in s'.procs && Sighted(s'.procs[p].pc)
    decreases |actions|
  {
    hide Inv, Enabled, Apply, Evolves, Sighted;
    if actions != [] {
      StepOk(s, actions[0]);
      if actions[0].p == p {
        OwnStepSighted(s, actions[0]);
      } else {
        StepOther(s, p, actions[0]);
      }
      SightedRun(Apply(s, actions[0]), p, actions[1..], s');
    }
  }

  /** Whatever runs after the UPDATE of `p`, which comes first, `p` is not answered with a merely sent
      message. */
  ghost predicate NeverBlind(s: Store, p: nat) {
    forall actions: seq<Action>, s', out | Reaches(s, actions, s') && Begins(actions, p) && Acked(s', p, out) :: out.status != Sent
  }

  predicate Begins(actions: seq<Action>, p: nat) {
    actions != [] && actions[0].UpdateSent? && actions[0].p == p
  }

  lemma SeenIsNeverBlind(s: Store, p: nat, user: UserId, id: Uuid, replica: nat)
    requires Inv(s) && Here(s, p, Ack(user, id), replica, AckUpdate) && id in s.db.messages
    ensures NeverBlind(s, p)
  {
    hide Inv, Enabled, Apply, Evolves, Sighted;
    forall actions: seq<Action>, s', out | Reaches(s, actions, s') && Begins(actions, p) && Acked(s', p, out) ensures out.status != Sent {
      StepUpdateSent(s, p, user, id, replica, actions[0].now);
      StepOk(s, actions[0]);
      var next := Apply(s, actions[0]);
      assert Sighted(next.procs[p].pc) by { SightedStart(s, next, p, user, id, replica, actions[0].now); }
      SightedRun(next, p, actions[1..], s');
      AnswerIsSighted(s', p, out);
    }
  }

  lemma SightedStart(s: Store, s': Store, p: nat, user: UserId, id: Uuid, replica: nat, now: Timestamp)
    requires id in s.db.messages
    requires Here(s', p, Ack(user, id), replica,
                  if id in s.db.messages && Acknowledges(s.db.messages[id], user) then AckLock(now) else AckMiss(id in s.db.messages))
    ensures p in s'.procs && Sighted(s'.procs[p].pc)
  {
  }

  lemma AnswerIsSighted(s: Store, p: nat, out: Message)
    requires Acked(s, p, out) && Sighted(s.procs[p].pc)
    ensures out.status != Sent
  {
  }

  lemma CommittedRow(db: Db, w: Work, first: nat)
    requires w.NewMessage?
    ensures w.message.id in Install(db, w, first).messages && Install(db, w, first).messages[w.message.id] == w.message
  {
    hide Rows, Numbered;
  }

  /** The UPDATE finds no message, and then every other request fails. */
  lemma NobodyLeft(s: Store, p: nat, user: UserId, id: Uuid, replica: nat) returns (actions: seq<Action>, s': Store)
    requires Here(s, p, Ack(user, id), replica, AckUpdate) && id !in s.db.messages
    ensures Reaches(s, actions, s') && Begins(actions, p) && s'.db == s.db
    ensures Here(s', p, Ack(user, id), replica, AckMiss(false)) && Busy(s', p) == {}
  {
    hide Enabled, Apply, Reaches, Busy;
    Stop(s);
    StepUpdateSent(s, p, user, id, replica, NOON);
    actions, s' := Advance(s, [], s, UpdateSent(p, NOON));
    assert actions[0] == UpdateSent(p, NOON);
    actions, s' := AbortOthers(s, actions, s', p);
  }

  /** What somebody could send to `user`: a client id that is free, in the pair's conversation or a new one. */
  lemma SomeSend(db: Db, user: UserId, id: Uuid) returns (sender: UserId, req: SendRequest, conversation: Uuid)
    requires ConversationsOk(db) && id !in db.messages
    ensures sender != user && req.recipient == user && req.body.Some? && req.graphemes <= MESSAGE_MAX_GRAPHEMES && req.attachment.None?
    ensures !ClientIdTaken(db, sender, req.clientId)
    ensures var pair := SortedPair(sender, user);
            ForPair(db, conversation, pair) || (!PairTaken(db, pair) && conversation !in db.conversations)
  {
    hide ConversationsOk, ClientIdTaken, SortedPair;
    sender := user + "x";
    assert |sender| == |user| + 1;
    var clientId := FreshClientId(db, sender);
    req := SendRequest(user, clientId, Some("hi"), None, 2);
    var pair := SortedPair(sender, user);
    if PairTaken(db, pair) {
      conversation :| conversation in db.conversations && (db.conversations[conversation].userA, db.conversations[conversation].userB) == pair;
    } else {
      conversation := FreeConversationId(db, id);
    }
  }

  /** A message that is not there when the UPDATE begins can be sent and committed before the lookup, and
      then it is answered merely sent. */
  lemma UnseenIsBlind(s: Store, p: nat, user: UserId, id: Uuid, replica: nat) returns (actions: seq<Action>, s': Store, out: Message)
    requires Inv(s) && Here(s, p, Ack(user, id), replica, AckUpdate) && id !in s.db.messages
    ensures Reaches(s, actions, s') && Begins(actions, p) && Acked(s', p, out) && out.status == Sent
    ensures id in s'.db.messages && s'.db.messages[id] == out
  {
    hide Inv, DbOk, Enabled, Apply, Reaches, Install, Answer, Clear, ClientIdTaken, PairTaken, SortedPair, ConversationsOk, Busy, ForPair;
    assert ConversationsOk(s.db) by { InvParts(s); }
    actions, s' := NobodyLeft(s, p, user, id, replica);
    var sender, req, conversation := SomeSend(s.db, user, id);
    var q := FreshNumber(s'.procs.Keys);
    ClearWhenIdle(s', p, q, sender, req, id, Target(s.db, sender, req, conversation, NOON));
    var first: nat;
    actions, s', first := SendUntilCommit(s, actions, s', q, sender, req, conversation, id, NOON);
    var w := SendWork(s.db, sender, req, conversation, id, NOON);
    StepCommit(s', q, Send(sender, req), 0, w, first, true);
    CommittedRow(s'.db, w, first);
    actions, s' := Advance(s, actions, s', Commit(q, true));
    StepGetMessage(s', p, user, id, replica, false);
    actions, s' := Advance(s, actions, s', GetMessage(p));
    out := w.message;
  }

  /** "Already delivered or read" is what an acknowledgement that changed nothing answers, exactly if the
      message was committed when its UPDATE began: no continuation answers with a merely sent message if
      and only if it was. */
  lemma AckAnswer(actions: seq<Action>, s: Store, p: nat, user: UserId, id: Uuid, replica: nat)
    requires Reaches(Init(), actions, s) && Here(s, p, Ack(user, id), replica, AckUpdate)
    ensures NeverBlind(s, p) <==> id in s.db.messages
  {
    hide Inv, Reaches, Acked, Begins;
    ReachableOk(actions, s);
    if id in s.db.messages {
      SeenIsNeverBlind(s, p, user, id, replica);
    } else {
      var more, s', out := UnseenIsBlind(s, p, user, id, replica);
    }
  }
}
