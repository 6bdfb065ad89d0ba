/** What the receipts of a whole run add up to, as the service runs them: statement by statement, in any
    interleaving, with failures. */
module ReceiptRuns {
  import opened Basics
  import opened Clock
  import opened Uuids
  import opened Models
  import opened ChatStore
  import opened ChatInvariant
  import opened ChatCommits
  import opened ChatSteps
  import opened KeyOrder
  import opened Receipts

  /** The receipt that takes effect with this step, or that is answered with this step because it changes
      nothing. */
  function ReceiptOf(s: Store, a: Action): seq<Stamp>
    requires Enabled(s, a)
  {
    if a.Commit? then ReceiptCommitted(s.procs[a.p].call, s.procs[a.p].pc.work)
    else if a.EndUpdate? && s.procs[a.p].pc.got == map[] then
      var call, pc := s.procs[a.p].call, s.procs[a.p].pc;
      [Stamp(ReadTo(call.user, pc.conv.id, call.message), pc.now)]
    else if a.GetMessage? && Explain(s.db, s.procs[a.p].call.user, s.procs[a.p].call.message).AckDone? then
      var call := s.procs[a.p].call;
      [Stamp(Acked(call.user, call.message), s.db.messages[call.message].createdAt)]  // the stamp is not used
    else []
  }

  function ReceiptCommitted(call: Call, w: Work): seq<Stamp> {
    match w
    case NewMessage(_, _) => []
    case Delivery(m, at) => [Stamp(Acked(call.user, m.id), at)]
    case Reading(conv, reader, _, at, _, _) =>
      if call.ReadUpTo? then [Stamp(ReadTo(reader, conv.id, call.message), at)] else []
  }

  /** All receipts of a run, in the order in which they take effect or are answered. */
  function ReceiptsOf(s: Store, actions: seq<Action>): seq<Stamp>
    decreases |actions|
  {
    if actions == [] || !Enabled(s, actions[0]) then []
    else ReceiptOf(s, actions[0]) + ReceiptsOf(Apply(s, actions[0]), actions[1..])
  }

  /** No message is committed in the run. */
  predicate NoSends(s: Store, actions: seq<Action>)
    decreases |actions|
  {
    actions == [] || !Enabled(s, actions[0])
    || (!CommitsMessage(s, actions[0]) && NoSends(Apply(s, actions[0]), actions[1..]))
  }

  predicate CommitsMessage(s: Store, a: Action)
    requires Enabled(s, a)
  {
    a.Commit? && s.procs[a.p].pc.work.NewMessage?
  }

  /** No request in progress has looked too early: a read receipt sees every message it should, and an
      acknowledgement that found no message still would. */
  ghost predicate LooksFresh(db: Db, call: Call, pc: Pc) {
    && SeesAll(db, call, pc)
    && (pc.AckMiss? && !pc.seen && call.Ack? ==> call.message !in db.messages)
  }

  ghost predicate AllFresh(s: Store) {
    forall p | p in s.procs :: LooksFresh(s.db, s.procs[p].call, s.procs[p].pc)
  }

  // ---- one step

  lemma {:induction false} ActAllFront(t: Table, s: Stamp, rest: seq<Stamp>)
    ensures ActAll(t, [s] + rest) == ActAll(Act(t, s), rest)
    decreases |rest|
  {
    hide Act;
    if rest == [] {
      assert [s] + rest == [s] && [s][..0] == [];
    } else {
      var last := |rest| - 1;
      assert ([s] + rest)[..|rest|] == [s] + rest[..last];
      ActAllFront(t, s, rest[..last]);
    }
  }

  lemma {:induction false} ActAllConcat(t: Table, a: seq<Stamp>, b: seq<Stamp>)
    ensures ActAll(t, a + b) == ActAll(ActAll(t, a), b)
    decreases |b|
  {
    hide Act;
    if b == [] {
      assert a + b == a;
    } else {
      var last := |b| - 1;
      assert (a + b)[..|a + b| - 1] == a + b[..last];
      ActAllConcat(t, a, b[..last]);
    }
  }

  lemma ActAllOne(t: Table, s: Stamp)
    ensures ActAll(t, [s]) == Act(t, s)
  {
    hide Act;
    assert [s][..0] == [];
  }

  /** A receipt that sees everything it should does what the atomic receipt does. */
  lemma ReadSeesAll(t: Table, visible: set<Uuid>, conversation: Uuid, user: UserId, upTo: Key, now: Timestamp)
    requires forall id | id in t && InReach(t[id], conversation, user, upTo) :: id in visible || t[id].status == Read
    ensures ReadAll(t, visible, conversation, user, upTo, now) == ReadAll(t, t.Keys, conversation, user, upTo, now)
  {
    hide InReach, MarkRead;
  }

  lemma CoversReach(db: Db, conv: Conversation, user: UserId, upTo: Key, visible: set<Uuid>)
    requires forall id :: Covers(db, conv, user, upTo, visible, id)
    ensures forall id | id in db.messages && InReach(db.messages[id], conv.id, user, upTo) :: id in visible || db.messages[id].status == Read
  {
    hide KeyAtMost;
    forall id | id in db.messages && InReach(db.messages[id], conv.id, user, upTo) ensures id in visible || db.messages[id].status == Read {
      assert Covers(db, conv, user, upTo, visible, id);
    }
  }

  lemma ReadIsAtomic(db: Db, call: Call, conv: Conversation, upTo: Key, visible: set<Uuid>, now: Timestamp)
    requires call.ReadUpTo? && Anchored(db, call, conv, upTo)
    requires forall id :: Covers(db, conv, call.user, upTo, visible, id)
    ensures ReadAll(db.messages, visible, conv.id, call.user, upTo, now)
         == Act(db.messages, Stamp(ReadTo(call.user, conv.id, call.message), now))
  {
    hide ReadAll, Covers, InReach;
    CoversReach(db, conv, call.user, upTo, visible);
    ReadSeesAll(db.messages, visible, conv.id, call.user, upTo, now);
  }

  lemma CommitActs(db: Db, call: Call, w: Work, first: nat)
    requires WorkOk(db, call, w) && !w.NewMessage?
    requires w.Reading? ==> forall id :: Covers(db, w.conv, w.reader, w.upTo, w.visible, id)
    ensures Install(db, w, first).messages == ActAll(db.messages, ReceiptCommitted(call, w))
  {
    hide WorkOk, Install, ReadAll, Covers, Acknowledges, Deliver;
    if w.Delivery? {
      AckCommitsAtomically(db, call, w, first);
      DeliveryIsAcked(db, call, w);
      ActAllOne(db.messages, Stamp(Acked(call.user, w.message.id), w.at));
    } else {
      ReadCommitsAtomically(db, call, w, first);
      AnchorOfWork(db, call, w);
      ReadIsAtomic(db, call, w.conv, w.upTo, w.visible, w.at);
      ActAllOne(db.messages, Stamp(ReadTo(w.reader, w.conv.id, call.message), w.at));
    }
  }

  lemma DeliveryIsAcked(db: Db, call: Call, w: Work)
    requires WorkOk(db, call, w) && w.Delivery?
    ensures call.Ack? && w.message.id == call.message
  {
  }

  lemma CommitStepActs(s: Store, a: Action)
    requires Inv(s) && AllFresh(s) && Enabled(s, a) && a.Commit? && !CommitsMessage(s, a)
    ensures Apply(s, a).db.messages == ActAll(s.db.messages, ReceiptOf(s, a))
  {
    hide Inv, Enabled, Apply, Install, WorkOk, Covers, ActAll;
    CommitEffect(s, a);
    CommitInstalls(s, a);
    assert LooksFresh(s.db, s.procs[a.p].call, s.procs[a.p].pc);
    CommitActs(s.db, s.procs[a.p].call, s.procs[a.p].pc.work, s.procs[a.p].pc.first);
  }

  predicate EndsEmpty(s: Store, a: Action)
    requires Enabled(s, a) && a.EndUpdate?
  {
    s.procs[a.p].pc.got == map[]
  }

  /** A read receipt that ends with nothing taken, and an acknowledgement that is answered without a
      change, would change nothing as atomic operations either. */
  lemma EmptyReadActs(s: Store, a: Action)
    requires Inv(s) && AllFresh(s) && Enabled(s, a) && a.EndUpdate? && EndsEmpty(s, a)
    ensures s.db.messages == ActAll(s.db.messages, ReceiptOf(s, a))
  {
    hide Inv, ReadAll, Covers, ActAll, LockOk, Act;
    var call, pc := s.procs[a.p].call, s.procs[a.p].pc;
    PcIsOk(s, a.p);
    assert LooksFresh(s.db, call, pc);
    EmptyReadIsAtomic(s.db, s.nextRow, call, pc);
    assert pc.conv.id == call.conversation && Anchored(s.db, call, pc.conv, pc.upTo);
    ReadIsAtomic(s.db, call, pc.conv, pc.upTo, pc.visible, pc.now);
    ActAllOne(s.db.messages, Stamp(ReadTo(call.user, pc.conv.id, call.message), pc.now));
  }

  lemma MissedAckActs(s: Store, a: Action)
    requires Inv(s) && AllFresh(s) && Enabled(s, a) && a.GetMessage?
    ensures s.db.messages == ActAll(s.db.messages, ReceiptOf(s, a))
  {
    hide Inv, ActAll, Act;
    var call, pc := s.procs[a.p].call, s.procs[a.p].pc;
    PcIsOk(s, a.p);
    assert LooksFresh(s.db, call, pc);
    if Explain(s.db, call.user, call.message).AckDone? {
      var stamp := Stamp(Acked(call.user, call.message), s.db.messages[call.message].createdAt);
      ActAllOne(s.db.messages, stamp);
      assert !Acknowledges(s.db.messages[call.message], call.user);
      NoAck(s.db.messages, stamp);
    } else {
      NoReceipts(s.db.messages);
    }
  }

  lemma NoAck(t: Table, s: Stamp)
    requires s.receipt.Acked? && s.receipt.message in t && !Acknowledges(t[s.receipt.message], s.receipt.user)
    ensures Act(t, s) == t
  {
  }

  lemma NoReceipts(t: Table)
    ensures ActAll(t, []) == t
  {
  }

  lemma StepActs(s: Store, a: Action)
    requires Inv(s) && AllFresh(s) && Enabled(s, a) && !CommitsMessage(s, a)
    ensures Apply(s, a).db.messages == ActAll(s.db.messages, ReceiptOf(s, a))
  {
    hide Inv, AllFresh, Enabled, Apply, ActAll, CommitsMessage;
    if a.Commit? {
      CommitStepActs(s, a);
    } else {
      OtherStepsKeepDb(s, a);
      if a.EndUpdate? && EndsEmpty(s, a) {
        EmptyReadActs(s, a);
      } else if a.GetMessage? {
        MissedAckActs(s, a);
      } else {
        NoReceipts(s.db.messages);
      }
    }
  }

  // ---- freshness lasts

  lemma WritesKnownIds(db: Db, call: Call, w: Work, first: nat)
    requires WorkOk(db, call, w) && !w.NewMessage?
    ensures Install(db, w, first).messages.Keys == db.messages.Keys
  {
    hide WorkOk, Rows, Numbered, Writes;
    forall id | id in Writes(w) ensures id in db.messages {
      if id !in db.messages {
        WrittenIds(db, call, w, id);
      }
    }
  }

  lemma FreshAfterCommit(s: Store, a: Action, q: nat)
    requires Inv(s) && AllFresh(s) && Enabled(s, a) && a.Commit? && !CommitsMessage(s, a) && q in s.procs
    ensures q in Apply(s, a).procs && LooksFresh(Apply(s, a).db, Apply(s, a).procs[q].call, Apply(s, a).procs[q].pc)
  {
    hide Inv, Enabled, Apply, Install, WorkOk, SeesAll;
    CommitEffect(s, a);
    CommitInstalls(s, a);
    WritesKnownIds(s.db, s.procs[a.p].call, s.procs[a.p].pc.work, s.procs[a.p].pc.first);
    if q == a.p {
      FinishedSees(Apply(s, a).db, s.procs[q].call, Apply(s, a).procs[q].pc);
    } else {
      assert LooksFresh(s.db, s.procs[q].call, s.procs[q].pc);
      SeesAllStable(s, a, q);
    }
  }

  lemma FreshAfterMove(s: Store, a: Action)
    requires Enabled(s, a) && !a.Begin? && !a.Flush? && !a.Commit? && LooksFresh(s.db, s.procs[a.p].call, s.procs[a.p].pc)
    ensures LooksFresh(s.db, s.procs[a.p].call, Move(s, a))
  {
    hide SeesAll, KeyAtMost, PairHeld, ClientIdHeld, RowHeld, LookupFinds, PairTaken, ClientIdTaken, Replay, Explain, Unread;
    MoveSeesAll(s, a);
  }

  lemma FreshAfterStart(s: Store, a: Action)
    requires Enabled(s, a) && (a.Begin? || a.Flush?)
    requires a.Flush? ==> LooksFresh(s.db, s.procs[a.p].call, s.procs[a.p].pc)
    ensures a.p in Apply(s, a).procs && Apply(s, a).db == s.db
    ensures LooksFresh(s.db, Apply(s, a).procs[a.p].call, Apply(s, a).procs[a.p].pc)
  {
    hide Covers, Rows, Install;
  }

  lemma OwnMove(s: Store, a: Action)
    requires Enabled(s, a) && !a.Begin? && !a.Flush? && !a.Commit?
    ensures a.p in s.procs && a.p in Apply(s, a).procs && Apply(s, a).db == s.db
    ensures Apply(s, a).procs[a.p] == s.procs[a.p].(pc := Move(s, a))
  {
    hide Move;
  }

  lemma FreshStep(s: Store, a: Action)
    requires Inv(s) && AllFresh(s) && Enabled(s, a) && !CommitsMessage(s, a)
    ensures AllFresh(Apply(s, a))
  {
    hide Inv, Enabled, Apply, Move, LooksFresh, CommitsMessage;
    var s' := Apply(s, a);
    StepRequests(s, a);
    forall q | q in s'.procs ensures LooksFresh(s'.db, s'.procs[q].call, s'.procs[q].pc) {
      if a.Commit? {
        CommitEffect(s, a);
        FreshAfterCommit(s, a, q);
      } else if q != a.p {
        OtherStepsKeepDb(s, a);
        StepOther(s, q, a);
      } else if a.Begin? {
        FreshAfterStart(s, a);
      } else if a.Flush? {
        FlushesOwn(s, a);
        FreshAfterStart(s, a);
      } else {
        OwnMove(s, a);
        FreshAfterMove(s, a);
      }
    }
  }

  lemma FlushesOwn(s: Store, a: Action)
    requires Enabled(s, a) && !a.Begin?
    ensures a.p in s.procs
  {
  }

  // ---- runs

  /** From a state in which no request has looked too early, and until another message commits, the
      messages are what the run's receipts make of them, one after the other. */
  lemma {:induction false} RunActs(s: Store, actions: seq<Action>, s': Store)
    requires Inv(s) && AllFresh(s) && Reaches(s, actions, s') && NoSends(s, actions)
    ensures s'.db.messages == ActAll(s.db.messages, ReceiptsOf(s, actions))
    decreases |actions|
  {
    hide Inv, AllFresh, Enabled, Apply, Evolves, ActAll, ReceiptOf, CommitsMessage;
    if actions == [] {
      NoReceipts(s.db.messages);
    } else {
      var a, next := actions[0], Apply(s, actions[0]);
      StepOk(s, a);
      StepActs(s, a);
      FreshStep(s, a);
      RunActs(next, actions[1..], s');
      ActAllConcat(s.db.messages, ReceiptOf(s, a), ReceiptsOf(next, actions[1..]));
    }
  }

  lemma IdsAgree(s: Store)
    requires Inv(s)
    ensures forall id | id in s.db.messages :: s.db.messages[id].id == id
  {
    hide ConversationsOk, LogOk, ProcsOk, ClientIdIsUnique, Between, Stamped;
    forall id | id in s.db.messages ensures s.db.messages[id].id == id {
      assert MessageOk(s.db, id);
    }
  }

  /** Every message's status in closed form: the best that the receipts of the run entitle it to. */
  lemma RunInClosedForm(before: seq<Action>, s: Store, actions: seq<Action>, s': Store, id: Uuid)
    requires Reaches(Init(), before, s) && AllFresh(s) && Reaches(s, actions, s') && NoSends(s, actions) && id in s.db.messages
    ensures id in s'.db.messages && Rank(s'.db.messages[id].status) == Entitled(s.db.messages, ReceiptsOf(s, actions), id)
  {
    hide Inv, AllFresh, Reaches, NoSends, ReceiptsOf, ActAll, Entitled;
    InitOk();
    RunOk(Init(), before, s);
    RunActs(s, actions, s');
    IdsAgree(s);
    ClosedForm(s.db.messages, ReceiptsOf(s, actions));
  }

  /** Runs are confluent: two runs from the same state with the same receipts, in whatever order, however
      often, interleaved in whatever way, and with whichever requests failing before they took effect,
      leave every message at the same status. */
  lemma RunsAreConfluent(before: seq<Action>, s: Store, some: seq<Action>, s1: Store, others: seq<Action>, s2: Store, id: Uuid)
    requires Reaches(Init(), before, s) && AllFresh(s) && id in s.db.messages
    requires Reaches(s, some, s1) && NoSends(s, some) && Reaches(s, others, s2) && NoSends(s, others)
    requires forall r :: Contains(ReceiptsOf(s, some), r) <==> Contains(ReceiptsOf(s, others), r)
    ensures id in s1.db.messages && id in s2.db.messages
    ensures s1.db.messages[id].status == s2.db.messages[id].status
  {
    hide Inv, AllFresh, Reaches, NoSends, ReceiptsOf, ActAll, Contains;
    InitOk();
    RunOk(Init(), before, s);
    IdsAgree(s);
    RunActs(s, some, s1);
    RunActs(s, others, s2);
    ReceiptsAreConfluent(s.db.messages, ReceiptsOf(s, some), ReceiptsOf(s, others), id);
  }
}
