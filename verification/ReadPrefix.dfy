/** What a user has read is a prefix of what the user was sent, as long as no commit breaks it: exactly
    which commits do, over whole runs, and a run for each kind. */
module ReadPrefix {
  import opened Basics
  import opened Clock
  import opened Uuids
  import opened Models
  import opened ChatStore
  import opened ChatInvariant
  import opened ChatCommits
  import opened ChatRuns
  import opened ChatSteps
  import opened ChatTheorems
  import opened KeyOrder
  import opened Anomalies
  import opened LateCommits
  import Receipts

  // ---- a message that commits late

  predicate ReadLater(db: Db, m: Message, n: Uuid)
    requires n in db.messages
  {
    && db.messages[n].conversation == m.conversation && db.messages[n].recipient == m.recipient
    && KeyLess(m.Key(), db.messages[n].Key()) && db.messages[n].status == Read
  }

  lemma LatePairs(db: Db, db': Db, m: Message, x: Uuid, y: Uuid)
    requires m.id !in db.messages && m.status == Sent && db'.messages == db.messages[m.id := m]
    requires x in db'.messages && y in db'.messages
    requires x in db.messages && y in db.messages ==> ReadBefore(db, x, y)
    requires y in db.messages ==> !ReadLater(db, m, y)
    ensures ReadBefore(db', x, y)
  {
    hide KeyLess;
  }

  lemma NewIsSent(db: Db, call: Call, w: Work)
    requires WorkOk(db, call, w) && w.NewMessage?
    ensures w.message.status == Sent && w.message.id !in db.messages
  {
    hide TargetOk, ClientIdTaken, Stamped;
  }

  /** A message that commits out of key order breaks the prefix property exactly when a later
      message to the same user has been read already. */
  lemma LateMessageBreaksPrefix(db: Db, call: Call, w: Work, first: nat)
    requires ReadIsPrefix(db) && WorkOk(db, call, w) && w.NewMessage?
    ensures ReadIsPrefix(Install(db, w, first)) <==> forall n | n in db.messages :: !ReadLater(db, w.message, n)
  {
    hide WorkOk, Install, KeyLess;
    var db', m := Install(db, w, first), w.message;
    NewIsSent(db, call, w);
    Installed(db, w.own, m, first);
    if n :| n in db.messages && ReadLater(db, m, n) {
      assert !ReadBefore(db', m.id, n);
    } else {
      forall x, y | x in db'.messages && y in db'.messages ensures ReadBefore(db', x, y) {
        LatePairs(db, db', m, x, y);
      }
    }
  }

  // ---- a read receipt whose snapshot is too old

  /** The receipt takes `n` and leaves out `m`, an earlier unread message to the same reader that its
      snapshot did not show. */
  predicate LeavesOut(db: Db, w: Work, m: Uuid, n: Uuid)
    requires w.Reading?
  {
    && m in db.messages && n in db.messages && n in w.messages
    && db.messages[m].conversation == w.conv.id && db.messages[m].recipient == w.reader && db.messages[m].status != Read
    && KeyLess(db.messages[m].Key(), db.messages[n].Key())
    && m !in w.visible
  }

  lemma ReadingWrites(db: Db, call: Call, w: Work, first: nat, m: Uuid)
    requires WorkOk(db, call, w) && w.Reading?
    ensures Install(db, w, first).messages.Keys == db.messages.Keys
    ensures m in db.messages ==>
              Install(db, w, first).messages[m] == if m in w.messages then MarkRead(db.messages[m], w.at) else db.messages[m]
    ensures m in w.messages ==> m in w.visible
  {
    hide Anchored, Listed, Matched, IsRead, Rows, Numbered;
    forall id | id in w.messages ensures id in db.messages && db.messages[id] == w.messages[id] {
      assert Readable(db, w.conv, w.reader, id, w.messages[id]);
    }
  }

  lemma ReadingPair(db: Db, call: Call, w: Work, first: nat, m: Uuid, n: Uuid)
    requires WorkOk(db, call, w) && w.Reading? && m in db.messages && n in db.messages && ReadBefore(db, m, n)
    requires !LeavesOut(db, w, m, n)
    ensures m in Install(db, w, first).messages && n in Install(db, w, first).messages
    ensures ReadBefore(Install(db, w, first), m, n)
  {
    hide WorkOk, Install, KeyLess;
    ReadingWrites(db, call, w, first, m);
    ReadingWrites(db, call, w, first, n);
    if n in w.messages {
      WorkReads(db, call, w, m, n);
      Receipts.ReadingTakes(db, call, w, n);
    }
  }

  lemma LeftOutBreaks(db: Db, call: Call, w: Work, first: nat, m: Uuid, n: Uuid)
    requires WorkOk(db, call, w) && w.Reading? && LeavesOut(db, w, m, n)
    ensures m in Install(db, w, first).messages && n in Install(db, w, first).messages
    ensures !ReadBefore(Install(db, w, first), m, n)
  {
    hide WorkOk, Install, KeyLess;
    ReadingWrites(db, call, w, first, m);
    ReadingWrites(db, call, w, first, n);
    Receipts.ReadingTakes(db, call, w, n);
  }

  /** A receipt breaks the prefix exactly when it leaves an earlier unread message out. */
  lemma StaleReceiptBreaksPrefix(db: Db, call: Call, w: Work, first: nat)
    requires ReadIsPrefix(db) && WorkOk(db, call, w) && w.Reading?
    ensures ReadIsPrefix(Install(db, w, first)) <==> forall m, n :: !LeavesOut(db, w, m, n)
  {
    hide WorkOk, Install, LeavesOut, ReadBefore;
    var db' := Install(db, w, first);
    if m, n :| LeavesOut(db, w, m, n) {
      LeftOutBreaks(db, call, w, first, m, n);
    } else {
      forall x, y | x in db'.messages && y in db'.messages ensures ReadBefore(db', x, y) {
        ReadingWrites(db, call, w, first, x);
        ReadingPair(db, call, w, first, x, y);
      }
    }
  }

  lemma DeliveryKeepsPrefix(db: Db, call: Call, w: Work, first: nat)
    requires ReadIsPrefix(db) && WorkOk(db, call, w) && w.Delivery?
    ensures ReadIsPrefix(Install(db, w, first))
  {
    hide Rows, Numbered, KeyLess;
    var db' := Install(db, w, first);
    forall x, y | x in db'.messages && y in db'.messages ensures ReadBefore(db', x, y) {
      assert ReadBefore(db, x, y);
    }
  }

  // ---- every commit, and every run

  ghost predicate KeepsPrefix(db: Db, w: Work) {
    match w
    case NewMessage(_, m) => forall n | n in db.messages :: !ReadLater(db, m, n)
    case Delivery(_, _) => true
    case Reading(_, _, _, _, _, _) => forall m, n :: !LeavesOut(db, w, m, n)
  }

  /** The commits that break the prefix are exactly these two: a message after a later one has been read,
      and a receipt that leaves an earlier message out. */
  lemma CommitKeepsPrefix(s: Store, a: Action)
    requires Inv(s) && ReadIsPrefix(s.db) && Enabled(s, a) && a.Commit?
    ensures a.p in s.procs && s.procs[a.p].pc.Flushed?
    ensures ReadIsPrefix(Apply(s, a).db) <==> KeepsPrefix(s.db, s.procs[a.p].pc.work)
  {
    hide Inv, Enabled, Apply, WorkOk, ReadIsPrefix, Install, ReadLater, LeavesOut;
    CommitEffect(s, a);
    Receipts.CommitInstalls(s, a);
    var call, w, first := s.procs[a.p].call, s.procs[a.p].pc.work, s.procs[a.p].pc.first;
    match w {
      case NewMessage(_, _) => LateMessageBreaksPrefix(s.db, call, w, first);
      case Delivery(_, _) => DeliveryKeepsPrefix(s.db, call, w, first);
      case Reading(_, _, _, _, _, _) => StaleReceiptBreaksPrefix(s.db, call, w, first);
    }
  }

  /** The prefix property holds before and after every step of the run. */
  ghost predicate PrefixThroughout(s: Store, actions: seq<Action>)
    decreases |actions|
  {
    && ReadIsPrefix(s.db)
    && (actions != [] ==> Enabled(s, actions[0]) && PrefixThroughout(Apply(s, actions[0]), actions[1..]))
  }

  /** Every commit of the run is one that keeps it. */
  ghost predicate CommitsKeepPrefix(s: Store, actions: seq<Action>)
    decreases |actions|
  {
    actions != [] ==>
      && Enabled(s, actions[0])
      && (actions[0].Commit? ==> s.procs[actions[0].p].pc.Flushed? && KeepsPrefix(s.db, s.procs[actions[0].p].pc.work))
      && CommitsKeepPrefix(Apply(s, actions[0]), actions[1..])
  }

  lemma {:induction false} PrefixRun(s: Store, actions: seq<Action>, s': Store)
    requires Inv(s) && ReadIsPrefix(s.db) && Reaches(s, actions, s')
    ensures PrefixThroughout(s, actions) <==> CommitsKeepPrefix(s, actions)
    decreases |actions|
  {
    hide Inv, Enabled, Apply, Evolves, ReadIsPrefix, KeepsPrefix;
    if actions != [] {
      var a, next := actions[0], Apply(s, actions[0]);
      StepOk(s, a);
      if a.Commit? {
        CommitKeepsPrefix(s, a);
      } else {
        OtherStepsKeepDb(s, a);
      }
      if ReadIsPrefix(next.db) {
        PrefixRun(next, actions[1..], s');
      } else {
        NoPrefix(next, actions[1..]);
      }
    }
  }

  lemma NoPrefix(s: Store, actions: seq<Action>)
    requires !ReadIsPrefix(s.db)
    ensures !PrefixThroughout(s, actions)
  {
  }

  /** In every run of the service, whatever the requests and their interleaving, what each user has read
      in a conversation is a prefix of what the user was sent at every moment exactly if no message commits
      after a later one has been read and no receipt leaves an earlier message out. */
  lemma ReadIsPrefixExactly(actions: seq<Action>, s: Store)
    requires Reaches(Init(), actions, s)
    ensures PrefixThroughout(Init(), actions) <==> CommitsKeepPrefix(Init(), actions)
  {
    hide Inv, Reaches;
    InitOk();
    PrefixRun(Init(), actions, s);
  }

  // ---- a run for each

  const EARLY: Timestamp := DateTime(2026, 1, 1, 11, 0, 0, 0)
  const EARLY_ROW := NewRow(8, CHAT, ALICE, SLOW, None, EARLY)
  const RECEIPT := Reading(CHAT, BOB, HELLO.Key(), NOON, {7}, map[7 := HELLO])

  /** Alice's first message is committed; her second, with an earlier stamp, and Bob's receipt for the
      first wait for their commits. */
  predicate BothWait(s: Store, first: nat, second: nat) {
    && s.procs.Keys == {0, 1, 2} && s.db.messages == map[7 := HELLO]
    && Here(s, 1, Send(ALICE, SLOW), 0, Flushed(NewMessage(None, EARLY_ROW), first))
    && Here(s, 2, ReadUpTo(BOB, 5, 7), 0, Flushed(RECEIPT, second))
  }

  lemma EarlierWaits() returns (actions: seq<Action>, s: Store, first: nat)
    ensures Reaches(Init(), actions, s) && s.procs.Keys == {0, 1}
    ensures s.db.messages == map[7 := HELLO] && s.db.conversations == map[5 := CHAT]
    ensures Here(s, 0, Send(ALICE, GREETING), 0, Committed(SendDone(HELLO, true)))
    ensures Here(s, 1, Send(ALICE, SLOW), 0, Flushed(NewMessage(None, EARLY_ROW), first))
  {
    hide Reaches, Enabled, Apply, Install, Clear, ClientIdTaken, SortedPair, FreshConversation;
    actions, s := GreetingIsCommitted();
    PairOfChat();
    ClearAfterFirst(s);
    Untaken(s.db);
    actions, s, first := SendUntilCommit(Init(), actions, s, 1, ALICE, SLOW, 5, 8, EARLY);
  }

  lemma FirstIsUnread(db: Db)
    requires db.messages == map[7 := HELLO]
    ensures Unread(db, CHAT.id, BOB, HELLO.Key()) == {7}
  {
  }

  lemma FirstIsFree(s: Store, first: nat)
    requires s.procs.Keys == {0, 1, 2} && Here(s, 0, Send(ALICE, GREETING), 0, Committed(SendDone(HELLO, true)))
    requires Here(s, 1, Send(ALICE, SLOW), 0, Flushed(NewMessage(None, EARLY_ROW), first))
    ensures !RowHeld(s, 2, 7)
  {
  }

  lemma BothWaitIsReachable() returns (actions: seq<Action>, s: Store, first: nat, second: nat)
    ensures Reaches(Init(), actions, s) && BothWait(s, first, second)
  {
    hide Reaches, Enabled, Apply, Unread, RowHeld, FreshConversation, SortedPair;
    actions, s, first := EarlierWaits();
    PairOfChat();
    var call := ReadUpTo(BOB, 5, 7);
    var key := HELLO.Key();
    StepBegin(s, 2, call, 0);
    actions, s := Advance(Init(), actions, s, Begin(2, 0, call));
    StepGetConversation(s, 2, BOB, 5, 7, 0);
    actions, s := Advance(Init(), actions, s, GetConversation(2));
    StepGetAnchor(s, 2, BOB, 5, 7, 0, CHAT, NOON);
    actions, s := Advance(Init(), actions, s, GetAnchor(2, NOON));
    FirstIsUnread(s.db);
    StepUpdateUnread(s, 2, BOB, 5, 7, 0, CHAT, key, NOON);
    actions, s := Advance(Init(), actions, s, UpdateUnread(2));
    FirstIsFree(s, first);
    StepLockUnread(s, 2, call, 0, CHAT, key, NOON, {7}, {7}, map[], 7);
    actions, s := Advance(Init(), actions, s, LockUnread(2, 7));
    assert {7} - {7} == {};
    StepEndUpdate(s, 2, BOB, 5, 7, 0, CHAT, key, NOON, {7}, map[7 := HELLO]);
    actions, s := Advance(Init(), actions, s, EndUpdate(2));
    StepFlush(s, 2, call, 0, RECEIPT);
    second := s.nextRow;
    actions, s := Advance(Init(), actions, s, Flush(2));
  }

  lemma EarlierKey()
    ensures KeyLess(EARLY_ROW.Key(), HELLO.Key())
    ensures EARLY_ROW.conversation == HELLO.conversation && EARLY_ROW.recipient == HELLO.recipient && EARLY_ROW.status == HELLO.status == Sent
  {
  }

  lemma OneIsPrefix(db: Db)
    requires db.messages.Keys == {7}
    ensures ReadIsPrefix(db)
  {
    hide KeyLess;
    KeysAreTotallyOrdered(db.messages[7].Key(), db.messages[7].Key());
  }

  lemma UnreadIsPrefix(db: Db)
    requires db.messages == map[7 := HELLO, 8 := EARLY_ROW]
    ensures ReadIsPrefix(db)
  {
    hide KeyLess, NewRow;
    EarlierKey();
  }

  lemma GapIsNoPrefix(db: Db)
    requires db.messages == map[7 := MarkRead(HELLO, NOON), 8 := EARLY_ROW]
    ensures !ReadIsPrefix(db)
  {
    hide KeyLess, NewRow;
    EarlierKey();
    assert !ReadBefore(db, 8, 7);
  }

  lemma ReceiptInstalled(db: Db, first: nat)
    ensures Install(db, RECEIPT, first).messages == db.messages[7 := MarkRead(HELLO, NOON)]
  {
    hide Rows, Numbered, MarkRead;
    assert Writes(RECEIPT) == map[7 := MarkRead(HELLO, NOON)];
  }

  /** Bob reads the first message, and only then does the earlier one commit. */
  lemma LateMessageRun() returns (actions: seq<Action>, s: Store)
    ensures Reaches(Init(), actions, s) && ReadIsPrefix(s.db)
    ensures Enabled(s, Commit(1, true)) && s.procs[1].pc.work.NewMessage?
    ensures !ReadIsPrefix(Apply(s, Commit(1, true)).db)
  {
    hide Reaches, Enabled, Apply, Install, ReadIsPrefix, MarkRead;
    var first: nat, second: nat;
    actions, s, first, second := BothWaitIsReachable();
    StepCommit(s, 2, ReadUpTo(BOB, 5, 7), 0, RECEIPT, second, true);
    ReceiptInstalled(s.db, second);
    actions, s := Advance(Init(), actions, s, Commit(2, true));
    StepCommit(s, 1, Send(ALICE, SLOW), 0, NewMessage(None, EARLY_ROW), first, true);
    Installed(s.db, None, EARLY_ROW, first);
    OneIsPrefix(s.db);
    GapIsNoPrefix(Apply(s, Commit(1, true)).db);
  }

  /** The earlier message commits while Bob's receipt, which did not see it, waits for its own commit. */
  lemma StaleReceiptRun() returns (actions: seq<Action>, s: Store)
    ensures Reaches(Init(), actions, s) && ReadIsPrefix(s.db)
    ensures Enabled(s, Commit(2, true)) && s.procs[2].pc.work.Reading?
    ensures !ReadIsPrefix(Apply(s, Commit(2, true)).db)
  {
    hide Reaches, Enabled, Apply, Install, ReadIsPrefix, MarkRead;
    var first: nat, second: nat;
    actions, s, first, second := BothWaitIsReachable();
    StepCommit(s, 1, Send(ALICE, SLOW), 0, NewMessage(None, EARLY_ROW), first, true);
    Installed(s.db, None, EARLY_ROW, first);
    actions, s := Advance(Init(), actions, s, Commit(1, true));
    StepCommit(s, 2, ReadUpTo(BOB, 5, 7), 0, RECEIPT, second, true);
    ReceiptInstalled(s.db, second);
    UnreadIsPrefix(s.db);
    GapIsNoPrefix(Apply(s, Commit(2, true)).db);
  }
}
