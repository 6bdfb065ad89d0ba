/** A client that syncs while a message is between its timestamp and its commit never receives it: a
    run of the service, and the client's requests against it. */
module LateCommits {
  import opened Basics
  import opened Clock
  import opened Uuids
  import opened Models
  import opened ChatStore
  import opened ChatInvariant
  import opened ChatCommits
  import opened ChatRuns
  import opened ChatSteps
  import opened ChatTheorems
  import opened Anomalies
  import opened KeySets
  import opened Paging

  const SECOND: Timestamp := DateTime(2026, 1, 1, 12, 0, 2, 0)
  const THIRD: Timestamp := DateTime(2026, 1, 1, 12, 0, 3, 0)

  const SLOW := SendRequest(BOB, "2", Some("slow"), None, 4)
  const QUICK := SendRequest(ALICE, "3", Some("quick"), None, 5)

  const SLOW_ROW := NewRow(8, CHAT, ALICE, SLOW, None, SECOND)
  const QUICK_ROW := NewRow(9, CHAT, BOB, QUICK, None, THIRD)

  lemma CommitNow(actions: seq<ChatStore.Action>, s: Store, p: nat, user: UserId, req: SendRequest, w: Work, first: nat)
    returns (actions': seq<ChatStore.Action>, s': Store)
    requires Reaches(Init(), actions, s) && Here(s, p, Send(user, req), 0, Flushed(w, first))
    ensures Reaches(Init(), actions', s') && Reaches(s, [Commit(p, true)], s')
    ensures s'.db == Install(s.db, w, first) && s'.procs.Keys == s.procs.Keys
    ensures forall q | q in s.procs && q != p :: q in s'.procs && s'.procs[q] == s.procs[q]
    ensures Here(s', p, Send(user, req), 0, Committed(Answer(w)))
  {
    hide Reaches, Enabled, Apply, Install, Answer;
    StepCommit(s, p, Send(user, req), 0, w, first, true);
    actions', s' := Advance(Init(), actions, s, Commit(p, true));
    Stop(s);
    Extend(s, [], s, Commit(p, true));
    assert [] + [Commit(p, true)] == [Commit(p, true)];
    assert s'.procs.Keys == s.procs.Keys;
  }

  lemma ClearAfterFirst(s: Store)
    requires s.procs.Keys == {0} && Here(s, 0, Send(ALICE, GREETING), 0, Committed(SendDone(HELLO, true)))
    ensures Clear(s, 1, ALICE, SLOW, 8, CHAT)
  {
    hide SortedPair;
  }

  lemma ClearAfterSecond(s: Store, first: nat)
    requires s.procs.Keys == {0, 1} && Here(s, 0, Send(ALICE, GREETING), 0, Committed(SendDone(HELLO, true)))
    requires Here(s, 1, Send(ALICE, SLOW), 0, Flushed(NewMessage(None, SLOW_ROW), first))
    ensures Clear(s, 2, BOB, QUICK, 9, CHAT)
  {
    hide SortedPair;
  }

  lemma Written(own: Option<Conversation>, m: Message)
    ensures Writes(NewMessage(own, m)) == map[m.id := m]
    ensures OwnConversation(NewMessage(own, m)) == if own.Some? then map[own.value.id := own.value] else map[]
  {
  }

  lemma Installed(db: Db, own: Option<Conversation>, m: Message, first: nat)
    ensures Install(db, NewMessage(own, m), first).messages == db.messages[m.id := m]
    ensures own.None? ==> Install(db, NewMessage(own, m), first).conversations == db.conversations
    ensures own.Some? ==> Install(db, NewMessage(own, m), first).conversations == db.conversations[own.value.id := own.value]
  {
    hide Rows, Numbered, Writes, OwnConversation;
    Written(own, m);
    assert db.messages + map[m.id := m] == db.messages[m.id := m];
    assert db.conversations + map[] == db.conversations;
  }

  lemma GreetingIsCommitted() returns (actions: seq<ChatStore.Action>, s: Store)
    ensures Reaches(Init(), actions, s) && s.procs.Keys == {0}
    ensures Here(s, 0, Send(ALICE, GREETING), 0, Committed(SendDone(HELLO, true)))
    ensures s.db.messages == map[7 := HELLO] && s.db.conversations == map[5 := CHAT]
  {
    hide Reaches, Enabled, Apply, Install, Here;
    assert HELLO.id == 7 && CHAT.id == 5;
    var first: nat;
    actions, s, first := WaitingIsReachable();
    Installed(s.db, Some(CHAT), HELLO, first);
    actions, s := CommitNow(actions, s, 0, ALICE, GREETING, NewMessage(Some(CHAT), HELLO), first);
  }

  /** Three messages in one conversation; the second is stamped before the third and commits after it. */
  lemma OvertakenIsReachable() returns (actions: seq<ChatStore.Action>, s: Store, s': Store)
    ensures Reaches(Init(), actions, s) && Reaches(s, [Commit(1, true)], s')
    ensures s.db.messages == map[7 := HELLO, 9 := QUICK_ROW] && s'.db.messages == map[7 := HELLO, 9 := QUICK_ROW, 8 := SLOW_ROW]
    ensures s.db.conversations == map[5 := CHAT] && s'.db.conversations == map[5 := CHAT]
  {
    hide Reaches, Enabled, Apply, Install, Clear, ClientIdTaken, SortedPair, FreshConversation;
    var second: nat, third: nat;
    actions, s := GreetingIsCommitted();
    PairOfChat();
    ClearAfterFirst(s);
    Untaken(s.db);
    actions, s, second := SendUntilCommit(Init(), actions, s, 1, ALICE, SLOW, 5, 8, SECOND);
    ClearAfterSecond(s, second);
    actions, s, third := SendUntilCommit(Init(), actions, s, 2, BOB, QUICK, 5, 9, THIRD);
    Installed(s.db, None, QUICK_ROW, third);
    actions, s := CommitNow(actions, s, 2, BOB, QUICK, NewMessage(None, QUICK_ROW), third);
    Installed(s.db, None, SLOW_ROW, second);
    var more: seq<ChatStore.Action>;
    more, s' := CommitNow(actions, s, 1, ALICE, SLOW, NewMessage(None, SLOW_ROW), second);
  }

  lemma PairOfChat()
    ensures (CHAT.userA, CHAT.userB) == SortedPair(ALICE, BOB) == SortedPair(BOB, ALICE) && CHAT.Has(BOB)
  {
    SortedPairIsUnordered(ALICE, BOB);
    SortedPairIsUnordered(BOB, ALICE);
  }

  lemma Untaken(db: Db)
    requires db.messages == map[7 := HELLO]
    ensures !ClientIdTaken(db, ALICE, SLOW.clientId) && !ClientIdTaken(db, BOB, QUICK.clientId)
  {
  }

  // ---- the client

  lemma SmallAbove(ms: set<Message>, k: Key, limit: nat)
    requires |ms| <= limit
    ensures |Above(ms, k)| <= limit
  {
    SubsetSize(Above(ms, k), ms);
  }

  lemma NoMoreThan(db: Db, limit: nat, cursor: string)
    requires RowIds(db) && Member(db, BOB, 5) && ValidCursor(cursor) && |MessagesIn(db, 5)| <= limit
    ensures Reply(Request(db, limit), BOB, 5, cursor).Ok? && !Reply(Request(db, limit), BOB, 5, cursor).value.hasMore
  {
    hide KeyOf, Member, SyncPage, Ascends, Within, Above, MessagesIn;
    ReplyIsPage(Request(db, limit), BOB, 5, cursor);
    SyncPageIsInterval(MessagesIn(db, 5), limit, KeyOf(cursor).value, cursor);
    SmallAbove(MessagesIn(db, 5), KeyOf(cursor).value, limit);
  }

  lemma KeysInOrder()
    ensures KeyLess(HELLO.Key(), SLOW_ROW.Key()) && KeyLess(SLOW_ROW.Key(), QUICK_ROW.Key())
  {
  }

  /** The state in which the message was written but not committed, and the one after its commit. */
  predicate Overtaken(db: Db, db': Db) {
    && db.messages == map[7 := HELLO, 9 := QUICK_ROW]
    && db'.messages == map[7 := HELLO, 9 := QUICK_ROW, 8 := SLOW_ROW]
    && db.conversations == map[5 := CHAT] && db'.conversations == map[5 := CHAT]
  }

  lemma TablesOf(db: Db, db': Db)
    requires Overtaken(db, db')
    ensures RowIds(db) && RowIds(db') && Member(db, BOB, 5) && Member(db', BOB, 5)
    ensures MessagesIn(db, 5) == {HELLO, QUICK_ROW} && MessagesIn(db', 5) == {HELLO, QUICK_ROW, SLOW_ROW}
    ensures Holds(db', 5, 8) && db'.messages[8] == SLOW_ROW && !Holds(db, 5, 8)
  {
    hide SortedPair;
    PairOfChat();
    assert db.messages[7] in MessagesIn(db, 5) && db.messages[9] in MessagesIn(db, 5);
    assert db'.messages[7] in MessagesIn(db', 5) && db'.messages[9] in MessagesIn(db', 5) && db'.messages[8] in MessagesIn(db', 5);
  }

  /** What the client knows after its first request is already past the message to come. */
  lemma CursorPasses(db: Db, db': Db, cursor: string)
    requires Overtaken(db, db') && RowIds(db) && Member(db, BOB, 5) && ValidCursor(cursor) && KeyOf(cursor) == Some(HELLO.Key())
    ensures var next := Paging.Next(Request(db, 50), BOB, 5, cursor);
            ValidCursor(next) && KeyAtMost(SLOW_ROW.Key(), KeyOf(next).value)
  {
    hide KeyOf, Member, ListMessages, KeyLess, Paging.Next, Reply;
    TablesOf(db, db');
    KeysInOrder();
    var r := Request(db, 50);
    RequestServed(r, BOB, 5, cursor);
    NoMoreThan(db, 50, cursor);
    KeyLessIsTransitive(HELLO.Key(), SLOW_ROW.Key(), QUICK_ROW.Key());
    assert QUICK_ROW in Above(MessagesIn(db, 5), HELLO.Key());
    assert Within(QUICK_ROW, HELLO.Key(), KeyOf(Paging.Next(r, BOB, 5, cursor)).value);
    KeyLessIsTransitive(KeyOf(Paging.Next(r, BOB, 5, cursor)).value, SLOW_ROW.Key(), QUICK_ROW.Key());
  }

  /** "Replays everything committed since their last-seen message" fails: Bob, who has seen the first
      message, asks while Alice's second waits for its commit, and asks again when it is committed. He
      is told that there is no more, and has not received it. */
  lemma CommittedMessageIsMissed() returns (actions: seq<ChatStore.Action>, s: Store, s': Store, requests: seq<Request>)
    ensures Reaches(Init(), actions, s) && Reaches(s, [Commit(1, true)], s')
    ensures requests == [Request(s.db, 50), Request(s'.db, 50)] && Served(requests, BOB, 5)
    ensures Paging.Finished(requests, BOB, 5, CursorOf(HELLO))
    ensures 8 in s'.db.messages && s'.db.messages[8].recipient == BOB && KeyLess(HELLO.Key(), s'.db.messages[8].Key())
    ensures !Receives(Sync(requests, BOB, 5, CursorOf(HELLO)), 8)
  {
    hide Reaches, ListMessages, CursorOf, KeyOf, Member, Evolves, KeyLess, KeyAtMost, Sync, MessagesIn, Reply, Inv;
    actions, s, s' := OvertakenIsReachable();
    ReachableOk(actions, s);
    RunOk(s, [Commit(1, true)], s');
    EvolvesIsReflexive(s.db);
    EvolvesIsReflexive(s'.db);
    TablesOf(s.db, s'.db);
    CursorNamesKey(HELLO);
    var cursor := CursorOf(HELLO);
    CursorPasses(s.db, s'.db, cursor);
    KeysInOrder();
    requests := [Request(s.db, 50), Request(s'.db, 50)];
    var next := Paging.Next(requests[0], BOB, 5, cursor);
    CursorAfterOne(requests, cursor);
    NoMoreThan(s'.db, 50, next);
    LateMessageIsSkipped(requests, BOB, 5, cursor, 1, 8);
  }

  lemma CursorAfterOne(requests: seq<Request>, cursor: string)
    requires |requests| == 2 && forall r <- requests :: RowIds(r.db)
    ensures CursorAfter(requests, 1, BOB, 5, cursor) == Paging.Next(requests[0], BOB, 5, cursor)
  {
    hide Paging.Next;
  }
}
