/** Catch-up against the service itself: a client's requests between the steps of a run in which messages
    become visible in key order. */
module CatchUps {
  import opened Basics
  import opened Clock
  import opened Uuids
  import opened Models
  import opened ChatStore
  import opened ChatInvariant
  import opened ChatCommits
  import opened KeySets
  import opened KeyOrder
  import opened Paging

  // ---- what becomes visible later has a larger key

  lemma AppearsWithCommit(s: Store, a: ChatStore.Action, conversation: Uuid, prior: Uuid, later: Uuid)
    requires Inv(s) && Enabled(s, a) && InKeyOrder(s, a)
    requires Holds(s.db, conversation, prior) && Holds(Apply(s, a).db, conversation, later) && !Holds(s.db, conversation, later)
    ensures KeyLess(s.db.messages[prior].Key(), Apply(s, a).db.messages[later].Key())
  {
    hide Inv, Enabled, Apply, Install, WorkOk, MessagesOk, Evolves, KeyLess;
    if a.Commit? {
      KeyedCommit(s, a);
      AppearsInstalled(s.db, s.procs[a.p].call, s.procs[a.p].pc.work, s.procs[a.p].pc.first, conversation, later);
    } else {
      OtherStepsKeepDb(s, a);
    }
  }

  lemma AppearsInstalled(db: Db, call: Call, w: Work, first: nat, conversation: Uuid, later: Uuid)
    requires WorkOk(db, call, w) && MessagesOk(db) && Evolves(db, Install(db, w, first))
    requires Holds(Install(db, w, first), conversation, later) && !Holds(db, conversation, later)
    ensures w.NewMessage? && later == w.message.id && w.message.conversation == conversation
    ensures Install(db, w, first).messages[later] == w.message
  {
    hide WorkOk, MessagesOk, Evolves, Rows, Numbered;
    if later in db.messages {
      KeepsBoth(db, Install(db, w, first), later, later);
    } else {
      WrittenIds(db, call, w, later);
    }
  }

  lemma {:induction false} LaterIsAbove(s: Store, actions: seq<ChatStore.Action>, s': Store, conversation: Uuid, prior: Uuid, later: Uuid)
    requires Inv(s) && ReachesInKeyOrder(s, actions, s')
    requires Holds(s.db, conversation, prior) && Holds(s'.db, conversation, later) && !Holds(s.db, conversation, later)
    ensures KeyLess(s.db.messages[prior].Key(), s'.db.messages[later].Key())
    decreases |actions|
  {
    hide Inv, Enabled, Apply, InKeyOrder, Evolves, KeyLess;
    var a, next := actions[0], Apply(s, actions[0]);
    StepOk(s, a);
    HoldsOn(s.db, next.db, conversation, prior);
    if Holds(next.db, conversation, later) {
      AppearsWithCommit(s, a, conversation, prior, later);
      KeyedRunOk(next, actions[1..], s');
      HoldsOn(next.db, s'.db, conversation, later);
    } else {
      LaterIsAbove(next, actions[1..], s', conversation, prior, later);
    }
  }

  lemma {:induction false} KeyedRunOk(s: Store, actions: seq<ChatStore.Action>, s': Store)
    requires Inv(s) && ReachesInKeyOrder(s, actions, s')
    ensures Inv(s') && Evolves(s.db, s'.db)
    decreases |actions|
  {
    hide Inv, Enabled, Apply, InKeyOrder, Evolves;
    if actions == [] {
      EvolvesIsReflexive(s.db);
    } else {
      StepOk(s, actions[0]);
      KeyedRunOk(Apply(s, actions[0]), actions[1..], s');
      EvolvesIsTransitive(s.db, Apply(s, actions[0]).db, s'.db);
    }
  }

  // ---- a client's requests

  function Before(stores: seq<Store>, i: nat): Store
    requires i <= |stores|
  {
    if i == 0 then Init() else stores[i - 1]
  }

  /** The service runs in key order from empty tables, and request `i` is served in `stores[i]`. */
  ghost predicate AskedDuring(stores: seq<Store>, runs: seq<seq<ChatStore.Action>>, requests: seq<Request>) {
    && |stores| == |runs| == |requests|
    && (forall i | 0 <= i < |stores| :: ReachesInKeyOrder(Before(stores, i), runs[i], stores[i]))
    && forall i | 0 <= i < |stores| :: requests[i].db == stores[i].db
  }

  lemma IdsAgree(s: Store)
    requires Inv(s)
    ensures RowIds(s.db)
  {
    hide ConversationsOk, LogOk, ProcsOk, ClientIdIsUnique, Between, Stamped;
    forall id | id in s.db.messages ensures s.db.messages[id].id == id {
      assert MessageOk(s.db, id);
    }
  }

  lemma StaysMember(db: Db, db': Db, user: UserId, conversation: Uuid)
    requires Evolves(db, db') && Member(db, user, conversation)
    ensures Member(db', user, conversation)
  {
    assert KeepsConversation(db, db', conversation);
  }

  lemma SameTables(stores: seq<Store>, runs: seq<seq<ChatStore.Action>>, requests: seq<Request>, i: nat)
    requires AskedDuring(stores, runs, requests) && i < |requests|
    ensures |stores| == |requests| && |runs| == |requests| && requests[i].db == stores[i].db
    ensures ReachesInKeyOrder(Before(stores, i), runs[i], stores[i])
  {
    hide ReachesInKeyOrder;
  }

  lemma {:induction false} StoresOk(stores: seq<Store>, runs: seq<seq<ChatStore.Action>>, requests: seq<Request>, i: nat, j: nat)
    requires AskedDuring(stores, runs, requests) && i <= j < |requests|
    ensures |stores| == |requests|
    ensures Inv(stores[i]) && Inv(stores[j]) && Evolves(stores[i].db, stores[j].db)
    decreases i + j
  {
    hide Inv, Evolves, AskedDuring, ReachesInKeyOrder, Init;
    SameTables(stores, runs, requests, j);
    if j == 0 {
      InitOk();
      KeyedRunOk(Before(stores, 0), runs[0], stores[0]);
      EvolvesIsReflexive(stores[0].db);
    } else if i == j {
      StoresOk(stores, runs, requests, j - 1, j - 1);
      KeyedRunOk(Before(stores, j), runs[j], stores[j]);
      EvolvesIsReflexive(stores[j].db);
    } else {
      StoresOk(stores, runs, requests, i, j - 1);
      KeyedRunOk(Before(stores, j), runs[j], stores[j]);
      EvolvesIsTransitive(stores[i].db, stores[j - 1].db, stores[j].db);
    }
  }

  lemma IsServed(stores: seq<Store>, runs: seq<seq<ChatStore.Action>>, requests: seq<Request>, user: UserId, conversation: Uuid, i: nat)
    requires AskedDuring(stores, runs, requests) && i < |requests| && Member(requests[0].db, user, conversation)
    ensures RowIds(requests[i].db) && Member(requests[i].db, user, conversation)
  {
    hide Inv, Evolves, AskedDuring, Member, RowIds;
    SameTables(stores, runs, requests, 0);
    SameTables(stores, runs, requests, i);
    StoresOk(stores, runs, requests, 0, i);
    IdsAgree(stores[i]);
    StaysMember(stores[0].db, stores[i].db, user, conversation);
  }

  lemma IsNotOvertaken(stores: seq<Store>, runs: seq<seq<ChatStore.Action>>, requests: seq<Request>, conversation: Uuid, i: nat, prior: Uuid, later: Uuid)
    requires AskedDuring(stores, runs, requests) && 0 < i < |requests|
    ensures !Overtakes(requests, conversation, i, prior, later)
  {
    hide Inv, Evolves, AskedDuring, ReachesInKeyOrder, KeyLess, Holds;
    SameTables(stores, runs, requests, i - 1);
    SameTables(stores, runs, requests, i);
    if Holds(stores[i - 1].db, conversation, prior) && Holds(stores[i].db, conversation, later) && !Holds(stores[i - 1].db, conversation, later) {
      StoresOk(stores, runs, requests, i - 1, i);
      LaterIsAbove(Before(stores, i), runs[i], stores[i], conversation, prior, later);
    }
  }

  lemma AreServed(stores: seq<Store>, runs: seq<seq<ChatStore.Action>>, requests: seq<Request>, user: UserId, conversation: Uuid)
    requires AskedDuring(stores, runs, requests) && requests != [] && Member(requests[0].db, user, conversation)
    ensures Served(requests, user, conversation) && ArrivesInKeyOrder(requests, conversation)
  {
    hide Inv, Evolves, AskedDuring, Member, RowIds, Overtakes;
    forall i | 0 <= i < |requests| ensures RowIds(requests[i].db) && Member(requests[i].db, user, conversation) {
      IsServed(stores, runs, requests, user, conversation, i);
    }
    forall i, j | 0 <= i <= j < |requests| ensures Evolves(requests[i].db, requests[j].db) {
      SameTables(stores, runs, requests, i);
      SameTables(stores, runs, requests, j);
      StoresOk(stores, runs, requests, i, j);
    }
    forall i, prior, later | 0 < i < |requests| ensures !Overtakes(requests, conversation, i, prior, later) {
      IsNotOvertaken(stores, runs, requests, conversation, i, prior, later);
    }
  }

  /** In every run of the service in which messages become visible in key order, a client that keeps
      sending back the cursor it is handed has received, once it is told that there is no more, exactly the
      messages above its first cursor. */
  lemma CatchUpDuringRuns(stores: seq<Store>, runs: seq<seq<ChatStore.Action>>, requests: seq<Request>,
                          user: UserId, conversation: Uuid, cursor: string, f: nat, id: Uuid)
    requires AskedDuring(stores, runs, requests) && requests != [] && Member(requests[0].db, user, conversation)
    requires NamesMessage(requests[0].db, conversation, cursor)
    requires f < |requests| && Holds(requests[f].db, conversation, id)
    requires forall i | 0 <= i < f :: !Holds(requests[i].db, conversation, id)
    ensures Served(requests, user, conversation)
    ensures Paging.Finished(requests, user, conversation, cursor) ==>
              (Receives(Sync(requests, user, conversation, cursor), id)
               <==> KeyLess(KeyOf(cursor).value, requests[f].db.messages[id].Key()))
  {
    hide AskedDuring, ListMessages, KeyOf, Sync, Served, Paging.Finished, ArrivesInKeyOrder, NamesMessage, Member;
    AreServed(stores, runs, requests, user, conversation);
    if Paging.Finished(requests, user, conversation, cursor) {
      CatchUpIsComplete(requests, user, conversation, cursor, f, id);
    }
  }
}
