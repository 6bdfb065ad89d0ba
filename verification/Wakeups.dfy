/** From a request's commit to its relay's wakeup: `on_commit` is the relay's `notify` of the same
    replica (app/api/deps.py), and what a blocked relay can still have pending. */
module Wakeups {
  import opened Basics
  import opened Models
  import opened Pipeline
  import opened PipelineInvariant
  import opened PipelineTheorems
  import ChatStore
  import ChatInvariant
  import ChatSteps
  import RelayNet
  import RelayInvariant
  import RelayTheorems
  import StageOrder

  /** Request `p` has committed row `i`. */
  predicate Owns(w: World, p: nat, i: nat) {
    p in w.rowsOf && i in w.rowsOf[p]
  }

  /** The request has committed and not yet notified, or it never learned that it had committed. */
  predicate Unnotified(pc: ChatStore.Pc) {
    pc.Committed? || pc == ChatStore.Done(ChatStore.Failed(Unavailable))
  }

  predicate OwnerOk(w: World, p: nat)
    requires p in w.rowsOf
  {
    && p in w.store.procs && ChatStore.Finished(w.store.procs[p].pc)
    && forall i | i in w.rowsOf[p] ::
         && i in w.net.home && w.net.home[i] == w.store.procs[p].replica
         && (i in w.net.silent ==> Unnotified(w.store.procs[p].pc))
  }

  ghost predicate Owned(w: World, i: nat) {
    exists p :: Owns(w, p, i)
  }

  ghost predicate OwnersOk(w: World) {
    && (forall p | p in w.rowsOf :: OwnerOk(w, p))
    && forall i | i in w.store.db.log :: Owned(w, i)
  }

  // ---- steps

  /** Requests that have finished move no more, except to notify. */
  lemma FinishedStays(s: ChatStore.Store, a: ChatStore.Action, p: nat)
    requires ChatStore.Enabled(s, a) && p in s.procs && ChatStore.Finished(s.procs[p].pc) && !a.Notify?
    ensures p in ChatStore.Apply(s, a).procs && ChatStore.Apply(s, a).procs[p] == s.procs[p] && a.p != p
  {
    hide ChatStore.Move, ChatStore.Rows, ChatStore.Install, ChatStore.LookupFinds, ChatStore.PairHeld, ChatStore.ClientIdHeld, ChatStore.RowHeld;
  }

  lemma CommitOwners(w: World, p: nat, acknowledged: bool)
    requires Inv(w) && OwnersOk(w) && ChatStore.Enabled(w.store, ChatStore.Commit(p, acknowledged))
    ensures OwnersOk(ApplyChat(w, ChatStore.Commit(p, acknowledged)))
  {
    hide Inv, ApplyChat, ChatStore.Enabled, ChatStore.Apply, RelayNet.Enabled, OwnerOk, Owned;
    var w' := ApplyChat(w, ChatStore.Commit(p, acknowledged));
    forall q | q in w'.rowsOf ensures OwnerOk(w', q) {
      if q == p {
        CommittedOwner(w, p, acknowledged);
      } else {
        KeptOwner(w, p, acknowledged, q);
      }
    }
    forall i | i in w'.store.db.log ensures Owned(w', i) {
      CommitOwned(w, p, acknowledged, i);
    }
  }

  lemma CommitRowsOf(w: World, p: nat, acknowledged: bool)
    requires ChatStore.Enabled(w.store, ChatStore.Commit(p, acknowledged))
    ensures p in w.store.procs && w.store.procs[p].pc.Flushed?
    ensures ApplyChat(w, ChatStore.Commit(p, acknowledged)).rowsOf == w.rowsOf[p := StageOrder.Added(w.store, p).Keys]
  {
    hide ChatStore.Apply, ChatStore.Rows, ChatStore.Numbered, ChatStore.Install, RelayNet.Enabled, RelayNet.Apply;
  }

  lemma KeptOwner(w: World, p: nat, acknowledged: bool, q: nat)
    requires Inv(w) && OwnersOk(w) && ChatStore.Enabled(w.store, ChatStore.Commit(p, acknowledged)) && q != p
    requires q in ApplyChat(w, ChatStore.Commit(p, acknowledged)).rowsOf
    ensures OwnerOk(ApplyChat(w, ChatStore.Commit(p, acknowledged)), q)
  {
    hide Inv, ChatInvariant.Inv, StageOrder.Added, ChatStore.Enabled, ChatStore.Apply, RelayNet.Apply, RelayNet.Enabled, RelayInvariant.TablesOk, OwnerOk, Owned;
    StageOrder.CommitHint(w, p, acknowledged);
    StageOrder.AddedToLog(w.store, p, acknowledged);
    StageOrder.AddedIsNew(w.store, p);
    CommitRowsOf(w, p, acknowledged);
    assert OwnerOk(w, q);
    OtherOwner(w, ApplyChat(w, ChatStore.Commit(p, acknowledged)), ChatStore.Commit(p, acknowledged), q, StageOrder.Added(w.store, p));
  }

  lemma CommitOwned(w: World, p: nat, acknowledged: bool, i: nat)
    requires OwnersOk(w) && ChatStore.Enabled(w.store, ChatStore.Commit(p, acknowledged))
    requires i in ApplyChat(w, ChatStore.Commit(p, acknowledged)).store.db.log
    ensures Owned(ApplyChat(w, ChatStore.Commit(p, acknowledged)), i)
  {
    hide StageOrder.Added, ChatStore.Enabled, ChatStore.Apply, RelayNet.Apply, RelayNet.Enabled, OwnerOk, ApplyHint;
    var w' := ApplyChat(w, ChatStore.Commit(p, acknowledged));
    StageOrder.AddedToLog(w.store, p, acknowledged);
    CommitRowsOf(w, p, acknowledged);
    if i in StageOrder.Added(w.store, p) {
      assert Owns(w', p, i);
    } else {
      var q :| Owns(w, q, i);
      assert OwnerOk(w, q);
      NotFlushed(w, q);
      assert Owns(w', q, i);
    }
  }

  lemma NotFlushed(w: World, q: nat)
    requires q in w.rowsOf && OwnerOk(w, q)
    ensures q in w.store.procs && !w.store.procs[q].pc.Flushed?
  {
  }

  lemma CommitFinishes(s: ChatStore.Store, p: nat, acknowledged: bool)
    requires ChatStore.Enabled(s, ChatStore.Commit(p, acknowledged))
    ensures var s' := ChatStore.Apply(s, ChatStore.Commit(p, acknowledged));
            && p in s.procs && p in s'.procs && s'.procs[p].replica == s.procs[p].replica
            && ChatStore.Finished(s'.procs[p].pc) && Unnotified(s'.procs[p].pc)
  {
    hide ChatStore.Rows, ChatStore.Numbered, ChatStore.Install, ChatStore.Answer;
  }

  lemma AddedHomes(n: RelayNet.Net, replica: nat, added: Log)
    requires RelayNet.Enabled(n, RelayNet.CommitRows(replica, added))
    ensures var n' := RelayNet.Apply(n, RelayNet.CommitRows(replica, added));
            forall i | i in added :: i in n'.home && n'.home[i] == replica
  {
  }

  lemma CommittedOwner(w: World, p: nat, acknowledged: bool)
    requires Inv(w) && ChatStore.Enabled(w.store, ChatStore.Commit(p, acknowledged))
    ensures var w' := ApplyChat(w, ChatStore.Commit(p, acknowledged)); p in w'.rowsOf && OwnerOk(w', p)
  {
    hide Inv, ChatStore.Enabled, ChatStore.Apply, ChatStore.Rows, ChatStore.Numbered, RelayNet.Apply, RelayNet.Enabled;
    StageOrder.CommitHint(w, p, acknowledged);
    CommitFinishes(w.store, p, acknowledged);
    AddedHomes(w.net, w.store.procs[p].replica, StageOrder.Added(w.store, p));
  }

  lemma OtherOwner(w: World, w': World, a: ChatStore.Action, q: nat, added: Log)
    requires q in w.rowsOf && OwnerOk(w, q) && ChatStore.Enabled(w.store, a) && a.Commit?
    requires q in w'.rowsOf && w'.rowsOf[q] == w.rowsOf[q] && w'.store == ChatStore.Apply(w.store, a)
    requires RelayInvariant.TablesOk(w.net) && added.Keys !! w.net.rows.Keys
    requires exists replica :: RelayNet.Enabled(w.net, RelayNet.CommitRows(replica, added)) && w'.net == RelayNet.Apply(w.net, RelayNet.CommitRows(replica, added))
    ensures OwnerOk(w', q)
  {
    hide ChatStore.Enabled, ChatStore.Apply;
    FinishedStays(w.store, a, q);
  }

  lemma NotifyOwners(w: World, p: nat)
    requires Inv(w) && OwnersOk(w) && ChatStore.Enabled(w.store, ChatStore.Notify(p))
    ensures OwnersOk(ApplyChat(w, ChatStore.Notify(p)))
  {
    hide Inv, OwnerOk, ChatStore.Enabled, ChatStore.Apply;
    var w' := ApplyChat(w, ChatStore.Notify(p));
    NotifyKeepsTables(w, p);
    forall q | q in w'.rowsOf ensures OwnerOk(w', q) {
      assert OwnerOk(w, q);
      NotifiedOwner(w, p, q);
    }
    forall i | i in w'.store.db.log ensures Owned(w', i) {
      var q :| Owns(w, q, i);
      assert Owns(w', q, i);
    }
  }

  lemma NotifyKeepsTables(w: World, p: nat)
    requires ChatStore.Enabled(w.store, ChatStore.Notify(p))
    ensures ApplyChat(w, ChatStore.Notify(p)).store.db == w.store.db && ApplyChat(w, ChatStore.Notify(p)).rowsOf == w.rowsOf
  {
  }

  lemma NotifiedOwner(w: World, p: nat, q: nat)
    requires ChatStore.Enabled(w.store, ChatStore.Notify(p)) && q in w.rowsOf && OwnerOk(w, q)
    ensures q in ApplyChat(w, ChatStore.Notify(p)).rowsOf && OwnerOk(ApplyChat(w, ChatStore.Notify(p)), q)
  {
  }

  lemma OtherChatOwners(w: World, a: ChatStore.Action)
    requires OwnersOk(w) && ChatStore.Enabled(w.store, a) && !a.Commit? && !a.Notify?
    ensures OwnersOk(ApplyChat(w, a))
  {
    hide ChatStore.Enabled, ChatStore.Apply;
    var w' := ApplyChat(w, a);
    assert w'.net == w.net && w'.rowsOf == w.rowsOf;
    ChatSteps.StepTables(w.store, a);
    forall q | q in w'.rowsOf ensures OwnerOk(w', q) {
      assert OwnerOk(w, q);
      FinishedStays(w.store, a, q);
    }
    forall i | i in w'.store.db.log ensures Owned(w', i) {
      var q :| Owns(w, q, i);
      assert Owns(w', q, i);
    }
  }

  lemma RelayKeepsHomes(n: RelayNet.Net, a: RelayNet.Action)
    requires RelayNet.Enabled(n, a) && !a.CommitRows? && !a.Notify?
    ensures RelayNet.Apply(n, a).home == n.home && RelayNet.Apply(n, a).silent == n.silent
  {
    hide RelayNet.Publish, RelayNet.Scan, RelayNet.Locks;
  }

  /** What no step outside the chat store touches. */
  lemma OtherStepsKeepOwners(w: World, a: Action)
    requires Enabled(w, a) && !a.Chat?
    ensures var w' := Apply(w, a);
            && w'.store == w.store && w'.rowsOf == w.rowsOf
            && w'.net.home == w.net.home && w'.net.silent == w.net.silent
  {
    hide ApplyReplica, ApplyChat, FreshReplica, Broadcast, RelayNet.Apply, RelayNet.Enabled;
    if a.Relaying? {
      RelayKeepsHomes(w.net, a.relay);
    }
  }

  lemma OwnersStep(w: World, a: Action)
    requires Inv(w) && OwnersOk(w) && Enabled(w, a)
    ensures OwnersOk(Apply(w, a))
  {
    hide Inv, Enabled, Apply, ApplyChat, OwnerOk, OwnersOk, ChatStore.Enabled;
    if a.Chat? {
      ChatOwners(w, a);
    } else {
      OtherStepsKeepOwners(w, a);
      SameOwners(w, Apply(w, a));
    }
  }

  lemma ChatOwners(w: World, a: Action)
    requires Inv(w) && OwnersOk(w) && Enabled(w, a) && a.Chat?
    ensures OwnersOk(Apply(w, a))
  {
    hide Inv, ApplyChat, OwnersOk, ChatStore.Enabled;
    match a.chat {
      case Commit(p, acknowledged) => CommitOwners(w, p, acknowledged);
      case Notify(p) => NotifyOwners(w, p);
      case _ => OtherChatOwners(w, a.chat);
    }
  }

  lemma SameOwners(w: World, w': World)
    requires OwnersOk(w) && w'.store == w.store && w'.rowsOf == w.rowsOf
    requires w'.net.home == w.net.home && w'.net.silent == w.net.silent
    ensures OwnersOk(w')
  {
    forall q | q in w'.rowsOf ensures OwnerOk(w', q) {
      assert OwnerOk(w, q);
    }
    forall i | i in w'.store.db.log ensures Owned(w', i) {
      var q :| Owns(w, q, i);
      assert Owns(w', q, i);
    }
  }

  lemma {:induction false} OwnersRun(w: World, actions: seq<Action>, w': World)
    requires Inv(w) && OwnersOk(w) && Reaches(w, actions, w')
    ensures OwnersOk(w')
    decreases |actions|
  {
    hide Inv, OwnersOk, Enabled, Apply;
    if actions != [] {
      StepOk(w, actions[0]);
      OwnersStep(w, actions[0]);
      OwnersRun(Apply(w, actions[0]), actions[1..], w');
    }
  }

  // ---- blocked relays

  /** In every run of the pipeline, while a relay is blocked, a pending row of its own replica was locked by
      another relay when this one looked, unless the request that committed it has not yet notified or
      never learned that it had committed. */
  lemma NoLostWakeup(batch: nat, names: map<nat, string>, actions: seq<Action>, w: World, r: nat, i: nat) returns (p: nat)
    requires 0 < batch && Reaches(Init(batch, names), actions, w)
    requires r in w.net.relays && RelayNet.Blocked(w.net.relays[r])
    requires i in RelayNet.Pending(w.net) && i in w.net.home && w.net.home[i] == r
    ensures p in w.store.procs && Owns(w, p, i) && w.store.procs[p].replica == r
    ensures i in w.net.relays[r].skipped || Unnotified(w.store.procs[p].pc)
  {
    hide Inv, Reaches, OwnerOk, RelayNet.Reaches, RelayNet.Pending, RelayNet.Blocked;
    var start := Init(batch, names);
    InitOk(batch, names);
    RunOk(start, actions, w);
    OwnersRun(start, actions, w);
    var steps := StageOrder.RelayRun(start, actions, w);
    RelayTheorems.NoLostWakeup(batch, names.Keys, steps, w.net, r, i);
    PendingIsLogged(w, i);
    p :| Owns(w, p, i);
    assert OwnerOk(w, p);
    OwnerOfRow(w, p, i);
  }

  lemma PendingIsLogged(w: World, i: nat)
    requires Inv(w) && i in RelayNet.Pending(w.net)
    ensures i in w.store.db.log
  {
    hide ChatInvariant.Inv, ReplicaOk, RelayInvariant.OnBus, RelayInvariant.CopiesBounded, RelayInvariant.AllNoticed,
      RelayInvariant.LocksDisjoint, RelayInvariant.PhaseOk;
  }

  lemma OwnerOfRow(w: World, p: nat, i: nat)
    requires Owns(w, p, i) && OwnerOk(w, p)
    ensures p in w.store.procs && i in w.net.home && w.net.home[i] == w.store.procs[p].replica
    ensures i in w.net.silent ==> Unnotified(w.store.procs[p].pc)
  {
  }

  /** A request that was answered has woken its relay: while the relay of its replica is blocked, each of
      its rows has been published or was locked by another relay when this one looked. */
  lemma AnsweredRequestsAreNoticed(batch: nat, names: map<nat, string>, actions: seq<Action>, w: World, p: nat, i: nat)
    requires 0 < batch && Reaches(Init(batch, names), actions, w)
    requires p in w.store.procs && w.store.procs[p].pc.Done? && w.store.procs[p].pc.response != ChatStore.Failed(Unavailable)
    requires Owns(w, p, i)
    ensures i in w.net.home && w.net.home[i] == w.store.procs[p].replica
    ensures var r := w.store.procs[p].replica;
            r in w.net.relays && RelayNet.Blocked(w.net.relays[r]) && i in RelayNet.Pending(w.net) ==> i in w.net.relays[r].skipped
  {
    hide Inv, Reaches, OwnerOk, RelayNet.Reaches, RelayNet.Pending, RelayNet.Blocked;
    var start, r := Init(batch, names), w.store.procs[p].replica;
    InitOk(batch, names);
    RunOk(start, actions, w);
    OwnersRun(start, actions, w);
    assert OwnerOk(w, p);
    OwnerOfRow(w, p, i);
    if r in w.net.relays && RelayNet.Blocked(w.net.relays[r]) && i in RelayNet.Pending(w.net) {
      var steps := StageOrder.RelayRun(start, actions, w);
      RelayTheorems.NoLostWakeup(batch, names.Keys, steps, w.net, r, i);
    }
  }
}
