/** A run of the pipeline is a run of the chat store and a run of the relays, so what is proved of the
    parts holds of the whole; and with one relay a message's stages reach the bus in order. */
module StageOrder {
  import opened Basics
  import opened Uuids
  import opened Models
  import opened Pipeline
  import opened PipelineInvariant
  import ChatStore
  import ChatInvariant
  import ChatCommits
  import RelayNet
  import RelayInvariant
  import RelayTheorems

  // ---- projections

  lemma {:induction false} StoreRun(w: World, actions: seq<Action>, w': World) returns (chats: seq<ChatStore.Action>)
    requires Reaches(w, actions, w')
    ensures ChatStore.Reaches(w.store, chats, w'.store)
    decreases |actions|
  {
    hide ChatStore.Enabled, ChatStore.Apply, ApplyReplica, RelayNet.Enabled, ApplyHint, Hint, Broadcast;
    chats := [];
    if actions != [] {
      var rest := StoreRun(Apply(w, actions[0]), actions[1..], w');
      if actions[0].Chat? {
        chats := [actions[0].chat] + rest;
        assert chats[1..] == rest;
      } else {
        chats := rest;
      }
    }
  }

  lemma {:induction false} RelayRun(w: World, actions: seq<Action>, w': World) returns (steps: seq<RelayNet.Action>)
    requires Inv(w) && Reaches(w, actions, w')
    ensures RelayNet.Reaches(w.net, steps, w'.net)
    decreases |actions|
  {
    hide Inv, Enabled, Apply, RelayNet.Enabled, RelayNet.Apply;
    steps := [];
    if actions != [] {
      StepOk(w, actions[0]);
      var rest := RelayRun(Apply(w, actions[0]), actions[1..], w');
      var step := RelayStep(w, actions[0]);
      if step.Some? {
        steps := [step.value] + rest;
        assert steps[1..] == rest;
      } else {
        steps := rest;
      }
    }
  }

  lemma RelayStep(w: World, a: Action) returns (step: Option<RelayNet.Action>)
    requires Inv(w) && Enabled(w, a)
    ensures step.None? ==> Apply(w, a).net == w.net
    ensures step.Some? ==> RelayNet.Enabled(w.net, step.value) && Apply(w, a).net == RelayNet.Apply(w.net, step.value)
  {
    hide Inv, ChatStore.Apply, ApplyReplica, RelayNet.Enabled, RelayNet.Apply, Hint, Broadcast;
    step := None;
    if a.Chat? {
      step := Hint(w, a.chat);
      if step.Some? {
        HintIsEnabled(w, a.chat);
      }
    } else if a.Relaying? {
      step := Some(a.relay);
    }
  }

  // ---- commit order follows the stages

  /** Row `j` announces a later stage of message `id` than row `i`. */
  predicate LaterStage(log: Log, i: nat, j: nat, id: Uuid) {
    && i in log && j in log
    && var a, b := ChatInvariant.StageOf(log[i].payload, id), ChatInvariant.StageOf(log[j].payload, id);
    a.Some? && b.Some? && Rank(a.value) < Rank(b.value)
  }

  predicate CommittedNoLater(n: RelayNet.Net, i: nat, j: nat) {
    i in n.stamp && j in n.stamp && n.stamp[i] <= n.stamp[j]
  }

  predicate Bounded(n: RelayNet.Net) {
    forall i | i in n.stamp :: n.stamp[i] < n.clock
  }

  ghost predicate StampsOk(w: World) {
    && Bounded(w.net)
    && forall i, j, id | LaterStage(w.store.db.log, i, j, id) :: CommittedNoLater(w.net, i, j)
  }

  lemma NumbersAreNew(s: ChatStore.Store, p: nat)
    requires ChatInvariant.Inv(s) && ChatStore.Enabled(s, ChatStore.Commit(p, true))
    ensures var pc := s.procs[p].pc;
            && ChatStore.Numbered(ChatStore.Rows(pc.work), pc.first).Keys !! s.db.log.Keys
            && ChatInvariant.WorkOk(s.db, s.procs[p].call, pc.work)
            && ChatInvariant.NumbersOk(s.db, s.nextRow, pc.work, pc.first)
  {
    hide ChatInvariant.DbOk, ChatInvariant.WorkOk, ChatInvariant.Compatible, ChatStore.Rows;
    var proc := s.procs[p];
    assert ChatInvariant.PcOk(s.db, s.nextRow, proc.call, proc.pc);
  }

  lemma OldRow(s: ChatStore.Store, i: nat)
    requires ChatInvariant.Inv(s) && i in s.db.log
    ensures ChatInvariant.Justified(s.db, s.db.log[i]) && ChatInvariant.MessagesOk(s.db)
  {
    hide ChatInvariant.Justified, ChatInvariant.ProcsOk, ChatInvariant.MessagesOk;
  }

  /** A commit never adds a row about an earlier stage than one already committed. */
  lemma NewRowIsLater(s: ChatStore.Store, p: nat, i: nat, j: nat, id: Uuid)
    requires ChatInvariant.Inv(s) && ChatStore.Enabled(s, ChatStore.Commit(p, true))
    requires var pc := s.procs[p].pc; LaterStage(ChatStore.Install(s.db, pc.work, pc.first).log, i, j, id)
    ensures i in s.db.log || j !in s.db.log
  {
    hide ChatInvariant.Inv, ChatInvariant.WorkOk, ChatInvariant.NumbersOk, ChatStore.Rows, ChatInvariant.StageOf, ChatInvariant.Justified;
    var proc := s.procs[p];
    var w, first := proc.pc.work, proc.pc.first;
    NumbersAreNew(s, p);
    if i !in s.db.log && j in s.db.log {
      OldRow(s, j);
      ChatCommits.OldRowsPrecede(s.db, s.nextRow, proc.call, w, first, j, ChatStore.Rows(w)[i - first], id);
    }
  }

  /** The rows that a commit adds, under their numbers. */
  function Added(s: ChatStore.Store, p: nat): Log
    requires p in s.procs && s.procs[p].pc.Flushed?
  {
    ChatStore.Numbered(ChatStore.Rows(s.procs[p].pc.work), s.procs[p].pc.first)
  }

  lemma AddedToLog(s: ChatStore.Store, p: nat, acknowledged: bool)
    requires ChatStore.Enabled(s, ChatStore.Commit(p, acknowledged))
    ensures p in s.procs && s.procs[p].pc.Flushed?
    ensures ChatStore.Apply(s, ChatStore.Commit(p, acknowledged)).db.log == s.db.log + Added(s, p)
    ensures ChatStore.Install(s.db, s.procs[p].pc.work, s.procs[p].pc.first).log == s.db.log + Added(s, p)
    ensures ChatStore.Enabled(s, ChatStore.Commit(p, true))
  {
    hide ChatStore.Rows, ChatStore.Numbered, ChatStore.Writes, ChatStore.OwnConversation, ChatStore.Answer;
  }

  lemma AddedStamps(n: RelayNet.Net, replica: nat, added: Log)
    requires RelayInvariant.TablesOk(n) && RelayNet.Enabled(n, RelayNet.CommitRows(replica, added))
    ensures var n' := RelayNet.Apply(n, RelayNet.CommitRows(replica, added));
            && (forall i | i in n.rows :: i in n.stamp && i in n'.stamp && n'.stamp[i] == n.stamp[i])
            && (forall i | i in added :: i in n'.stamp && n'.stamp[i] == n.clock)
  {
  }

  lemma CommitHint(w: World, p: nat, acknowledged: bool)
    requires Inv(w) && ChatStore.Enabled(w.store, ChatStore.Commit(p, acknowledged))
    ensures p in w.store.procs && w.store.procs[p].pc.Flushed? && ChatInvariant.Inv(w.store)
    ensures var hint := RelayNet.CommitRows(w.store.procs[p].replica, Added(w.store, p));
            && RelayNet.Enabled(w.net, hint) && RelayInvariant.TablesOk(w.net) && w.net.rows == w.store.db.log
            && ApplyChat(w, ChatStore.Commit(p, acknowledged)).net == RelayNet.Apply(w.net, hint)
  {
    hide ChatInvariant.Inv, ChatStore.Apply, ChatStore.Rows, ChatStore.Numbered, RelayNet.Apply, RelayNet.Enabled, RelayInvariant.AllNoticed,
      RelayInvariant.OnBus, RelayInvariant.CopiesBounded, RelayInvariant.LocksDisjoint, RelayInvariant.PhaseOk, RelayInvariant.TablesOk, ReplicaOk;
    HintIsEnabled(w, ChatStore.Commit(p, acknowledged));
  }

  lemma CommitStamps(w: World, p: nat, acknowledged: bool, i: nat, j: nat, id: Uuid)
    requires Inv(w) && StampsOk(w) && ChatStore.Enabled(w.store, ChatStore.Commit(p, acknowledged))
    requires LaterStage(ApplyChat(w, ChatStore.Commit(p, acknowledged)).store.db.log, i, j, id)
    ensures CommittedNoLater(ApplyChat(w, ChatStore.Commit(p, acknowledged)).net, i, j)
  {
    hide Inv, Added, ChatStore.Enabled, ChatStore.Apply, ChatStore.Install, ChatInvariant.StageOf, ChatInvariant.Inv,
      RelayNet.Apply, RelayNet.Enabled, RelayInvariant.TablesOk, Hint;
    AddedToLog(w.store, p, acknowledged);
    CommitHint(w, p, acknowledged);
    AddedStamps(w.net, w.store.procs[p].replica, Added(w.store, p));
    NewRowIsLater(w.store, p, i, j, id);
    if i in w.store.db.log && j in w.store.db.log {
      AddedIsNew(w.store, p);
      assert LaterStage(w.store.db.log, i, j, id);
    }
  }

  lemma AddedIsNew(s: ChatStore.Store, p: nat)
    requires ChatInvariant.Inv(s) && ChatStore.Enabled(s, ChatStore.Commit(p, true))
    ensures p in s.procs && s.procs[p].pc.Flushed? && Added(s, p).Keys !! s.db.log.Keys
  {
    hide ChatInvariant.Inv, ChatInvariant.WorkOk, ChatInvariant.NumbersOk, ChatStore.Rows, ChatStore.Numbered;
    NumbersAreNew(s, p);
  }

  lemma StampStep(w: World, a: Action)
    requires Inv(w) && StampsOk(w) && Enabled(w, a)
    ensures StampsOk(Apply(w, a))
  {
    hide Inv, LaterStage, CommittedNoLater, ApplyReplica, Broadcast;
    var w' := Apply(w, a);
    if a.Chat? && a.chat.Commit? {
      StampsBounded(w, a);
      forall i, j, id | LaterStage(w'.store.db.log, i, j, id) ensures CommittedNoLater(w'.net, i, j) {
        CommitStamps(w, a.chat.p, a.chat.acknowledged, i, j, id);
      }
    } else {
      SameStamps(w, a);
      forall i, j, id | LaterStage(w'.store.db.log, i, j, id) ensures CommittedNoLater(w'.net, i, j) {
        assert CommittedNoLater(w.net, i, j);
        StampsCarryOver(w.net, w'.net, i, j);
      }
    }
  }

  lemma StampsCarryOver(n: RelayNet.Net, n': RelayNet.Net, i: nat, j: nat)
    requires CommittedNoLater(n, i, j) && n'.stamp == n.stamp
    ensures CommittedNoLater(n', i, j)
  {
  }

  lemma RelayStamps(n: RelayNet.Net, a: RelayNet.Action)
    requires RelayNet.Enabled(n, a) && Bounded(n)
    ensures Bounded(RelayNet.Apply(n, a))
    ensures !a.CommitRows? ==> RelayNet.Apply(n, a).stamp == n.stamp && RelayNet.Apply(n, a).clock == n.clock
  {
    hide RelayNet.Publish, RelayNet.Scan, RelayNet.Locks;
  }

  lemma StampsBounded(w: World, a: Action)
    requires StampsOk(w) && Enabled(w, a)
    ensures Bounded(Apply(w, a).net)
  {
    hide ChatStore.Apply, ChatStore.Enabled, ApplyReplica, Broadcast, RelayNet.Apply, RelayNet.Enabled, Hint, LaterStage;
    if a.Relaying? {
      RelayStamps(w.net, a.relay);
    } else if a.Chat? && Hint(w, a.chat).Some? && RelayNet.Enabled(w.net, Hint(w, a.chat).value) {
      RelayStamps(w.net, Hint(w, a.chat).value);
    }
  }

  lemma SameStamps(w: World, a: Action)
    requires Enabled(w, a) && !(a.Chat? && a.chat.Commit?) && Bounded(w.net)
    ensures Apply(w, a).store.db == w.store.db
    ensures Apply(w, a).net.stamp == w.net.stamp && Apply(w, a).net.clock == w.net.clock
  {
    hide ChatStore.Move, ChatStore.Rows, ChatStore.Enter, ApplyReplica, Broadcast, RelayNet.Apply, RelayNet.Enabled, Bounded;
    if a.Relaying? {
      RelayStamps(w.net, a.relay);
    } else if a.Chat? && Hint(w, a.chat).Some? && RelayNet.Enabled(w.net, Hint(w, a.chat).value) {
      RelayStamps(w.net, Hint(w, a.chat).value);
    }
  }

  lemma {:induction false} StampRun(w: World, actions: seq<Action>, w': World)
    requires Inv(w) && StampsOk(w) && Reaches(w, actions, w')
    ensures StampsOk(w')
    decreases |actions|
  {
    hide Inv, StampsOk, Enabled, Apply;
    if actions != [] {
      StepOk(w, actions[0]);
      StampStep(w, actions[0]);
      StampRun(Apply(w, actions[0]), actions[1..], w');
    }
  }

  /** With one relay, failures, crashes and repeated batches included, the bus carries no stage of a
      message before it has carried every announcement of the earlier stages. */
  lemma StagesInOrder(batch: nat, r: nat, name: string, actions: seq<Action>, w: World, i: nat, j: nat, id: Uuid)
    requires 0 < batch && Reaches(Init(batch, map[r := name]), actions, w)
    requires LaterStage(w.store.db.log, i, j, id)
    ensures RelayTheorems.AfterFirst(w.net.bus, i, j)
  {
    hide Inv, Reaches, LaterStage, RelayTheorems.AfterFirst, FreshReplica;
    var start := Init(batch, map[r := name]);
    InitOk(batch, map[r := name]);
    assert StampsOk(start) by { assert forall x, y, m :: !LaterStage(start.store.db.log, x, y, m) by { NoStages(); } }
    RunOk(start, actions, w);
    StampRun(start, actions, w);
    var steps := RelayRun(start, actions, w);
    assert start.net == RelayNet.Init(batch, {r});
    assert RelayTheorems.Linked(w.net, i, j) by { StagesAreLinked(w, i, j, id); }
    RelayTheorems.SingleRelayKeepsOrder(batch, r, steps, w.net, i, j);
  }

  lemma NoStages()
    ensures forall i, j, id :: !LaterStage(map[], i, j, id)
  {
  }

  lemma StagesAreLinked(w: World, i: nat, j: nat, id: Uuid)
    requires Inv(w) && StampsOk(w) && LaterStage(w.store.db.log, i, j, id)
    ensures RelayTheorems.Linked(w.net, i, j)
  {
    hide ChatInvariant.ProcsOk, ChatInvariant.StageOf, ChatInvariant.MessagesOk, ChatInvariant.ConversationsOk, ChatInvariant.Justified,
      RelayInvariant.Inv, ReplicaOk;
    assert CommittedNoLater(w.net, i, j);
    assert ChatInvariant.InOrder(w.store.db.log, i, j, id);
  }
}
