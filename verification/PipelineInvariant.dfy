/** What every step of the pipeline keeps: whatever travels towards a socket comes from a committed
    outbox row for exactly that socket's user. */
module PipelineInvariant {
  import opened Basics
  import opened Models
  import opened Channels
  import opened Pipeline
  import opened Connections
  import ChatStore
  import ChatInvariant
  import ChatCommits
  import RelayNet
  import RelayInvariant
  import RelaySteps
  import HubMachine

  type Log = map<nat, Row>

  /** An event for a user is ephemeral or is the payload of a committed row with that user's topic. */
  ghost predicate Backed(log: Log, user: UserId, e: Event) {
    e.Durable? ==> exists i :: i in log && log[i] == Row(ChatStore.UserTopic(user), e.payload)
  }

  ghost predicate Carried(log: Log, m: BusMessage) {
    m.event.Durable? ==> exists i :: i in log && TopicChannel(log[i].topic) == m.channel && log[i].payload == m.event.payload
  }

  ghost predicate SocketOk(log: Log, s: Socket) {
    Intact(s.past) && forall e <- s.past.offered :: Backed(log, s.user, e)
  }

  /** Every device is registered under its own user. */
  predicate RegistryOk(replica: Replica) {
    forall u, c | u in replica.hub.local && c in replica.hub.local[u] ::
      c in replica.sockets && replica.sockets[c].user == u
  }

  ghost predicate ReplicaOk(log: Log, replica: Replica) {
    && RegistryOk(replica)
    && (forall m <- replica.inbox :: Carried(log, m))
    && (forall c | c in replica.sockets :: SocketOk(log, replica.sockets[c]))
  }

  ghost predicate Inv(w: World) {
    && ChatInvariant.Inv(w.store)
    && RelayInvariant.Inv(w.net)
    && w.net.rows == w.store.db.log
    && forall r | r in w.replicas :: ReplicaOk(w.store.db.log, w.replicas[r])
  }

  predicate Extends(log: Log, log': Log) {
    forall i | i in log :: i in log' && log'[i] == log[i]
  }

  lemma ReplicaKept(log: Log, log': Log, replica: Replica)
    requires Extends(log, log') && ReplicaOk(log, replica)
    ensures ReplicaOk(log', replica)
  {
    hide RegistryOk, Intact, TopicChannel;
    forall m <- replica.inbox ensures Carried(log', m) {
    }
    forall c | c in replica.sockets ensures SocketOk(log', replica.sockets[c]) {
      assert SocketOk(log, replica.sockets[c]);
    }
  }

  // ---- the chat store and the relays

  /** A commit's rows are new to the relays, so it always reaches them. */
  lemma HintIsEnabled(w: World, chat: ChatStore.Action)
    requires Inv(w) && ChatStore.Enabled(w.store, chat) && Hint(w, chat).Some?
    ensures RelayNet.Enabled(w.net, Hint(w, chat).value)
  {
    hide RelayInvariant.Inv, ChatInvariant.DbOk, ChatInvariant.WorkOk, ChatInvariant.Compatible, ChatStore.Rows;
    if chat.Commit? {
      var proc := w.store.procs[chat.p];
      assert ChatInvariant.PcOk(w.store.db, w.store.nextRow, proc.call, proc.pc);
    }
  }

  lemma ChatKeepsCoupling(w: World, chat: ChatStore.Action)
    requires Inv(w) && ChatStore.Enabled(w.store, chat)
    ensures RelayInvariant.Inv(ApplyChat(w, chat).net)
    ensures ApplyChat(w, chat).net.rows == ChatStore.Apply(w.store, chat).db.log
  {
    hide RelayInvariant.Inv, ChatInvariant.Inv, ChatStore.Rows, ChatStore.Writes;
    if Hint(w, chat).Some? {
      HintIsEnabled(w, chat);
      RelaySteps.StepOk(w.net, Hint(w, chat).value);
    }
  }

  lemma ChatOk(w: World, chat: ChatStore.Action)
    requires Inv(w) && ChatStore.Enabled(w.store, chat)
    ensures Inv(ApplyChat(w, chat))
  {
    hide RelayInvariant.Inv, ChatInvariant.Inv, ChatStore.Apply, ChatStore.Enabled, ReplicaOk;
    ChatCommits.StepOk(w.store, chat);
    ChatKeepsCoupling(w, chat);
    var w' := ApplyChat(w, chat);
    assert Extends(w.store.db.log, w'.store.db.log) by {
      forall i | i in w.store.db.log ensures i in w'.store.db.log && w'.store.db.log[i] == w.store.db.log[i] {
        assert ChatCommits.KeepsRow(w.store.db, w'.store.db, i);
      }
    }
    forall r | r in w'.replicas ensures ReplicaOk(w'.store.db.log, w'.replicas[r]) {
      ReplicaKept(w.store.db.log, w'.store.db.log, w.replicas[r]);
    }
  }

  // ---- Redis

  lemma ReceiveOk(log: Log, replica: Replica, m: BusMessage)
    requires ReplicaOk(log, replica) && Carried(log, m)
    ensures ReplicaOk(log, Receive(replica, m))
  {
    hide Carried, SocketOk, Subscribed;
  }

  lemma BroadcastOk(log: Log, replicas: map<nat, Replica>, m: BusMessage)
    requires (forall r | r in replicas :: ReplicaOk(log, replicas[r])) && Carried(log, m)
    ensures forall r | r in Broadcast(replicas, m) :: ReplicaOk(log, Broadcast(replicas, m)[r])
  {
    hide ReplicaOk, Carried, Receive;
    forall r | r in replicas ensures ReplicaOk(log, Broadcast(replicas, m)[r]) {
      ReceiveOk(log, replicas[r], m);
    }
  }

  lemma PublishCarries(n: RelayNet.Net, a: RelayNet.Action)
    requires RelayInvariant.Inv(n) && RelayNet.Enabled(n, a) && a.PublishOne?
    ensures var bus := RelayNet.Apply(n, a).bus;
            bus != [] && Carried(n.rows, BusMessage(bus[|bus| - 1].channel, Durable(bus[|bus| - 1].payload)))
  {
    hide RelayInvariant.Inv, TopicChannel;
    var phase := n.relays[a.r].phase;
    var row := phase.rows[phase.sent];
    assert row in n.rows;
  }

  lemma RelayOk(w: World, relay: RelayNet.Action)
    requires Inv(w) && Enabled(w, Relaying(relay))
    ensures Inv(ApplyRelay(w, relay))
  {
    hide RelayInvariant.Inv, ChatInvariant.Inv, ReplicaOk, Carried;
    RelaySteps.StepOk(w.net, relay);
    if relay.PublishOne? {
      PublishCarries(w.net, relay);
      var net := RelayNet.Apply(w.net, relay);
      var p := net.bus[|net.bus| - 1];
      BroadcastOk(w.net.rows, w.replicas, BusMessage(p.channel, Durable(p.payload)));
    }
  }

  // ---- a replica

  /** A message on a user's channel is for that user. */
  lemma CarriedIsBacked(log: Log, m: BusMessage, user: UserId)
    requires Carried(log, m) && UserOf(m.channel) == Some(user)
    ensures Backed(log, user, m.event)
  {
    UserOfChannel(m.channel, user);
    if m.event.Durable? {
      var i :| i in log && TopicChannel(log[i].topic) == m.channel && log[i].payload == m.event.payload;
      TopicOf(log[i].topic, user);
    }
  }

  lemma TopicOf(topic: string, user: string)
    requires TopicChannel(topic) == UserChannel(user)
    ensures topic == ChatStore.UserTopic(user)
  {
    var channel := UserChannel(user);
    assert channel == CHANNEL_PREFIX + ChatStore.UserTopic(user) by { TopicReachesUser(user); }
    assert channel[|CHANNEL_PREFIX|..] == topic && channel[|CHANNEL_PREFIX|..] == ChatStore.UserTopic(user);
  }

  lemma OfferOk(log: Log, s: Socket, e: Event)
    requires SocketOk(log, s) && Backed(log, s.user, e)
    ensures SocketOk(log, Offer(s, e))
  {
    hide Intact, Backed;
    StepIntact(s.past, Send(e));
  }

  lemma DispatchOk(log: Log, replica: Replica)
    requires ReplicaOk(log, replica) && replica.inbox != []
    ensures ReplicaOk(log, FanOut(replica, replica.inbox[0]).(inbox := replica.inbox[1..]))
  {
    hide SocketOk, Carried, Backed, UserOf;
    var m := replica.inbox[0];
    var after := FanOut(replica, m);
    forall c | c in replica.sockets ensures SocketOk(log, after.sockets[c]) {
      if c in Devices(replica.hub, m.channel) {
        CarriedIsBacked(log, m, replica.sockets[c].user);
        OfferOk(log, replica.sockets[c], m.event);
      }
    }
  }

  lemma SessionOk(log: Log, s: Socket, op: Op<Event>)
    requires SocketOk(log, s) && (op.Send? ==> op.event.Ephemeral?)
    ensures SocketOk(log, s.(past := Step(s.past, op)))
  {
    hide Intact;
    StepIntact(s.past, op);
  }

  lemma OwnStepOk(log: Log, replica: Replica, a: Action)
    requires ReplicaOk(log, replica) && (a.Linking? || a.Open? || a.Shut?)
    requires a.Linking? ==> !a.hub.Register? && !a.hub.Unregister? && HubMachine.Enabled(replica.hub, a.hub)
    requires a.Open? ==> a.c !in replica.sockets
    requires a.Shut? ==> a.c in replica.sockets
    ensures ReplicaOk(log, ApplyReplica(replica, a))
  {
    hide Carried, Backed, UserChannel;
    match a {
      case Open(_, c, user) =>
        assert SocketOk(log, Socket(user, New()));
      case _ =>
    }
  }

  lemma ReplicaStepOk(w: World, a: Action)
    requires Inv(w) && Enabled(w, a) && (a.Linking? || a.Open? || a.Shut? || a.Dispatch? || a.Session? || a.Restart?)
    ensures Inv(Apply(w, a))
  {
    hide RelayInvariant.Inv, ChatInvariant.Inv, SocketOk, Carried, HubMachine.Enabled, HubMachine.Apply, FanOut;
    var log, replica := w.store.db.log, w.replicas[a.r];
    var replica' := Apply(w, a).replicas[a.r];
    assert ReplicaOk(log, replica') by {
      match a {
        case Dispatch(_) => DispatchOk(log, replica);
        case Session(_, c, op) => SessionOk(log, replica.sockets[c], op);
        case Restart(_) =>
        case _ => OwnStepOk(log, replica, a);
      }
    }
  }

  lemma StepOk(w: World, a: Action)
    requires Inv(w) && Enabled(w, a)
    ensures Inv(Apply(w, a))
  {
    hide Inv, ApplyChat, ApplyRelay, ApplyReplica, Broadcast, FreshReplica;
    match a {
      case Chat(chat) => ChatOk(w, chat);
      case Relaying(relay) => RelayOk(w, relay);
      case PublishEphemeral(user, kind) => EphemeralOk(w, BusMessage(UserChannel(user), Ephemeral(kind)));
      case _ => ReplicaStepOk(w, a);
    }
  }

  lemma EphemeralOk(w: World, m: BusMessage)
    requires Inv(w) && m.event.Ephemeral?
    ensures Inv(w.(replicas := Broadcast(w.replicas, m)))
  {
    hide ReplicaOk, RelayInvariant.Inv, ChatInvariant.Inv;
    BroadcastOk(w.store.db.log, w.replicas, m);
  }

  lemma {:induction false} RunOk(w: World, actions: seq<Action>, w': World)
    requires Inv(w) && Reaches(w, actions, w')
    ensures Inv(w')
    decreases |actions|
  {
    hide Inv, Enabled, Apply;
    if actions != [] {
      StepOk(w, actions[0]);
      RunOk(Apply(w, actions[0]), actions[1..], w');
    }
  }

  lemma InitOk(batch: nat, names: map<nat, string>)
    requires 0 < batch
    ensures Inv(Init(batch, names))
  {
    ChatInvariant.InitOk();
    RelayInvariant.InitOk(batch, names.Keys);
  }
}
