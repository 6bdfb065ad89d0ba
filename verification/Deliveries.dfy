/** What a socket is offered while its replica keeps its Redis link: every publication on its user's
    channel, once each and in the order of the bus. */
module Deliveries {
  import opened Basics
  import opened Models
  import opened Channels
  import opened Pipeline
  import opened PipelineInvariant
  import opened PipelineTheorems
  import Connections
  import ChatStore
  import RelayNet
  import RelayInvariant
  import ChatInvariant
  import HubMachine

  /** Outbox payloads among some events. */
  function DurableOf(events: seq<Event>): seq<Payload> {
    if events == [] then []
    else
      var rest, last := DurableOf(events[..|events| - 1]), events[|events| - 1];
      if last.Durable? then rest + [last.payload] else rest
  }

  /** Outbox payloads waiting in an inbox for one channel. */
  function Waiting(inbox: seq<BusMessage>, channel: string): seq<Payload> {
    if inbox == [] then []
    else
      var rest := Waiting(inbox[1..], channel);
      if inbox[0].channel == channel && inbox[0].event.Durable? then [inbox[0].event.payload] + rest else rest
  }

  /** Payloads that the bus has carried on one channel. */
  function Published(bus: seq<RelayNet.Publication>, channel: string): seq<Payload> {
    if bus == [] then []
    else
      var rest, last := Published(bus[..|bus| - 1], channel), bus[|bus| - 1];
      if last.channel == channel then rest + [last.payload] else rest
  }

  lemma {:induction false} WaitingAppend(inbox: seq<BusMessage>, m: BusMessage, channel: string)
    ensures Waiting(inbox + [m], channel)
         == Waiting(inbox, channel) + if m.channel == channel && m.event.Durable? then [m.event.payload] else []
  {
    if inbox == [] {
      assert [] + [m] == [m] && [m][1..] == [];
    } else {
      assert (inbox + [m])[1..] == inbox[1..] + [m];
      WaitingAppend(inbox[1..], m, channel);
    }
  }

  lemma {:induction false} PublishedConcat(a: seq<RelayNet.Publication>, b: seq<RelayNet.Publication>, channel: string)
    ensures Published(a + b, channel) == Published(a, channel) + Published(b, channel)
    decreases |b|
  {
    if b == [] {
      assert a + b == a;
    } else {
      assert (a + b)[..|a + b| - 1] == a + b[..|b| - 1];
      PublishedConcat(a, b[..|b| - 1], channel);
    }
  }

  /** Everything for `user` that socket `c` was offered or is about to be. */
  function Account(replica: Replica, c: nat, user: UserId): seq<Payload>
    requires c in replica.sockets
  {
    DurableOf(replica.sockets[c].past.offered) + Waiting(replica.inbox, UserChannel(user))
  }

  /** Socket `c` is registered for `user`, and the link carries the user's channel. */
  predicate Live(replica: Replica, c: nat, user: UserId) {
    && c in replica.sockets && replica.sockets[c].user == user
    && HubMachine.Steady(replica.hub, user, c)
    && (replica.hub.link.Up? || replica.hub.link.Applying?)
  }

  /** The step leaves the replica's link and this socket alone. */
  predicate Leaves(a: Action, r: nat, c: nat) {
    && a != Shut(r, c) && a != Restart(r)
    && !(a.Linking? && a.r == r && a.hub.Lost?)
  }

  lemma ReceiveLive(replica: Replica, c: nat, user: UserId, m: BusMessage)
    requires Live(replica, c, user)
    ensures Live(Receive(replica, m), c, user)
    ensures Account(Receive(replica, m), c, user)
         == Account(replica, c, user) + if m.channel == UserChannel(user) && m.event.Durable? then [m.event.payload] else []
  {
    hide UserChannel, DurableOf;
    WaitingAppend(replica.inbox, m, UserChannel(user));
    assert HubMachine.Steady(Receive(replica, m).hub, user, c);
  }

  lemma LinkLive(replica: Replica, c: nat, user: UserId, a: HubMachine.Action<nat>)
    requires Live(replica, c, user) && HubMachine.Enabled(replica.hub, a)
    requires !a.Lost? && a != HubMachine.Unregister(user, c)
    ensures var hub := HubMachine.Apply(replica.hub, a);
            HubMachine.Steady(hub, user, c) && (hub.link.Up? || hub.link.Applying?)
  {
    hide HubMachine.Steady, UserChannel;
    HubMachine.SteadyStep(replica.hub, a, user, c);
  }

  lemma DispatchLive(replica: Replica, a: Action, c: nat, user: UserId)
    requires Live(replica, c, user) && RegistryOk(replica) && replica.inbox != [] && a.Dispatch?
    ensures Live(ApplyReplica(replica, a), c, user)
    ensures Account(ApplyReplica(replica, a), c, user) == Account(replica, c, user)
  {
    hide UserChannel, UserOf, Connections.Sent;
    var m, replica' := replica.inbox[0], ApplyReplica(replica, a);
    UserOfChannel(m.channel, user);
    assert c in Devices(replica.hub, m.channel) <==> m.channel == UserChannel(user);
    var offered := replica.sockets[c].past.offered;
    assert (offered + [m.event])[..|offered|] == offered;
    assert HubMachine.Steady(replica'.hub, user, c);
  }

  lemma OwnStepLive(replica: Replica, a: Action, c: nat, user: UserId)
    requires Live(replica, c, user)
    requires a.Linking? || a.Open? || a.Shut?
    requires a.Linking? ==> HubMachine.Enabled(replica.hub, a.hub) && !a.hub.Register? && !a.hub.Unregister? && !a.hub.Lost?
    requires a.Open? ==> a.c !in replica.sockets
    requires a.Shut? ==> a.c in replica.sockets && a.c != c
    ensures Live(ApplyReplica(replica, a), c, user)
    ensures Account(ApplyReplica(replica, a), c, user) == Account(replica, c, user)
  {
    hide UserChannel, DurableOf, Waiting, HubMachine.Steady;
    match a {
      case Linking(_, hub) => LinkLive(replica, c, user, hub);
      case Open(_, d, v) => LinkLive(replica, c, user, HubMachine.Register(v, d));
      case Shut(_, d) => LinkLive(replica, c, user, HubMachine.Unregister(replica.sockets[d].user, d));
    }
  }

  lemma SessionLive(replica: Replica, a: Action, c: nat, user: UserId)
    requires Live(replica, c, user) && a.Session? && a.c in replica.sockets && (a.op.Send? ==> a.op.event.Ephemeral?)
    ensures Live(ApplyReplica(replica, a), c, user)
    ensures Account(ApplyReplica(replica, a), c, user) == Account(replica, c, user)
  {
    hide UserChannel, Waiting, HubMachine.Steady, Connections.Sent, Connections.Closed;
    if a.op.Send? {
      var offered := replica.sockets[c].past.offered;
      assert (offered + [a.op.event])[..|offered|] == offered;
    }
  }

  /** From `w` to `w'` socket `c` stays live, and what its user's channel carries is added to its
      account. */
  ghost predicate Delivers(w: World, w': World, r: nat, c: nat, user: UserId) {
    && r in w.replicas && r in w'.replicas && Live(w.replicas[r], c, user) && Live(w'.replicas[r], c, user)
    && w.net.bus <= w'.net.bus
    && Account(w'.replicas[r], c, user)
       == Account(w.replicas[r], c, user) + Published(w'.net.bus[|w.net.bus|..], UserChannel(user))
  }

  lemma QuietDelivers(w: World, w': World, r: nat, c: nat, user: UserId)
    requires r in w.replicas && r in w'.replicas && w'.net.bus == w.net.bus
    requires Live(w.replicas[r], c, user) && Live(w'.replicas[r], c, user)
    requires Account(w'.replicas[r], c, user) == Account(w.replicas[r], c, user)
    ensures Delivers(w, w', r, c, user)
  {
    hide Live, Account, UserChannel;
    assert w'.net.bus[|w.net.bus|..] == [];
  }

  lemma ReplicaStepDelivers(w: World, a: Action, r: nat, c: nat, user: UserId)
    requires Inv(w) && Enabled(w, a) && r in w.replicas && Live(w.replicas[r], c, user) && Leaves(a, r, c)
    requires a.Linking? || a.Open? || a.Shut? || a.Dispatch? || a.Session? || a.Restart?
    ensures Delivers(w, Apply(w, a), r, c, user)
  {
    hide ChatInvariant.Inv, RelayInvariant.Inv, Live, Account, ApplyReplica, HubMachine.Enabled, UserChannel, Delivers;
    var replica := w.replicas[r];
    if a.r == r {
      match a {
        case Dispatch(_) =>
          assert RegistryOk(replica);
          DispatchLive(replica, a, c, user);
        case Session(_, _, _) => SessionLive(replica, a, c, user);
        case _ => OwnStepLive(replica, a, c, user);
      }
    }
    QuietDelivers(w, Apply(w, a), r, c, user);
  }

  lemma BroadcastDelivers(w: World, w': World, m: BusMessage, delta: seq<RelayNet.Publication>, r: nat, c: nat, user: UserId)
    requires r in w.replicas && Live(w.replicas[r], c, user)
    requires w'.replicas == Broadcast(w.replicas, m) && w'.net.bus == w.net.bus + delta
    requires if m.event.Durable? then |delta| == 1 && delta[0].channel == m.channel && delta[0].payload == m.event.payload else delta == []
    ensures Delivers(w, w', r, c, user)
  {
    hide Live, Account, UserChannel, Receive;
    ReceiveLive(w.replicas[r], c, user, m);
    assert w'.net.bus[|w.net.bus|..] == delta;
    assert delta != [] ==> delta[..|delta| - 1] == [];
    assert Published(delta, UserChannel(user))
        == if m.channel == UserChannel(user) && m.event.Durable? then [m.event.payload] else [];
    assert w'.replicas[r] == Receive(w.replicas[r], m);
  }

  lemma RelayDelivers(w: World, a: Action, r: nat, c: nat, user: UserId)
    requires Enabled(w, a) && a.Relaying? && r in w.replicas && Live(w.replicas[r], c, user)
    ensures Delivers(w, Apply(w, a), r, c, user)
  {
    hide Live, Account, UserChannel, Delivers, Broadcast, RelayNet.Publish;
    if a.relay.PublishOne? {
      var bus := RelayNet.Apply(w.net, a.relay).bus;
      var p := bus[|bus| - 1];
      assert bus == w.net.bus + [p];
      BroadcastDelivers(w, Apply(w, a), BusMessage(p.channel, Durable(p.payload)), [p], r, c, user);
    } else {
      QuietDelivers(w, Apply(w, a), r, c, user);
    }
  }

  lemma ChatDelivers(w: World, a: Action, r: nat, c: nat, user: UserId)
    requires Enabled(w, a) && a.Chat? && r in w.replicas && Live(w.replicas[r], c, user)
    ensures Delivers(w, Apply(w, a), r, c, user)
  {
    hide Live, Account, UserChannel, Delivers, ChatStore.Apply, ChatStore.Enabled, ChatStore.Rows;
    QuietDelivers(w, Apply(w, a), r, c, user);
  }

  lemma StepDelivers(w: World, a: Action, r: nat, c: nat, user: UserId)
    requires Inv(w) && Enabled(w, a) && r in w.replicas && Live(w.replicas[r], c, user) && Leaves(a, r, c)
    ensures Delivers(w, Apply(w, a), r, c, user)
  {
    hide Inv, Live, Account, UserChannel, Delivers, Leaves, ApplyRelay, ApplyChat, ApplyReplica;
    match a {
      case Chat(_) => ChatDelivers(w, a, r, c, user);
      case Relaying(_) => RelayDelivers(w, a, r, c, user);
      case PublishEphemeral(u, kind) =>
        assert w.net.bus + [] == w.net.bus;
        BroadcastDelivers(w, Apply(w, a), BusMessage(UserChannel(u), Ephemeral(kind)), [], r, c, user);
      case _ => ReplicaStepDelivers(w, a, r, c, user);
    }
  }

  lemma DeliversIsTransitive(w: World, mid: World, w': World, r: nat, c: nat, user: UserId)
    requires Delivers(w, mid, r, c, user) && Delivers(mid, w', r, c, user)
    ensures Delivers(w, w', r, c, user)
  {
    hide Live, Account, UserChannel, Published;
    var first, second := mid.net.bus[|w.net.bus|..], w'.net.bus[|mid.net.bus|..];
    assert w'.net.bus[|w.net.bus|..] == first + second;
    PublishedConcat(first, second, UserChannel(user));
  }

  lemma {:induction false} RunDelivers(w: World, actions: seq<Action>, w': World, r: nat, c: nat, user: UserId)
    requires Inv(w) && Reaches(w, actions, w') && r in w.replicas && Live(w.replicas[r], c, user)
    requires forall k | 0 <= k < |actions| :: Leaves(actions[k], r, c)
    ensures Delivers(w, w', r, c, user)
    decreases |actions|
  {
    hide Inv, Enabled, Apply, Live, Account, Leaves, UserChannel;
    if actions == [] {
      QuietDelivers(w, w', r, c, user);
    } else {
      StepOk(w, actions[0]);
      StepDelivers(w, actions[0], r, c, user);
      RunDelivers(Apply(w, actions[0]), actions[1..], w', r, c, user);
      DeliversIsTransitive(w, Apply(w, actions[0]), w', r, c, user);
    }
  }

  /** While a socket is registered and its replica keeps the link and the process, no push is missed,
      doubled or reordered on the way from the bus: what the socket has been offered, and what is still
      in the inbox for its user, grows by exactly what the bus carries on the user's channel. */
  lemma NoPushIsMissed(batch: nat, names: map<nat, string>, before: seq<Action>, w: World, after: seq<Action>, w': World,
                       r: nat, c: nat, user: UserId)
    requires 0 < batch && Reaches(Init(batch, names), before, w) && Reaches(w, after, w')
    requires r in w.replicas && Live(w.replicas[r], c, user)
    requires forall k | 0 <= k < |after| :: Leaves(after[k], r, c)
    ensures r in w'.replicas && c in w'.replicas[r].sockets && w.net.bus <= w'.net.bus
    ensures Account(w'.replicas[r], c, user)
         == Account(w.replicas[r], c, user) + Published(w'.net.bus[|w.net.bus|..], UserChannel(user))
  {
    hide Inv, Account, UserChannel, Published, Reaches, Leaves;
    ReachableOk(batch, names, before, w);
    RunDelivers(w, after, w', r, c, user);
  }
}
