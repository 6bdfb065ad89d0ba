/** How a socket comes to be live, that it gets nothing from the bus once it is shut, and what it misses while
    its replica is not subscribed. */
module Sockets {
  import opened Basics
  import opened Models
  import opened Channels
  import opened Pipeline
  import opened PipelineInvariant
  import opened PipelineTheorems
  import opened Deliveries
  import ChatInvariant
  import ChatStore
  import Connections
  import HubMachine
  import RelayInvariant
  import RelayNet

  ghost predicate HubsOk(w: World) {
    forall r | r in w.replicas :: HubMachine.Inv(w.replicas[r].hub)
  }

  /** What a step does to one replica's hub. */
  function HubStep(w: World, a: Action, r: nat): Option<HubMachine.Action<nat>>
    requires Enabled(w, a)
  {
    match a
    case Linking(q, hub) => if q == r then Some(hub) else None
    case Open(q, c, user) => if q == r then Some(HubMachine.Register(user, c)) else None
    case Shut(q, c) => if q == r then Some(HubMachine.Unregister(w.replicas[q].sockets[c].user, c)) else None
    case _ => None
  }

  /** Steps of one replica's hub, inbox and sockets. */
  predicate Own(a: Action, r: nat) {
    (a.Linking? || a.Open? || a.Shut? || a.Dispatch? || a.Session?) && a.r == r
  }

  /** A replica changes by its own steps and by what Redis sends it. */
  lemma ReplicaMoves(w: World, a: Action, r: nat)
    requires Enabled(w, a) && r in w.replicas && a != Restart(r)
    ensures r in Apply(w, a).replicas
    ensures if Own(a, r) then Apply(w, a).replicas[r] == ApplyReplica(w.replicas[r], a)
            else Apply(w, a).replicas[r] == w.replicas[r] || exists m :: Apply(w, a).replicas[r] == Receive(w.replicas[r], m)
  {
    hide ChatStore.Enabled, ChatStore.Apply, Hint, ApplyHint, HubMachine.Enabled, HubMachine.Apply, RelayNet.Enabled, RelayNet.Apply,
      Receive, FreshReplica;
    match a
    case Relaying(relay) => RelayReaches(w, relay, r);
    case PublishEphemeral(user, kind) =>
      assert Apply(w, a).replicas[r] == Receive(w.replicas[r], BusMessage(UserChannel(user), Ephemeral(kind)));
    case _ =>
  }

  lemma RelayReaches(w: World, relay: RelayNet.Action, r: nat)
    requires RelayNet.Enabled(w.net, relay) && r in w.replicas
    ensures r in ApplyRelay(w, relay).replicas
    ensures ApplyRelay(w, relay).replicas[r] == w.replicas[r] || exists m :: ApplyRelay(w, relay).replicas[r] == Receive(w.replicas[r], m)
  {
    hide RelayNet.Enabled, Receive, RelayNet.Publish;
    if relay.PublishOne? {
      var net := RelayNet.Apply(w.net, relay);
      var p := net.bus[|net.bus| - 1];
      assert ApplyRelay(w, relay).replicas[r] == Receive(w.replicas[r], BusMessage(p.channel, Durable(p.payload)));
    }
  }

  lemma HubMoves(w: World, a: Action, r: nat)
    requires Enabled(w, a) && r in w.replicas && a != Restart(r)
    ensures r in Apply(w, a).replicas
    ensures match HubStep(w, a, r)
            case Some(b) =>
              HubMachine.Enabled(w.replicas[r].hub, b) && Apply(w, a).replicas[r].hub == HubMachine.Apply(w.replicas[r].hub, b)
            case None => Apply(w, a).replicas[r].hub == w.replicas[r].hub
  {
    hide Apply, HubMachine.Apply, Connections.Step, UserChannel, Devices, ChatStore.Enabled, RelayNet.Enabled;
    ReplicaMoves(w, a, r);
  }

  lemma HubOkStep(w: World, a: Action, r: nat)
    requires HubsOk(w) && Enabled(w, a) && r in w.replicas
    ensures r in Apply(w, a).replicas && HubMachine.Inv(Apply(w, a).replicas[r].hub)
  {
    hide Enabled, Apply, HubMachine.Inv, HubMachine.Enabled, HubMachine.Apply, HubStep;
    if a == Restart(r) {
      RestartedHub(w, r);
    } else {
      HubMoves(w, a, r);
      var step := HubStep(w, a, r);
      if step.Some? {
        HubMachine.StepOk(w.replicas[r].hub, step.value);
      }
    }
  }

  lemma RestartedHub(w: World, r: nat)
    requires r in w.replicas && HubMachine.Inv(w.replicas[r].hub) && Enabled(w, Restart(r))
    ensures r in Apply(w, Restart(r)).replicas && HubMachine.Inv(Apply(w, Restart(r)).replicas[r].hub)
  {
    hide UserOf;
  }

  lemma ReplicasStay(w: World, a: Action)
    requires Enabled(w, a)
    ensures Apply(w, a).replicas.Keys == w.replicas.Keys
  {
    hide ChatStore.Enabled, ChatStore.Apply, Hint, ApplyHint, HubMachine.Enabled, RelayNet.Enabled, RelayNet.Apply, ApplyReplica, Receive, FreshReplica;
  }

  lemma {:induction false} HubsRun(w: World, actions: seq<Action>, w': World)
    requires HubsOk(w) && Reaches(w, actions, w')
    ensures HubsOk(w')
    decreases |actions|
  {
    hide Enabled, Apply, HubMachine.Inv;
    if actions != [] {
      var next := Apply(w, actions[0]);
      ReplicasStay(w, actions[0]);
      forall r | r in next.replicas ensures HubMachine.Inv(next.replicas[r].hub) {
        HubOkStep(w, actions[0], r);
      }
      HubsRun(next, actions[1..], w');
    }
  }

  lemma HubsStart(batch: nat, names: map<nat, string>)
    ensures HubsOk(Init(batch, names))
  {
    hide UserOf, ControlChannel;
    forall r | r in names ensures UserOf(ControlChannel(names[r])).None? {
      ControlIsNoUser(names[r]);
    }
  }

  /** The step neither shuts socket `c` nor restarts its replica. */
  predicate KeepsSocket(a: Action, r: nat, c: nat) {
    a != Shut(r, c) && a != Restart(r)
  }

  /** The socket belongs to the user and is registered with the hub. */
  predicate Seated(w: World, r: nat, c: nat, user: UserId) {
    && r in w.replicas && c in w.replicas[r].sockets && w.replicas[r].sockets[c].user == user
    && HubMachine.Registered(w.replicas[r].hub, user, c)
  }

  lemma SocketStays(w: World, a: Action, r: nat, c: nat)
    requires Enabled(w, a) && r in w.replicas && c in w.replicas[r].sockets && a != Restart(r)
    ensures r in Apply(w, a).replicas && c in Apply(w, a).replicas[r].sockets
    ensures Apply(w, a).replicas[r].sockets[c].user == w.replicas[r].sockets[c].user
  {
    hide Apply, HubMachine.Enabled, HubMachine.Apply, Connections.Step, UserChannel, Devices, ChatStore.Enabled, RelayNet.Enabled;
    ReplicaMoves(w, a, r);
  }

  lemma SeatedStep(w: World, a: Action, r: nat, c: nat, user: UserId)
    requires Enabled(w, a) && Seated(w, r, c, user) && KeepsSocket(a, r, c)
    ensures Seated(Apply(w, a), r, c, user)
  {
    hide Apply, HubMachine.Registered, HubMachine.Enabled, HubMachine.Apply;
    SocketStays(w, a, r, c);
    HubMoves(w, a, r);
    var step := HubStep(w, a, r);
    if step.Some? {
      HubMachine.RegistryStep(w.replicas[r].hub, step.value, user, c);
    }
  }

  lemma {:induction false} SeatedRun(w: World, actions: seq<Action>, w': World, r: nat, c: nat, user: UserId)
    requires Reaches(w, actions, w') && Seated(w, r, c, user) && forall k | 0 <= k < |actions| :: KeepsSocket(actions[k], r, c)
    ensures Seated(w', r, c, user)
    decreases |actions|
  {
    hide Enabled, Apply, Seated, KeepsSocket;
    if actions != [] {
      SeatedStep(w, actions[0], r, c, user);
      SeatedRun(Apply(w, actions[0]), actions[1..], w', r, c, user);
    }
  }

  lemma OpenIsSeated(w: World, r: nat, c: nat, user: UserId)
    requires Enabled(w, Open(r, c, user))
    ensures Seated(Apply(w, Open(r, c, user)), r, c, user)
  {
    hide UserChannel;
    HubMoves(w, Open(r, c, user), r);
  }

  lemma DrainedIsSteady(h: HubMachine.HubState<nat>, user: UserId, c: nat)
    requires HubMachine.Inv(h) && h.link.Up? && h.requests == [] && HubMachine.Registered(h, user, c)
    ensures HubMachine.Steady(h, user, c)
  {
    hide UserChannel;
    HubMachine.WantedUser(h.local, user);
  }

  /** A socket that has been opened is live whenever its replica's link is up with no request left, through any
      losses of the link, as long as it is not shut and its process not restarted. */
  lemma OpenSocketIsLive(batch: nat, names: map<nat, string>, before: seq<Action>, w: World, after: seq<Action>, w': World,
                         r: nat, c: nat, user: UserId)
    requires Reaches(Init(batch, names), before, w) && Enabled(w, Open(r, c, user)) && Reaches(Apply(w, Open(r, c, user)), after, w')
    requires forall k | 0 <= k < |after| :: KeepsSocket(after[k], r, c)
    requires r in w'.replicas && w'.replicas[r].hub.link.Up? && w'.replicas[r].hub.requests == []
    ensures Live(w'.replicas[r], c, user)
  {
    hide Reaches, Enabled, Apply, KeepsSocket, HubMachine.Inv, HubMachine.Registered, HubMachine.Steady;
    HubsStart(batch, names);
    HubsRun(Init(batch, names), before, w);
    var start := Apply(w, Open(r, c, user));
    OpenHubs(w, r, c, user);
    HubsRun(start, after, w');
    OpenIsSeated(w, r, c, user);
    SeatedRun(start, after, w', r, c, user);
    DrainedIsSteady(w'.replicas[r].hub, user, c);
  }

  lemma OpenHubs(w: World, r: nat, c: nat, user: UserId)
    requires HubsOk(w) && Enabled(w, Open(r, c, user))
    ensures HubsOk(Apply(w, Open(r, c, user)))
  {
    hide Enabled, Apply, HubMachine.Inv;
    var next := Apply(w, Open(r, c, user));
    ReplicasStay(w, Open(r, c, user));
    forall q | q in next.replicas ensures HubMachine.Inv(next.replicas[q].hub) {
      HubOkStep(w, Open(r, c, user), q);
    }
  }

  // ---- after the end

  /** The socket is known and registered for nobody. */
  predicate Gone(w: World, r: nat, c: nat) {
    r in w.replicas && c in w.replicas[r].sockets && forall u | u in w.replicas[r].hub.local :: c !in w.replicas[r].hub.local[u]
  }

  lemma ShutIsGone(w: World, r: nat, c: nat)
    requires Inv(w) && Enabled(w, Shut(r, c))
    ensures Gone(Apply(w, Shut(r, c)), r, c)
  {
    hide ChatInvariant.Inv, RelayInvariant.Inv, UserChannel, HubMachine.Apply, HubMachine.Enabled, SocketOk, Carried;
    assert RegistryOk(w.replicas[r]);
    HubMoves(w, Shut(r, c), r);
    var w' := Apply(w, Shut(r, c));
    forall u | u in w'.replicas[r].hub.local ensures c !in w'.replicas[r].hub.local[u] {
      HubMachine.RegistryStep(w.replicas[r].hub, HubMachine.Unregister(w.replicas[r].sockets[c].user, c), u, c);
    }
  }

  lemma GoneStep(w: World, a: Action, r: nat, c: nat)
    requires Enabled(w, a) && Gone(w, r, c) && a != Restart(r)
    ensures Gone(Apply(w, a), r, c)
    ensures DurableOf(Apply(w, a).replicas[r].sockets[c].past.offered) == DurableOf(w.replicas[r].sockets[c].past.offered)
  {
    hide Apply, HubMachine.Enabled, HubMachine.Apply, DurableOf;
    SocketStays(w, a, r, c);
    HubMoves(w, a, r);
    var step, hub' := HubStep(w, a, r), Apply(w, a).replicas[r].hub;
    forall u | u in hub'.local ensures c !in hub'.local[u] {
      if step.Some? {
        HubMachine.RegistryStep(w.replicas[r].hub, step.value, u, c);
      }
    }
    GoneOffers(w, a, r, c);
  }

  lemma GoneOffers(w: World, a: Action, r: nat, c: nat)
    requires Enabled(w, a) && Gone(w, r, c) && a != Restart(r)
    ensures r in Apply(w, a).replicas && c in Apply(w, a).replicas[r].sockets
    ensures DurableOf(Apply(w, a).replicas[r].sockets[c].past.offered) == DurableOf(w.replicas[r].sockets[c].past.offered)
  {
    hide Apply, HubMachine.Enabled, HubMachine.Apply, UserChannel, UserOf, Connections.Sent, Connections.Closed, ChatStore.Enabled, RelayNet.Enabled;
    ReplicaMoves(w, a, r);
    if a.Session? && a.op.Send? && a.c == c && a.r == r {
      var offered := w.replicas[r].sockets[c].past.offered;
      assert (offered + [a.op.event])[..|offered|] == offered;
    }
  }

  lemma {:induction false} GoneRun(w: World, actions: seq<Action>, w': World, r: nat, c: nat)
    requires Reaches(w, actions, w') && Gone(w, r, c) && Restart(r) !in actions
    ensures Gone(w', r, c)
    ensures DurableOf(w'.replicas[r].sockets[c].past.offered) == DurableOf(w.replicas[r].sockets[c].past.offered)
    decreases |actions|
  {
    hide Enabled, Apply, Gone, DurableOf;
    if actions != [] {
      assert actions[0] in actions;
      GoneStep(w, actions[0], r, c);
      GoneRun(Apply(w, actions[0]), actions[1..], w', r, c);
    }
  }

  /** Once a socket has been shut, nothing from the bus is offered to it any more. */
  lemma ShutIsFinal(batch: nat, names: map<nat, string>, before: seq<Action>, w: World, after: seq<Action>, w': World, r: nat, c: nat)
    requires 0 < batch && Reaches(Init(batch, names), before, w) && Enabled(w, Shut(r, c)) && Reaches(Apply(w, Shut(r, c)), after, w')
    requires Restart(r) !in after
    ensures r in w.replicas && c in w.replicas[r].sockets && r in w'.replicas && c in w'.replicas[r].sockets
    ensures DurableOf(w'.replicas[r].sockets[c].past.offered) == DurableOf(w.replicas[r].sockets[c].past.offered)
  {
    hide Inv, Reaches, Apply, Gone, DurableOf, HubMachine.Enabled;
    ReachableOk(batch, names, before, w);
    ShutIsGone(w, r, c);
    ShutOffersNothing(w, r, c);
    GoneRun(Apply(w, Shut(r, c)), after, w', r, c);
    GoneIsThere(w', r, c);
  }

  lemma GoneIsThere(w: World, r: nat, c: nat)
    requires Gone(w, r, c)
    ensures r in w.replicas && c in w.replicas[r].sockets
  {
  }

  lemma ShutOffersNothing(w: World, r: nat, c: nat)
    requires Enabled(w, Shut(r, c))
    ensures r in w.replicas && c in w.replicas[r].sockets && r in Apply(w, Shut(r, c)).replicas && c in Apply(w, Shut(r, c)).replicas[r].sockets
    ensures Apply(w, Shut(r, c)).replicas[r].sockets[c] == w.replicas[r].sockets[c]
  {
    hide HubMachine.Apply, HubMachine.Enabled;
  }

  // ---- without a subscription

  /** The link does not carry the user's channel. */
  predicate Deaf(replica: Replica, user: UserId) {
    match replica.hub.link
    case Down => true
    case Connecting(_) => true
    case Up(channels) => UserChannel(user) !in channels
    case Applying(_, channels) => UserChannel(user) !in channels
  }

  /** The step leaves the replica's link as it is. */
  predicate KeepsLink(a: Action, r: nat) {
    !(a.Linking? && a.r == r) && a != Restart(r)
  }

  /** Everything that is now accounted to the socket was so before. */
  predicate NothingNew(replica: Replica, replica': Replica, c: nat, user: UserId) {
    && c in replica.sockets && c in replica'.sockets
    && forall p | p in Account(replica', c, user) :: p in Account(replica, c, user)
  }

  lemma DeafReceives(replica: Replica, m: BusMessage, c: nat, user: UserId)
    requires Deaf(replica, user) && c in replica.sockets
    ensures Deaf(Receive(replica, m), user) && NothingNew(replica, Receive(replica, m), c, user)
  {
    hide UserChannel, DurableOf, Waiting;
    WaitingAppend(replica.inbox, m, UserChannel(user));
  }

  lemma DeafDispatch(replica: Replica, a: Action, c: nat, user: UserId)
    requires RegistryOk(replica) && replica.inbox != [] && a.Dispatch?
    requires c in replica.sockets && replica.sockets[c].user == user
    ensures NothingNew(replica, ApplyReplica(replica, a), c, user)
  {
    hide UserChannel, UserOf, Connections.Sent;
    var m := replica.inbox[0];
    UserOfChannel(m.channel, user);
    var offered := replica.sockets[c].past.offered;
    assert (offered + [m.event])[..|offered|] == offered;
  }

  lemma DeafOwn(replica: Replica, a: Action, c: nat, user: UserId)
    requires RegistryOk(replica) && Deaf(replica, user) && c in replica.sockets && replica.sockets[c].user == user
    requires a.Open? ==> a.c !in replica.sockets
    requires a.Shut? || a.Session? ==> a.c in replica.sockets
    requires a.Session? && a.op.Send? ==> a.op.event.Ephemeral?
    requires a.Dispatch? ==> replica.inbox != []
    requires !a.Linking?
    ensures Deaf(ApplyReplica(replica, a), user) && NothingNew(replica, ApplyReplica(replica, a), c, user)
  {
    hide UserChannel, Waiting, RegistryOk, Connections.Sent, Connections.Closed, Devices, HubMachine.Wanted, DurableOf;
    if a.Dispatch? {
      DeafDispatch(replica, a, c, user);
    } else if a.Session? && a.op.Send? {
      EphemeralOffer(replica.sockets[a.c].past.offered, a.op.event);
    }
  }

  lemma EphemeralOffer(offered: seq<Event>, e: Event)
    requires e.Ephemeral?
    ensures DurableOf(offered + [e]) == DurableOf(offered)
  {
    assert (offered + [e])[..|offered|] == offered;
  }

  lemma DeafStep(w: World, a: Action, r: nat, c: nat, user: UserId)
    requires Inv(w) && Enabled(w, a) && KeepsLink(a, r) && r in w.replicas && Deaf(w.replicas[r], user)
    requires c in w.replicas[r].sockets && w.replicas[r].sockets[c].user == user
    ensures r in Apply(w, a).replicas && Deaf(Apply(w, a).replicas[r], user)
    ensures NothingNew(w.replicas[r], Apply(w, a).replicas[r], c, user)
  {
    hide Apply, ApplyReplica, Receive, Deaf, Account, HubMachine.Enabled, ChatStore.Enabled, RelayNet.Enabled, ChatInvariant.Inv, RelayInvariant.Inv,
      RegistryOk, SocketOk, Carried;
    ReplicaMoves(w, a, r);
    assert RegistryOk(w.replicas[r]);
    if Own(a, r) {
      DeafOwn(w.replicas[r], a, c, user);
    } else if m :| Apply(w, a).replicas[r] == Receive(w.replicas[r], m) {
      DeafReceives(w.replicas[r], m, c, user);
    }
  }

  lemma {:induction false} DeafRun(w: World, actions: seq<Action>, w': World, r: nat, c: nat, user: UserId)
    requires Inv(w) && Reaches(w, actions, w') && r in w.replicas && Deaf(w.replicas[r], user)
    requires c in w.replicas[r].sockets && w.replicas[r].sockets[c].user == user
    requires forall k | 0 <= k < |actions| :: KeepsLink(actions[k], r)
    ensures r in w'.replicas && NothingNew(w.replicas[r], w'.replicas[r], c, user)
    decreases |actions|
  {
    hide Inv, Enabled, Apply, Deaf, Account;
    if actions != [] {
      StepOk(w, actions[0]);
      DeafStep(w, actions[0], r, c, user);
      SocketStays(w, actions[0], r, c);
      DeafRun(Apply(w, actions[0]), actions[1..], w', r, c, user);
    }
  }

  /** Pub/sub delivers at most once: what the bus carries while a replica's link is down, or not subscribed to
      a user's channel, is never offered to that user's sockets there, however long they wait. */
  lemma UnheardIsMissed(batch: nat, names: map<nat, string>, before: seq<Action>, w: World, after: seq<Action>, w': World,
                        r: nat, c: nat, user: UserId, payload: Payload)
    requires 0 < batch && Reaches(Init(batch, names), before, w) && Reaches(w, after, w')
    requires r in w.replicas && Deaf(w.replicas[r], user)
    requires c in w.replicas[r].sockets && w.replicas[r].sockets[c].user == user
    requires forall k | 0 <= k < |after| :: KeepsLink(after[k], r)
    requires payload !in Account(w.replicas[r], c, user)
    ensures r in w'.replicas && c in w'.replicas[r].sockets && payload !in Account(w'.replicas[r], c, user)
  {
    hide Inv, Reaches, Deaf, Account, KeepsLink;
    ReachableOk(batch, names, before, w);
    DeafRun(w, after, w', r, c, user);
  }
}
