/** The whole way of an event: a request commits it to the outbox, a relay publishes it, Redis passes
    it to every replica subscribed at that moment, and a hub queues it on the sockets of one user.
    A step of this machine is a step of one of its parts, with what that does to the next part. */
module Pipeline {
  import opened Basics
  import opened Uuids
  import opened Models
  import opened Channels
  import ChatStore
  import RelayNet
  import HubMachine
  import Connections

  /** What a socket may be sent: outbox payloads, and events that no table records. */
  datatype Event = Durable(payload: Payload) | Ephemeral(kind: string)

  datatype BusMessage = BusMessage(channel: string, event: Event)

  datatype Socket = Socket(user: UserId, past: Connections.History<Event>)

  /** One process: its hub, what Redis has sent it and it has not yet read, and its sockets. */
  datatype Replica = Replica(hub: HubMachine.HubState<nat>, inbox: seq<BusMessage>, sockets: map<nat, Socket>)

  /** `rowsOf` tells which outbox rows a request has committed. */
  datatype World = World(
    store: ChatStore.Store, net: RelayNet.Net, rowsOf: map<nat, set<nat>>, replicas: map<nat, Replica>)

  datatype Action =
    | Chat(chat: ChatStore.Action)
    | Relaying(relay: RelayNet.Action)
    | Linking(r: nat, hub: HubMachine.Action<nat>)
    | Open(r: nat, c: nat, user: UserId)
    | Shut(r: nat, c: nat)
    | Dispatch(r: nat)
    | Session(r: nat, c: nat, op: Connections.Op<Event>)
    | PublishEphemeral(user: UserId, kind: string)
    | Restart(r: nat)

  function FreshReplica(control: string): Replica {
    Replica(HubMachine.Init(control), [], map[])
  }

  /** `names` are the replica ids of the configuration. */
  function Init(batch: nat, names: map<nat, string>): World {
    World(ChatStore.Init(), RelayNet.Init(batch, names.Keys), map[],
          map r | r in names :: FreshReplica(ControlChannel(names[r])))
  }

  // ---- Redis pub/sub

  predicate Subscribed(hub: HubMachine.HubState<nat>, channel: string) {
    (hub.link.Up? || hub.link.Applying?) && channel in hub.link.channels
  }

  function Receive(replica: Replica, m: BusMessage): Replica {
    if Subscribed(replica.hub, m.channel) then replica.(inbox := replica.inbox + [m]) else replica
  }

  /** At most once: a replica that is not subscribed now never sees the message. */
  function Broadcast(replicas: map<nat, Replica>, m: BusMessage): map<nat, Replica> {
    map r | r in replicas :: Receive(replicas[r], m)
  }

  // ---- the hub's fan-out

  function Offer(s: Socket, event: Event): Socket {
    s.(past := Connections.Step(s.past, Connections.Send(event)))
  }

  function Devices(hub: HubMachine.HubState<nat>, channel: string): set<nat> {
    var user := UserOf(channel);
    if user.Some? && user.value in hub.local then hub.local[user.value] else {}
  }

  function FanOut(replica: Replica, m: BusMessage): Replica {
    replica.(sockets := map c | c in replica.sockets ::
      if c in Devices(replica.hub, m.channel) then Offer(replica.sockets[c], m.event) else replica.sockets[c])
  }

  // ---- steps

  predicate Enabled(w: World, a: Action) {
    match a
    case Chat(chat) => ChatStore.Enabled(w.store, chat)
    case Relaying(relay) => !relay.CommitRows? && !relay.Notify? && RelayNet.Enabled(w.net, relay)
    case Linking(r, hub) =>
      r in w.replicas && !hub.Register? && !hub.Unregister? && HubMachine.Enabled(w.replicas[r].hub, hub)
    case Open(r, c, _) => r in w.replicas && c !in w.replicas[r].sockets
    case Shut(r, c) => r in w.replicas && c in w.replicas[r].sockets
    case Dispatch(r) => r in w.replicas && w.replicas[r].hub.link.Up? && w.replicas[r].inbox != []
    case Session(r, c, op) =>
      r in w.replicas && c in w.replicas[r].sockets && (op.Send? ==> op.event.Ephemeral?)
    case PublishEphemeral(_, _) => true
    case Restart(r) => r in w.replicas
  }

  /** What a step of the chat store means to the relays: committed rows, or a wakeup. */
  function Hint(w: World, chat: ChatStore.Action): Option<RelayNet.Action>
    requires ChatStore.Enabled(w.store, chat)
  {
    match chat
    case Commit(p, _) =>
      var pc := w.store.procs[p].pc;
      Some(RelayNet.CommitRows(w.store.procs[p].replica, ChatStore.Numbered(ChatStore.Rows(pc.work), pc.first)))
    case Notify(p) =>
      Some(RelayNet.Notify(w.store.procs[p].replica, if p in w.rowsOf then w.rowsOf[p] else {}))
    case _ => None
  }

  function ApplyHint(net: RelayNet.Net, hint: Option<RelayNet.Action>): RelayNet.Net {
    if hint.Some? && RelayNet.Enabled(net, hint.value) then RelayNet.Apply(net, hint.value) else net
  }

  function ApplyChat(w: World, chat: ChatStore.Action): World
    requires ChatStore.Enabled(w.store, chat)
  {
    w.(store := ChatStore.Apply(w.store, chat),
       net := ApplyHint(w.net, Hint(w, chat)),
       rowsOf := if chat.Commit? then w.rowsOf[chat.p := Hint(w, chat).value.added.Keys] else w.rowsOf)
  }

  /** A publication reaches the bus history and every replica subscribed to its channel. */
  function ApplyRelay(w: World, relay: RelayNet.Action): World
    requires RelayNet.Enabled(w.net, relay)
  {
    var net := RelayNet.Apply(w.net, relay);
    if relay.PublishOne? then
      var p := net.bus[|net.bus| - 1];
      w.(net := net, replicas := Broadcast(w.replicas, BusMessage(p.channel, Durable(p.payload))))
    else w.(net := net)
  }

  function ApplyReplica(replica: Replica, a: Action): Replica
    requires a.Linking? ==> HubMachine.Enabled(replica.hub, a.hub)
    requires a.Shut? || a.Session? ==> a.c in replica.sockets
    requires a.Dispatch? ==> replica.inbox != []
  {
    match a
    case Linking(_, hub) =>
      // what Redis had sent over a link that fails is lost with it
      replica.(hub := HubMachine.Apply(replica.hub, hub), inbox := if hub.Lost? then [] else replica.inbox)
    case Open(_, c, user) =>
      replica.(hub := HubMachine.Apply(replica.hub, HubMachine.Register(user, c)),
               sockets := replica.sockets[c := Socket(user, Connections.New())])
    case Shut(_, c) =>
      replica.(hub := HubMachine.Apply(replica.hub, HubMachine.Unregister(replica.sockets[c].user, c)))
    case Dispatch(_) => FanOut(replica, replica.inbox[0]).(inbox := replica.inbox[1..])
    case Session(_, c, op) =>
      replica.(sockets := replica.sockets[c := replica.sockets[c].(past := Connections.Step(replica.sockets[c].past, op))])
    case _ => replica
  }

  function Apply(w: World, a: Action): World
    requires Enabled(w, a)
  {
    match a
    case Chat(chat) => ApplyChat(w, chat)
    case Relaying(relay) => ApplyRelay(w, relay)
    case PublishEphemeral(user, kind) =>
      w.(replicas := Broadcast(w.replicas, BusMessage(UserChannel(user), Ephemeral(kind))))
    case Restart(r) => w.(replicas := w.replicas[r := FreshReplica(w.replicas[r].hub.control)])
    case _ => w.(replicas := w.replicas[a.r := ApplyReplica(w.replicas[a.r], a)])
  }

  ghost predicate Reaches(w: World, actions: seq<Action>, w': World)
    decreases |actions|
  {
    if actions == [] then w' == w
    else Enabled(w, actions[0]) && Reaches(Apply(w, actions[0]), actions[1..], w')
  }
}
