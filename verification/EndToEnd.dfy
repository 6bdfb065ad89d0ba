/** From the database to the wire: what a socket that was there in time has been told of a message,
    once nothing about it is left on the way. */
module EndToEnd {
  import opened Basics
  import opened Uuids
  import opened Models
  import opened Channels
  import opened Pipeline
  import opened PipelineInvariant
  import opened PipelineTheorems
  import opened Deliveries
  import ChatInvariant
  import ChatCommits
  import ChatStore
  import Connections
  import HubMachine
  import RelayInvariant
  import RelayNet

  /** An event that tells its socket about `stage` of message `id`. */
  predicate Conveys(e: Event, id: Uuid, stage: Status) {
    e.Durable? && ChatInvariant.StageOf(e.payload, id) == Some(stage)
  }

  ghost predicate Conveyed(events: seq<Event>, id: Uuid, stage: Status) {
    exists e :: e in events && Conveys(e, id, stage)
  }

  ghost predicate ConveyedAtMost(events: seq<Event>, id: Uuid, stage: Status) {
    forall e, s | e in events && Conveys(e, id, s) :: Rank(s) <= Rank(stage)
  }

  // ---- from the bus to the socket

  lemma {:induction false} DurableWasOffered(events: seq<Event>, payload: Payload)
    requires payload in DurableOf(events)
    ensures Durable(payload) in events
    decreases |events|
  {
    var last := |events| - 1;
    if payload in DurableOf(events[..last]) {
      DurableWasOffered(events[..last], payload);
    }
  }

  lemma {:induction false} PublicationIsListed(bus: seq<RelayNet.Publication>, p: RelayNet.Publication)
    requires p in bus
    ensures p.payload in Published(bus, p.channel)
    decreases |bus|
  {
    var last := |bus| - 1;
    if p != bus[last] {
      assert p in bus[..last];
      PublicationIsListed(bus[..last], p);
    }
  }

  /** What a channel has carried since `w` and no longer waits in the inbox has been offered. */
  lemma CarriedIsOffered(w: World, w': World, r: nat, c: nat, user: UserId, p: RelayNet.Publication)
    requires Delivers(w, w', r, c, user) && Waiting(w'.replicas[r].inbox, UserChannel(user)) == []
    requires p in w'.net.bus[|w.net.bus|..] && p.channel == UserChannel(user)
    ensures Durable(p.payload) in w'.replicas[r].sockets[c].past.offered
  {
    hide HubMachine.Steady, UserChannel, Published, DurableOf, Waiting;
    PublicationIsListed(w'.net.bus[|w.net.bus|..], p);
    assert p.payload in Account(w'.replicas[r], c, user);
    DurableWasOffered(w'.replicas[r].sockets[c].past.offered, p.payload);
  }

  lemma TellingIsConveyed(w: World, w': World, r: nat, c: nat, user: UserId, id: Uuid, stage: Status)
    requires Delivers(w, w', r, c, user) && Waiting(w'.replicas[r].inbox, UserChannel(user)) == []
    requires !Told(w.net.bus, user, id, stage) && Told(w'.net.bus, user, id, stage)
    ensures r in w'.replicas && c in w'.replicas[r].sockets && Conveyed(w'.replicas[r].sockets[c].past.offered, id, stage)
  {
    hide HubMachine.Steady, UserChannel, Account, Waiting, ChatInvariant.StageOf;
    var p :| p in w'.net.bus && Tells(p, user, id, stage);
    assert w'.net.bus == w.net.bus + w'.net.bus[|w.net.bus|..];
    CarriedIsOffered(w, w', r, c, user, p);
    assert Conveys(Durable(p.payload), id, stage);
  }

  // ---- never ahead of the database

  lemma BackedIsBounded(w: World, user: UserId, e: Event, id: Uuid, stage: Status)
    requires Inv(w) && Backed(w.store.db.log, user, e) && Conveys(e, id, stage)
    ensures id in w.store.db.messages && Rank(stage) <= Rank(w.store.db.messages[id].status)
  {
    hide Inv, ChatInvariant.StageOf, ChatInvariant.Justified, ChatStore.UserTopic;
    WorldParts(w);
    var i :| i in w.store.db.log && w.store.db.log[i] == Row(ChatStore.UserTopic(user), e.payload);
    RowIsJustified(w.store, i);
    ChatCommits.StageBound(w.store.db, w.store.db.log[i], id);
  }

  lemma OffersAreBounded(w: World, r: nat, c: nat, id: Uuid)
    requires Inv(w) && r in w.replicas && c in w.replicas[r].sockets && id in w.store.db.messages
    ensures ConveyedAtMost(w.replicas[r].sockets[c].past.offered, id, w.store.db.messages[id].status)
  {
    hide ChatInvariant.Inv, RelayInvariant.Inv, RegistryOk, Backed, Conveys, Connections.Intact, Carried;
    var socket := w.replicas[r].sockets[c];
    assert ReplicaOk(w.store.db.log, w.replicas[r]) && SocketOk(w.store.db.log, socket);
    forall e, s | e in socket.past.offered && Conveys(e, id, s) ensures Rank(s) <= Rank(w.store.db.messages[id].status) {
      BackedIsBounded(w, socket.user, e, id, s);
    }
  }

  // ---- from the offers to the wire

  /** The writer has caught up with an open connection. */
  predicate Flushed(past: Connections.History<Event>) {
    !past.line.closing && past.line.queue == []
  }

  lemma SocketIntact(w: World, r: nat, c: nat)
    requires Inv(w) && r in w.replicas && c in w.replicas[r].sockets
    ensures Connections.Intact(w.replicas[r].sockets[c].past)
  {
    hide ChatInvariant.Inv, RelayInvariant.Inv, Connections.Intact, RegistryOk, Carried, Backed;
    assert ReplicaOk(w.store.db.log, w.replicas[r]) && SocketOk(w.store.db.log, w.replicas[r].sockets[c]);
  }

  /** Nothing about message `id` is on its way to the socket any more: its rows have left the backlog,
      and the inbox holds nothing for the socket's user. */
  predicate Settled(w: World, r: nat, user: UserId, id: Uuid) {
    && r in w.replicas && Waiting(w.replicas[r].inbox, UserChannel(user)) == []
    && forall i | i in w.store.db.log && ChatInvariant.StageOf(w.store.db.log[i].payload, id).Some? :: i !in RelayNet.Pending(w.net)
  }

  /** What socket `c` has been offered of message `id`, and what its client has been sent if the writer
      has caught up, includes `stage` and nothing beyond the stored status. */
  ghost predicate UpToDate(w: World, r: nat, c: nat, id: Uuid, stage: Status)
    requires id in w.store.db.messages
  {
    && r in w.replicas && c in w.replicas[r].sockets
    && var past, status := w.replicas[r].sockets[c].past, w.store.db.messages[id].status;
       && Conveyed(past.offered, id, stage) && ConveyedAtMost(past.offered, id, status)
       && (Flushed(past) ==> Conveyed(Connections.Wire(past.taken), id, stage) && ConveyedAtMost(Connections.Wire(past.taken), id, status))
  }

  lemma ToldIsUpToDate(w: World, w': World, r: nat, c: nat, user: UserId, id: Uuid, stage: Status)
    requires Inv(w') && Delivers(w, w', r, c, user) && id in w'.store.db.messages
    requires Waiting(w'.replicas[r].inbox, UserChannel(user)) == []
    requires !Told(w.net.bus, user, id, stage) && Told(w'.net.bus, user, id, stage)
    ensures UpToDate(w', r, c, id, stage)
  {
    hide Inv, Told, Waiting, UserChannel, Conveyed, ConveyedAtMost, Delivers, Connections.Intact;
    TellingIsConveyed(w, w', r, c, user, id, stage);
    var past := w'.replicas[r].sockets[c].past;
    OffersAreBounded(w', r, c, id);
    SocketIntact(w', r, c);
    Connections.IntactWire(past);
  }

  /** A sender's socket that has been live since before a message's present stage first reached the bus
      agrees with the database once the message's rows have left the backlog and the inbox is empty: the
      furthest stage it has been offered, and the furthest on its wire if the writer has caught up, is
      the stored status. */
  lemma SenderSeesTheStatus(batch: nat, names: map<nat, string>, before: seq<Action>, w: World, after: seq<Action>, w': World,
                            r: nat, c: nat, id: Uuid)
    requires 0 < batch && Reaches(Init(batch, names), before, w) && Reaches(w, after, w')
    requires forall k | 0 <= k < |after| :: Leaves(after[k], r, c)
    requires id in w'.store.db.messages
    requires var m := w'.store.db.messages[id];
             && r in w.replicas && Live(w.replicas[r], c, m.sender)
             && !Told(w.net.bus, m.sender, id, m.status)
             && Settled(w', r, m.sender, id)
    ensures UpToDate(w', r, c, id, w'.store.db.messages[id].status)
  {
    hide Inv, Told, Waiting, UserChannel, UpToDate, Live, Leaves, Reaches, Delivers, RelayNet.Pending, ChatInvariant.StageOf;
    var m := w'.store.db.messages[id];
    ReachableOk(batch, names, before, w);
    RunDelivers(w, after, w', r, c, m.sender);
    RunOk(w, after, w');
    RowsAreTold(w', id);
    ToldIsUpToDate(w, w', r, c, m.sender, id, m.status);
  }

  /** The same for a recipient's socket that has been live since before the message first reached the bus:
      it has been told of the message. */
  lemma RecipientSeesTheMessage(batch: nat, names: map<nat, string>, before: seq<Action>, w: World, after: seq<Action>, w': World,
                                r: nat, c: nat, id: Uuid)
    requires 0 < batch && Reaches(Init(batch, names), before, w) && Reaches(w, after, w')
    requires forall k | 0 <= k < |after| :: Leaves(after[k], r, c)
    requires id in w'.store.db.messages
    requires var m := w'.store.db.messages[id];
             && r in w.replicas && Live(w.replicas[r], c, m.recipient)
             && !Told(w.net.bus, m.recipient, id, Sent)
             && Settled(w', r, m.recipient, id)
    ensures UpToDate(w', r, c, id, Sent)
  {
    hide Inv, Told, Waiting, UserChannel, UpToDate, Live, Leaves, Reaches, Delivers, RelayNet.Pending, ChatInvariant.StageOf;
    var m := w'.store.db.messages[id];
    ReachableOk(batch, names, before, w);
    RunDelivers(w, after, w', r, c, m.recipient);
    RunOk(w, after, w');
    RowsAreTold(w', id);
    ToldIsUpToDate(w, w', r, c, m.recipient, id, Sent);
  }
}
