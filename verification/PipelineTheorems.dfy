/** What holds from the database to the wire, in every run of the whole pipeline: with concurrent
    requests, lost commits, relay failures and crashes, lost Redis links, and sockets that come,
    go and stall. */
module PipelineTheorems {
  import opened Basics
  import opened Uuids
  import opened Models
  import opened Channels
  import opened Pipeline
  import opened PipelineInvariant
  import Connections
  import ChatStore
  import ChatInvariant
  import ChatCommits
  import RelayNet
  import RelayInvariant

  lemma ReachableOk(batch: nat, names: map<nat, string>, actions: seq<Action>, w: World)
    requires 0 < batch && Reaches(Init(batch, names), actions, w)
    ensures Inv(w)
  {
    hide *;
    InitOk(batch, names);
    RunOk(Init(batch, names), actions, w);
  }

  // ---- from the wire back to the database

  /** What a push tells its user is committed, and it is that user's business. */
  predicate Truthful(db: ChatStore.Db, user: UserId, payload: Payload) {
    match payload
    case MessageNew(out) =>
      && out.id in db.messages && out.status == Sent
      && ChatInvariant.SameMessage(db.messages[out.id], out)
      && user in {out.sender, out.recipient}
    case MessageDelivered(id, _, _, at) =>
      && id in db.messages && db.messages[id].status != Sent && db.messages[id].deliveredAt == Some(at)
      && user == db.messages[id].sender
    case MessageRead(_, reader, ids, at) =>
      ids != {} && forall id | id in ids ::
        && id in db.messages && db.messages[id].status == Read && db.messages[id].readAt == Some(at)
        && db.messages[id].recipient == reader && user == db.messages[id].sender
  }

  lemma JustifiedIsTruthful(db: ChatStore.Db, user: UserId, payload: Payload)
    requires ChatInvariant.Justified(db, Row(ChatStore.UserTopic(user), payload))
    ensures Truthful(db, user, payload)
  {
    hide ChatStore.UserTopic;
    forall v | ChatStore.UserTopic(user) == ChatStore.UserTopic(v) ensures user == v {
      ChatCommits.TopicIsInjective(user, v);
    }
    if payload.MessageRead? {
      forall id | id in payload.ids ensures id in db.messages && db.messages[id].status == Read && db.messages[id].readAt == Some(payload.at)
        && db.messages[id].recipient == payload.reader && user == db.messages[id].sender
      {
        assert ChatInvariant.ReadJustified(db, ChatStore.UserTopic(user), payload.conversation, payload.reader, payload.at, id);
      }
    }
  }

  lemma HeldWasOffered<E>(h: Connections.History<E>, item: Connections.Item<E>)
    requires Connections.Intact(h) && item in h.taken + h.line.queue && item.Event?
    ensures item.event in h.offered
  {
    var all := h.taken + h.line.queue;
    var k :| 0 <= k < |all| && all[k] == item;
    var items := Connections.Items(h.offered);
    if h.line.closing {
      assert all[..|all| - 1][k] == items[k];
    }
    assert items[k] == item;
  }

  lemma SocketBacked(w: World, r: nat, c: nat, item: Connections.Item<Event>) returns (i: nat)
    requires Inv(w) && r in w.replicas && c in w.replicas[r].sockets
    requires var past := w.replicas[r].sockets[c].past; item in past.taken + past.line.queue
    requires item.Event? && item.event.Durable?
    ensures i in w.store.db.log
    ensures w.store.db.log[i] == Row(ChatStore.UserTopic(w.replicas[r].sockets[c].user), item.event.payload)
  {
    hide ChatInvariant.Inv, RelayInvariant.Inv, Connections.Intact;
    var socket := w.replicas[r].sockets[c];
    assert ReplicaOk(w.store.db.log, w.replicas[r]) && SocketOk(w.store.db.log, socket);
    HeldWasOffered(socket.past, item);
    assert Backed(w.store.db.log, socket.user, item.event);
    i :| i in w.store.db.log && w.store.db.log[i] == Row(ChatStore.UserTopic(socket.user), item.event.payload);
  }

  lemma RowIsJustified(s: ChatStore.Store, i: nat)
    requires ChatInvariant.Inv(s) && i in s.db.log
    ensures ChatInvariant.Justified(s.db, s.db.log[i])
  {
    hide ChatInvariant.Justified, ChatInvariant.ProcsOk;
  }

  /** No push without durability, and no misrouting. Every `message.*` event that any socket ever
      queued or took is the payload of a committed outbox row for exactly that socket's user, and what
      it says is committed. */
  lemma PushIsDurable(batch: nat, names: map<nat, string>, actions: seq<Action>, w: World, r: nat, c: nat, item: Connections.Item<Event>)
    returns (i: nat)
    requires 0 < batch && Reaches(Init(batch, names), actions, w)
    requires r in w.replicas && c in w.replicas[r].sockets
    requires var past := w.replicas[r].sockets[c].past; item in past.taken + past.line.queue
    requires item.Event? && item.event.Durable?
    ensures i in w.store.db.log
    ensures w.store.db.log[i] == Row(ChatStore.UserTopic(w.replicas[r].sockets[c].user), item.event.payload)
    ensures Truthful(w.store.db, w.replicas[r].sockets[c].user, item.event.payload)
  {
    hide Inv, Truthful, ChatStore.UserTopic;
    ReachableOk(batch, names, actions, w);
    i := SocketBacked(w, r, c, item);
    assert ChatInvariant.Justified(w.store.db, w.store.db.log[i]) by {
      WorldParts(w);
      RowIsJustified(w.store, i);
    }
    JustifiedIsTruthful(w.store.db, w.replicas[r].sockets[c].user, item.event.payload);
  }

  lemma WorldParts(w: World)
    requires Inv(w)
    ensures ChatInvariant.Inv(w.store) && RelayInvariant.Inv(w.net) && w.net.rows == w.store.db.log
  {
  }

  /** What reaches a wire is a gap-free prefix of what was offered to that socket. */
  lemma WireIsPrefix(batch: nat, names: map<nat, string>, actions: seq<Action>, w: World, r: nat, c: nat)
    requires 0 < batch && Reaches(Init(batch, names), actions, w)
    requires r in w.replicas && c in w.replicas[r].sockets
    ensures Connections.Wire(w.replicas[r].sockets[c].past.taken) <= w.replicas[r].sockets[c].past.offered
  {
    hide ChatInvariant.Inv, RelayInvariant.Inv, Connections.Intact;
    ReachableOk(batch, names, actions, w);
    assert ReplicaOk(w.store.db.log, w.replicas[r]) && SocketOk(w.store.db.log, w.replicas[r].sockets[c]);
    Connections.IntactWire(w.replicas[r].sockets[c].past);
  }

  // ---- from the database to the bus

  /** A publication that tells `user` about `stage` of message `id`. */
  predicate Tells(p: RelayNet.Publication, user: UserId, id: Uuid, stage: Status) {
    p.channel == UserChannel(user) && ChatInvariant.StageOf(p.payload, id) == Some(stage)
  }

  ghost predicate ToldAtMost(bus: seq<RelayNet.Publication>, user: UserId, id: Uuid, stage: Status) {
    forall p, s | p in bus && Tells(p, user, id, s) :: Rank(s) <= Rank(stage)
  }

  ghost predicate Told(bus: seq<RelayNet.Publication>, user: UserId, id: Uuid, stage: Status) {
    exists p :: p in bus && Tells(p, user, id, stage)
  }

  lemma RowIsTold(n: RelayNet.Net, i: nat, user: UserId, id: Uuid, stage: Status)
    requires RelayInvariant.Inv(n) && i in n.rows && i !in RelayNet.Pending(n)
    requires ChatInvariant.Announces(n.rows[i], id, stage, user)
    ensures Told(n.bus, user, id, stage)
  {
    hide RelayInvariant.LocksDisjoint, RelayInvariant.CopiesBounded, RelayInvariant.AllNoticed, UserChannel, TopicChannel, ChatInvariant.StageOf;
    assert RelayInvariant.Times(n.bus, i) > 0;
    assert i in multiset(RelayInvariant.Ids(n.bus));
    var k :| 0 <= k < |n.bus| && RelayInvariant.Ids(n.bus)[k] == i;
    assert RelayInvariant.PublicationOk(n, n.bus[k]);
    TopicReachesUser(user);
    assert Tells(n.bus[k], user, id, stage);
  }

  lemma BusTellsNoMore(w: World, id: Uuid, user: UserId)
    requires Inv(w) && id in w.store.db.messages
    ensures ToldAtMost(w.net.bus, user, id, w.store.db.messages[id].status)
  {
    hide ChatInvariant.Inv, RelayInvariant.TablesOk, RelayInvariant.LocksDisjoint, RelayInvariant.CopiesBounded,
      RelayInvariant.AllNoticed, RelayInvariant.OnBus, RelayInvariant.PhaseOk, ReplicaOk, UserChannel, TopicChannel, ChatInvariant.Justified, ChatInvariant.StageOf;
    forall p, s | p in w.net.bus && Tells(p, user, id, s) ensures Rank(s) <= Rank(w.store.db.messages[id].status) {
      assert RelayInvariant.PublicationOk(w.net, p);
      RowIsJustified(w.store, p.row);
      ChatCommits.StageBound(w.store.db, w.store.db.log[p.row], id);
    }
  }

  /** The bus never runs ahead of the database, whoever looks at it. */
  lemma BusNeverLeads(batch: nat, names: map<nat, string>, actions: seq<Action>, w: World, id: Uuid, user: UserId)
    requires 0 < batch && Reaches(Init(batch, names), actions, w) && id in w.store.db.messages
    ensures ToldAtMost(w.net.bus, user, id, w.store.db.messages[id].status)
  {
    hide *;
    ReachableOk(batch, names, actions, w);
    BusTellsNoMore(w, id, user);
  }

  lemma SenderRowExists(s: ChatStore.Store, id: Uuid) returns (i: nat, j: nat)
    requires ChatInvariant.Inv(s) && id in s.db.messages
    ensures i in s.db.log && ChatInvariant.Announces(s.db.log[i], id, s.db.messages[id].status, s.db.messages[id].sender)
    ensures j in s.db.log && ChatInvariant.Announces(s.db.log[j], id, Sent, s.db.messages[id].recipient)
  {
    hide ChatInvariant.ProcsOk, ChatInvariant.Announces;
    assert ChatInvariant.Announced(s.db, id);
    i :| i in s.db.log && ChatInvariant.Announces(s.db.log[i], id, s.db.messages[id].status, s.db.messages[id].sender);
    j :| j in s.db.log && ChatInvariant.Announces(s.db.log[j], id, Sent, s.db.messages[id].recipient);
  }

  lemma RowsAreTold(w: World, id: Uuid)
    requires Inv(w) && id in w.store.db.messages
    requires forall i | i in w.store.db.log && ChatInvariant.StageOf(w.store.db.log[i].payload, id).Some? :: i !in RelayNet.Pending(w.net)
    ensures Told(w.net.bus, w.store.db.messages[id].sender, id, w.store.db.messages[id].status)
    ensures Told(w.net.bus, w.store.db.messages[id].recipient, id, Sent)
  {
    hide Inv, Told, ChatInvariant.StageOf, RelayNet.Pending;
    WorldParts(w);
    var i, j := SenderRowExists(w.store, id);
    RowIsTold(w.net, i, w.store.db.messages[id].sender, id, w.store.db.messages[id].status);
    RowIsTold(w.net, j, w.store.db.messages[id].recipient, id, Sent);
  }

  /** The database and the pushes agree: once the rows about a message have left the backlog, the
      furthest stage that the bus has carried to its sender, over all repetitions and in any order, is
      the stored status, and the recipient has been told of the message. */
  lemma BusIsFaithful(batch: nat, names: map<nat, string>, actions: seq<Action>, w: World, id: Uuid)
    requires 0 < batch && Reaches(Init(batch, names), actions, w) && id in w.store.db.messages
    requires forall i | i in w.store.db.log && ChatInvariant.StageOf(w.store.db.log[i].payload, id).Some? :: i !in RelayNet.Pending(w.net)
    ensures Told(w.net.bus, w.store.db.messages[id].sender, id, w.store.db.messages[id].status)
    ensures ToldAtMost(w.net.bus, w.store.db.messages[id].sender, id, w.store.db.messages[id].status)
    ensures Told(w.net.bus, w.store.db.messages[id].recipient, id, Sent)
  {
    hide *;
    ReachableOk(batch, names, actions, w);
    RowsAreTold(w, id);
    BusTellsNoMore(w, id, w.store.db.messages[id].sender);
  }
}
