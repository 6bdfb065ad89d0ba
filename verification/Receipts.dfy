/** Receipts as atomic operations on the message table, and what any number of them add up to. */
module Receipts {
  import opened Basics
  import opened Clock
  import opened Uuids
  import opened Models
  import opened ChatStore
  import opened ChatInvariant
  import opened ChatCommits

  type Table = map<Uuid, Message>

  /** `mark_delivered` in one go. */
  function AckOne(t: Table, user: UserId, id: Uuid, now: Timestamp): Table {
    if id in t && Acknowledges(t[id], user) then t[id := Deliver(t[id], now)] else t
  }

  predicate InReach(m: Message, conversation: Uuid, user: UserId, upTo: Key) {
    m.conversation == conversation && m.recipient == user && KeyAtMost(m.Key(), upTo)
  }

  /** `mark_read`'s UPDATE in one go, on the rows its snapshot shows. */
  function ReadAll(t: Table, rows: set<Uuid>, conversation: Uuid, user: UserId, upTo: Key, now: Timestamp): Table {
    map id | id in t ::
      if id in rows && InReach(t[id], conversation, user, upTo) && t[id].status != Read then MarkRead(t[id], now) else t[id]
  }

  // ---- every commit is one atomic operation at the moment it happens

  /** A commit installs a unit of work that the tables, as they are then, still bear out. */
  lemma CommitInstalls(s: Store, a: Action)
    requires Inv(s) && Enabled(s, a) && a.Commit?
    ensures WorkOk(s.db, s.procs[a.p].call, s.procs[a.p].pc.work)
    ensures Apply(s, a).db == Install(s.db, s.procs[a.p].pc.work, s.procs[a.p].pc.first)
  {
    hide DbOk, Compatible, PcOk, Enabled, Apply, NumbersOk, WorkOk, Install, Rows;
    CommitEffect(s, a);
    assert PcOk(s.db, s.nextRow, s.procs[a.p].call, s.procs[a.p].pc);
    FlushedParts(s.db, s.nextRow, s.procs[a.p].call, s.procs[a.p].pc);
  }

  /** A send commits as a put-if-absent that finds the key absent. */
  lemma SendCommitsAtomically(db: Db, call: Call, w: Work, first: nat)
    requires WorkOk(db, call, w) && w.NewMessage?
    ensures call.Send? && !ClientIdTaken(db, call.user, call.req.clientId) && w.message.id !in db.messages
    ensures Install(db, w, first).messages == db.messages[w.message.id := w.message]
  {
    hide ClientIdTaken, TargetOk, Rows;
  }

  lemma AckCommitsAtomically(db: Db, call: Call, w: Work, first: nat)
    requires WorkOk(db, call, w) && w.Delivery?
    ensures call.Ack? && call.message in db.messages && Acknowledges(db.messages[call.message], call.user)
    ensures Install(db, w, first).messages == AckOne(db.messages, call.user, call.message, w.at)
  {
    hide Rows;
  }

  lemma ReadOneIsReadAll(db: Db, call: Call, w: Work, id: Uuid)
    requires WorkOk(db, call, w) && w.Reading? && id in db.messages
    ensures (db.messages + Writes(w))[id] == ReadAll(db.messages, w.visible, w.conv.id, w.reader, w.upTo, w.at)[id]
    ensures id in w.messages <==> (db.messages + Writes(w))[id] != db.messages[id]
  {
    hide Anchored, Listed, KeyAtMost, Rows;
    if id in w.messages {
      assert Readable(db, w.conv, w.reader, id, w.messages[id]);
      assert Matched(db, w.conv, w.reader, w.upTo, id);
    } else if id in w.visible {
      assert id in w.visible - w.messages.Keys;
    }
  }

  /** A read receipt takes unread messages of one reader in one conversation. */
  lemma ReadingTakes(db: Db, call: Call, w: Work, id: Uuid)
    requires WorkOk(db, call, w) && w.Reading? && id in w.messages
    ensures id in db.messages && db.messages[id] == w.messages[id]
    ensures db.messages[id].conversation == w.conv.id && db.messages[id].recipient == w.reader && db.messages[id].status != Read
  {
    hide Anchored, Listed, Matched, IsRead;
    assert Readable(db, w.conv, w.reader, id, w.messages[id]);
  }

  /** However the row locks of a read receipt were interleaved with other transactions, its commit
      does what the whole UPDATE would do now on the rows it saw, and its answer names exactly the
      rows it changes. */
  lemma ReadCommitsAtomically(db: Db, call: Call, w: Work, first: nat)
    requires WorkOk(db, call, w) && w.Reading?
    ensures call.ReadUpTo? && Anchored(db, call, w.conv, w.upTo)
    ensures Install(db, w, first).messages == ReadAll(db.messages, w.visible, call.conversation, call.user, w.upTo, w.at)
    ensures forall id | id in db.messages :: id in Answer(w).ids <==> Install(db, w, first).messages[id] != db.messages[id]
  {
    hide Anchored, Rows, Numbered, ReadAll, WorkOk;
    var after := db.messages + Writes(w);
    var all := ReadAll(db.messages, w.visible, w.conv.id, w.reader, w.upTo, w.at);
    AnchorOfWork(db, call, w);
    ReadAllKeys(db.messages, w.visible, w.conv.id, w.reader, w.upTo, w.at);
    forall id | id in Writes(w) ensures id in db.messages {
      ReadingTakes(db, call, w, id);
    }
    assert after.Keys == all.Keys;
    forall id | id in db.messages
      ensures after[id] == all[id] && (id in w.messages <==> after[id] != db.messages[id])
    {
      ReadOneIsReadAll(db, call, w, id);
    }
  }

  lemma AnchorOfWork(db: Db, call: Call, w: Work)
    requires WorkOk(db, call, w) && w.Reading?
    ensures call.ReadUpTo? && w.conv.id == call.conversation && w.reader == call.user
    ensures Anchored(db, call, w.conv, w.upTo)
  {
  }

  lemma ReadAllKeys(t: Table, rows: set<Uuid>, conversation: Uuid, user: UserId, upTo: Key, now: Timestamp)
    ensures ReadAll(t, rows, conversation, user, upTo, now).Keys == t.Keys
  {
  }

  /** A read receipt that answers with no ids is the same atomic operation, changing nothing. */
  lemma EmptyReadIsAtomic(db: Db, nextRow: nat, call: Call, pc: Pc)
    requires PcOk(db, nextRow, call, pc) && pc.ReadLock? && pc.todo == {} && pc.got == map[]
    ensures db.messages == ReadAll(db.messages, pc.visible, call.conversation, call.user, pc.upTo, pc.now)
  {
    hide Anchored, Matched;
    forall id | id in pc.visible ensures IsRead(db, id) {
      assert id in pc.visible - pc.todo - pc.got.Keys;
    }
  }

  // ---- any number of receipts on a fixed set of messages

  datatype Receipt =
    | Acked(user: UserId, message: Uuid)
    | ReadTo(user: UserId, conversation: Uuid, anchor: Uuid)

  /** A receipt with the clock reading it is stamped with. */
  datatype Stamp = Stamp(receipt: Receipt, now: Timestamp)

  function Act(t: Table, s: Stamp): Table {
    match s.receipt
    case Acked(user, id) => AckOne(t, user, id, s.now)
    case ReadTo(user, conversation, anchor) =>
      if anchor in t && t[anchor].conversation == conversation
      then ReadAll(t, t.Keys, conversation, user, t[anchor].Key(), s.now)
      else t
  }

  function ActAll(t: Table, stamps: seq<Stamp>): Table {
    if stamps == [] then t else Act(ActAll(t, stamps[..|stamps| - 1]), stamps[|stamps| - 1])
  }

  /** The rank that one receipt entitles a message to. */
  function Entitles(t: Table, r: Receipt, id: Uuid): nat
    requires id in t
  {
    match r
    case Acked(user, message) => if message == id && t[id].recipient == user then 1 else 0
    case ReadTo(user, conversation, anchor) =>
      if anchor in t && t[anchor].conversation == conversation
         && InReach(t[id], conversation, user, t[anchor].Key())
      then 2 else 0
  }

  function Max(a: nat, b: nat): nat {
    if a < b then b else a
  }

  /** The best that a set of receipts entitles a message to, starting from its own status. */
  function Entitled(t: Table, stamps: seq<Stamp>, id: Uuid): nat
    requires id in t
  {
    if stamps == [] then Rank(t[id].status)
    else Max(Entitled(t, stamps[..|stamps| - 1], id), Entitles(t, stamps[|stamps| - 1].receipt, id))
  }

  predicate SameTable(t: Table, t': Table) {
    t'.Keys == t.Keys && forall id | id in t :: SameMessage(t[id], t'[id])
  }

  lemma ActOne(t: Table, s: Stamp, id: Uuid)
    requires id in t && t[id].id == id
    ensures id in Act(t, s) && SameMessage(t[id], Act(t, s)[id])
    ensures Rank(Act(t, s)[id].status) == Max(Rank(t[id].status), Entitles(t, s.receipt, id))
  {
    hide KeyAtMost;
  }

  lemma ActKeepsTable(t: Table, s: Stamp)
    requires forall id | id in t :: t[id].id == id
    ensures SameTable(t, Act(t, s))
    ensures forall id | id in t :: Rank(Act(t, s)[id].status) == Max(Rank(t[id].status), Entitles(t, s.receipt, id))
  {
    hide SameMessage, Rank, Max, Entitles;
    forall id | id in t
      ensures SameMessage(t[id], Act(t, s)[id]) && Rank(Act(t, s)[id].status) == Max(Rank(t[id].status), Entitles(t, s.receipt, id))
    {
      ActOne(t, s, id);
    }
  }

  lemma EntitlesAlike(t: Table, t': Table, r: Receipt, id: Uuid)
    requires SameTable(t, t') && id in t
    ensures Entitles(t', r, id) == Entitles(t, r, id)
  {
    if r.ReadTo? && r.anchor in t {
      assert SameMessage(t[r.anchor], t'[r.anchor]) && SameMessage(t[id], t'[id]);
    }
  }

  /** The outcome of any sequence of receipts in closed form. */
  lemma {:induction false} ClosedForm(t: Table, stamps: seq<Stamp>)
    requires forall id | id in t :: t[id].id == id
    ensures SameTable(t, ActAll(t, stamps))
    ensures forall id | id in t :: Rank(ActAll(t, stamps)[id].status) == Entitled(t, stamps, id)
  {
    if stamps != [] {
      var last := |stamps| - 1;
      var before := ActAll(t, stamps[..last]);
      ClosedForm(t, stamps[..last]);
      forall id | id in before ensures before[id].id == id {
        assert SameMessage(t[id], before[id]);
      }
      ActKeepsTable(before, stamps[last]);
      forall id | id in t
        ensures SameMessage(t[id], ActAll(t, stamps)[id])
        ensures Rank(ActAll(t, stamps)[id].status) == Entitled(t, stamps, id)
      {
        EntitlesAlike(t, before, stamps[last].receipt, id);
        assert SameMessage(t[id], before[id]) && SameMessage(before[id], Act(before, stamps[last])[id]);
      }
    }
  }

  ghost predicate Contains(stamps: seq<Stamp>, r: Receipt) {
    exists s :: s in stamps && s.receipt == r
  }

  lemma {:induction false} EntitledBounds(t: Table, stamps: seq<Stamp>, id: Uuid, r: Receipt)
    requires id in t && Contains(stamps, r)
    ensures Entitles(t, r, id) <= Entitled(t, stamps, id)
  {
    var last := |stamps| - 1;
    if stamps[last].receipt != r {
      var s :| s in stamps && s.receipt == r;
      assert s in stamps[..last];
      EntitledBounds(t, stamps[..last], id, r);
    }
  }

  lemma {:induction false} EntitledIsReached(t: Table, stamps: seq<Stamp>, id: Uuid)
    requires id in t
    ensures Entitled(t, stamps, id) == Rank(t[id].status)
            || exists r :: Contains(stamps, r) && Entitles(t, r, id) == Entitled(t, stamps, id)
  {
    if stamps != [] {
      var last := |stamps| - 1;
      EntitledIsReached(t, stamps[..last], id);
      if Entitled(t, stamps, id) == Entitles(t, stamps[last].receipt, id) {
        assert Contains(stamps, stamps[last].receipt);
      } else if Entitled(t, stamps, id) != Rank(t[id].status) {
        var r :| Contains(stamps[..last], r) && Entitles(t, r, id) == Entitled(t, stamps[..last], id);
        assert Contains(stamps, r);
      }
    }
  }

  lemma {:induction false} EntitledAtLeast(t: Table, stamps: seq<Stamp>, id: Uuid)
    requires id in t
    ensures Rank(t[id].status) <= Entitled(t, stamps, id)
  {
    if stamps != [] {
      EntitledAtLeast(t, stamps[..|stamps| - 1], id);
    }
  }

  lemma EntitledIsMonotone(t: Table, some: seq<Stamp>, more: seq<Stamp>, id: Uuid)
    requires id in t && forall r :: Contains(some, r) ==> Contains(more, r)
    ensures Entitled(t, some, id) <= Entitled(t, more, id)
  {
    EntitledIsReached(t, some, id);
    EntitledAtLeast(t, more, id);
    if Entitled(t, some, id) != Rank(t[id].status) {
      var r :| Contains(some, r) && Entitles(t, r, id) == Entitled(t, some, id);
      EntitledBounds(t, more, id, r);
    }
  }

  /** Receipts are confluent: the same receipts in any order, repeated any number of times and
      stamped with any clocks, leave every message at the same status. */
  lemma ReceiptsAreConfluent(t: Table, some: seq<Stamp>, others: seq<Stamp>, id: Uuid)
    requires forall i | i in t :: t[i].id == i
    requires forall r :: Contains(some, r) <==> Contains(others, r)
    requires id in t
    ensures id in ActAll(t, some) && id in ActAll(t, others)
    ensures ActAll(t, some)[id].status == ActAll(t, others)[id].status
  {
    ClosedForm(t, some);
    ClosedForm(t, others);
    EntitledIsMonotone(t, some, others, id);
    EntitledIsMonotone(t, others, some, id);
  }

  // ---- the unread count

  function UnreadIn(t: Table, conversation: Uuid, user: UserId): set<Uuid> {
    set id | id in t && t[id].conversation == conversation && t[id].recipient == user && t[id].status != Read
  }

  lemma UnreadDropsBy(before: set<Uuid>, after: set<Uuid>, ids: set<Uuid>)
    requires ids <= before && after == before - ids
    ensures |after| == |before| - |ids|
  {
  }

  lemma UnreadOne(db: Db, call: Call, w: Work, first: nat, conversation: Uuid, user: UserId, id: Uuid)
    requires WorkOk(db, call, w) && w.Reading?
    ensures id in UnreadIn(Install(db, w, first).messages, conversation, user)
            <==> id in UnreadIn(db.messages, conversation, user) && id !in w.messages
  {
    hide WorkOk, Rows, Numbered, OwnConversation;
    if id in w.messages {
      ReadingTakes(db, call, w, id);
    }
  }

  lemma UnreadAfter(db: Db, call: Call, w: Work, first: nat, conversation: Uuid, user: UserId)
    requires WorkOk(db, call, w) && w.Reading?
    ensures var before, after := UnreadIn(db.messages, conversation, user), UnreadIn(Install(db, w, first).messages, conversation, user);
            if conversation == w.conv.id && user == w.reader
            then w.messages.Keys <= before && after == before - w.messages.Keys
            else after == before
  {
    hide WorkOk, Install;
    forall id ensures id in UnreadIn(Install(db, w, first).messages, conversation, user)
                      <==> id in UnreadIn(db.messages, conversation, user) && id !in w.messages
    {
      UnreadOne(db, call, w, first, conversation, user, id);
    }
    forall id | id in w.messages
      ensures id in UnreadIn(db.messages, conversation, user) <==> conversation == w.conv.id && user == w.reader
    {
      ReadingTakes(db, call, w, id);
    }
  }

  /** The commit of a read receipt lowers the reader's unread count in that conversation by exactly
      the number of ids it answers with, and leaves every other count alone. */
  lemma ReadLowersUnread(db: Db, call: Call, w: Work, first: nat, conversation: Uuid, user: UserId)
    requires WorkOk(db, call, w) && w.Reading? && call.ReadUpTo?
    ensures |UnreadIn(Install(db, w, first).messages, conversation, user)|
         == |UnreadIn(db.messages, conversation, user)|
            - if conversation == call.conversation && user == call.user then |Answer(w).ids| else 0
  {
    hide WorkOk, UnreadIn, Install;
    AnchorOfWork(db, call, w);
    UnreadAfter(db, call, w, first, conversation, user);
    if conversation == call.conversation && user == call.user {
      UnreadDropsBy(UnreadIn(db.messages, conversation, user),
                    UnreadIn(Install(db, w, first).messages, conversation, user), w.messages.Keys);
    }
  }
}
