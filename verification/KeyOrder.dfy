/** Runs in which messages become visible in key order, and runs in which they do not.

    `created_at` is stamped before the commit, so a message can become visible after one with a
    larger key. Where that does not happen, the messages a user has read are always a prefix of
    the ones the user has been sent. */
module KeyOrder {
  import opened Basics
  import opened Clock
  import opened Uuids
  import opened Models
  import opened ChatStore
  import opened ChatInvariant
  import opened ChatCommits

  /** A message that commits now has a key above everything visible in its conversation. */
  ghost predicate InKeyOrder(s: Store, a: Action)
    requires Enabled(s, a)
  {
    a.Commit? && s.procs[a.p].pc.work.NewMessage? ==>
      var m := s.procs[a.p].pc.work.message;
      forall id | id in s.db.messages && s.db.messages[id].conversation == m.conversation ::
        KeyLess(s.db.messages[id].Key(), m.Key())
  }

  ghost predicate ReachesInKeyOrder(s: Store, actions: seq<Action>, s': Store)
    decreases |actions|
  {
    if actions == [] then s' == s
    else Enabled(s, actions[0]) && InKeyOrder(s, actions[0]) && ReachesInKeyOrder(Apply(s, actions[0]), actions[1..], s')
  }

  /** If `n` is read and `m` is an earlier message to the same user, `m` is read. */
  predicate ReadBefore(db: Db, m: Uuid, n: Uuid)
    requires m in db.messages && n in db.messages
  {
    db.messages[m].conversation == db.messages[n].conversation
    && db.messages[m].recipient == db.messages[n].recipient
    && KeyLess(db.messages[m].Key(), db.messages[n].Key())
    && db.messages[n].status == Read
    ==> db.messages[m].status == Read
  }

  ghost predicate ReadIsPrefix(db: Db) {
    forall m, n | m in db.messages && n in db.messages :: ReadBefore(db, m, n)
  }

  /** A read receipt in progress sees every unread message it should. */
  predicate Covers(db: Db, conv: Conversation, user: UserId, upTo: Key, visible: set<Uuid>, id: Uuid) {
    Matched(db, conv, user, upTo, id) ==> id in visible || IsRead(db, id)
  }

  ghost predicate SeesAll(db: Db, call: Call, pc: Pc) {
    match pc
    case ReadLock(conv, upTo, _, visible, _, _) => forall id :: Covers(db, conv, call.user, upTo, visible, id)
    case Staged(w) => w.Reading? ==> forall id :: Covers(db, w.conv, w.reader, w.upTo, w.visible, id)
    case Flushed(w, _) => w.Reading? ==> forall id :: Covers(db, w.conv, w.reader, w.upTo, w.visible, id)
    case _ => true
  }

  ghost predicate OrderInv(s: Store) {
    ReadIsPrefix(s.db) && forall p | p in s.procs :: SeesAll(s.db, s.procs[p].call, s.procs[p].pc)
  }

  /** A message that commits in key order is above the anchor of every read receipt in progress. */
  lemma CoversStable(db: Db, call: Call, w: Work, first: nat, reader: Call, conv: Conversation, upTo: Key, visible: set<Uuid>, id: Uuid)
    requires WorkOk(db, call, w) && MessagesOk(db)
    requires Evolves(db, Install(db, w, first))
    requires reader.ReadUpTo? && Anchored(db, reader, conv, upTo)
    requires w.NewMessage? ==> forall x | x in db.messages && db.messages[x].conversation == w.message.conversation ::
                                 KeyLess(db.messages[x].Key(), w.message.Key())
    requires Covers(db, conv, reader.user, upTo, visible, id)
    ensures Covers(Install(db, w, first), conv, reader.user, upTo, visible, id)
  {
    hide Rows, Numbered, Stamped, TargetOk, ClientIdTaken, KeyLess, Evolves, WorkOk, MessagesOk;
    var db' := Install(db, w, first);
    KeepsBoth(db, db', id, reader.message);
    if id !in db.messages && id in Writes(w) {
      WrittenIds(db, call, w, id);
    }
  }

  /** The read receipt that a request has in progress, if any: its anchor and what it matched. */
  lemma ReceiptInProgress(db: Db, nextRow: nat, reader: Call, pc: Pc)
    requires PcOk(db, nextRow, reader, pc)
    ensures pc.ReadLock? ==> reader.ReadUpTo? && Anchored(db, reader, pc.conv, pc.upTo)
    ensures (pc.Staged? || pc.Flushed?) && pc.work.Reading? ==>
              reader.ReadUpTo? && pc.work.reader == reader.user && Anchored(db, reader, pc.work.conv, pc.work.upTo)
  {
    hide Matched, Readable, IsRead, Listed, Anchored, LockOk, NumbersOk, TargetOk, OwnOk, ClientIdTaken, PairTaken;
  }

  lemma SeesAllAfter(db: Db, nextRow: nat, call: Call, w: Work, first: nat, reader: Call, pc: Pc)
    requires WorkOk(db, call, w) && MessagesOk(db) && Evolves(db, Install(db, w, first)) && PcOk(db, nextRow, reader, pc)
    requires w.NewMessage? ==> forall x | x in db.messages && db.messages[x].conversation == w.message.conversation ::
                                 KeyLess(db.messages[x].Key(), w.message.Key())
    requires SeesAll(db, reader, pc)
    ensures SeesAll(Install(db, w, first), reader, pc)
  {
    hide WorkOk, MessagesOk, Evolves, Install, PcOk, Covers, KeyLess, Anchored;
    ReceiptInProgress(db, nextRow, reader, pc);
    if pc.ReadLock? {
      forall id ensures Covers(Install(db, w, first), pc.conv, reader.user, pc.upTo, pc.visible, id) {
        CoversStable(db, call, w, first, reader, pc.conv, pc.upTo, pc.visible, id);
      }
    } else if (pc.Staged? || pc.Flushed?) && pc.work.Reading? {
      var v := pc.work;
      forall id ensures Covers(Install(db, w, first), v.conv, v.reader, v.upTo, v.visible, id) {
        CoversStable(db, call, w, first, reader, v.conv, v.upTo, v.visible, id);
      }
    }
  }

  /** What a commit in key order is, on the tables as they are. */
  lemma KeyedCommit(s: Store, a: Action)
    requires Inv(s) && Enabled(s, a) && InKeyOrder(s, a) && a.Commit?
    ensures a.p in s.procs && s.procs[a.p].pc.Flushed?
    ensures var w, first := s.procs[a.p].pc.work, s.procs[a.p].pc.first;
            && WorkOk(s.db, s.procs[a.p].call, w) && MessagesOk(s.db)
            && Apply(s, a).db == Install(s.db, w, first) && Evolves(s.db, Install(s.db, w, first))
            && (w.NewMessage? ==> forall x | x in s.db.messages && s.db.messages[x].conversation == w.message.conversation ::
                                    KeyLess(s.db.messages[x].Key(), w.message.Key()))
  {
    hide DbOk, ProcsOk, PcOk, Enabled, Apply, NumbersOk, WorkOk, Install, Rows, KeyLess, Evolves, MessagesOk;
    CommitEffect(s, a);
    InvParts(s);
    assert PcOk(s.db, s.nextRow, s.procs[a.p].call, s.procs[a.p].pc) by { PcIsOk(s, a.p); }
    FlushedParts(s.db, s.nextRow, s.procs[a.p].call, s.procs[a.p].pc);
    StepOk(s, a);
  }

  lemma PcIsOk(s: Store, p: nat)
    requires Inv(s) && p in s.procs
    ensures PcOk(s.db, s.nextRow, s.procs[p].call, s.procs[p].pc)
  {
    hide DbOk, PcOk, Compatible;
  }

  lemma SeesAllStable(s: Store, a: Action, q: nat)
    requires Inv(s) && Enabled(s, a) && InKeyOrder(s, a) && a.Commit? && q in s.procs && q != a.p
    requires SeesAll(s.db, s.procs[q].call, s.procs[q].pc)
    ensures SeesAll(Apply(s, a).db, s.procs[q].call, s.procs[q].pc)
  {
    hide Inv, Enabled, Apply, Install, SeesAll, KeyLess, WorkOk, MessagesOk, Evolves, PcOk;
    KeyedCommit(s, a);
    PcIsOk(s, q);
    SeesAllAfter(s.db, s.nextRow, s.procs[a.p].call, s.procs[a.p].pc.work, s.procs[a.p].pc.first, s.procs[q].call, s.procs[q].pc);
  }

  lemma MoveSeesAll(s: Store, a: Action)
    requires Enabled(s, a) && !a.Begin? && !a.Flush? && !a.Commit?
    requires SeesAll(s.db, s.procs[a.p].call, s.procs[a.p].pc)
    ensures SeesAll(s.db, s.procs[a.p].call, Move(s, a))
  {
    hide KeyAtMost, PairHeld, ClientIdHeld, RowHeld, LookupFinds, PairTaken, ClientIdTaken, Replay, Explain;
  }

  lemma OtherStepOrder(s: Store, a: Action)
    requires OrderInv(s) && Enabled(s, a) && !a.Commit?
    ensures OrderInv(Apply(s, a))
  {
    hide ReadIsPrefix, Covers, PairHeld, ClientIdHeld, RowHeld, LookupFinds, PairTaken, ClientIdTaken, Replay, Explain;
    if !a.Begin? && !a.Flush? {
      MoveSeesAll(s, a);
    }
  }

  /** Only a read receipt makes a message read. */
  lemma BecomesRead(db: Db, call: Call, w: Work, n: Uuid)
    requires WorkOk(db, call, w) && n in db.messages + Writes(w) && (db.messages + Writes(w))[n].status == Read
    ensures n in db.messages
    ensures db.messages[n].status == Read || (w.Reading? && n in w.messages)
  {
    hide TargetOk, ClientIdTaken, Stamped, Anchored, Listed, Matched, IsRead;
  }

  lemma OldPairAfterCommit(db: Db, call: Call, w: Work, first: nat, m: Uuid, n: Uuid)
    requires WorkOk(db, call, w) && Evolves(db, Install(db, w, first))
    requires m in db.messages && n in db.messages && ReadBefore(db, m, n)
    requires w.Reading? ==> Covers(db, w.conv, w.reader, w.upTo, w.visible, m)
    ensures m in Install(db, w, first).messages && n in Install(db, w, first).messages
    ensures ReadBefore(Install(db, w, first), m, n)
  {
    hide Rows, WorkOk, Writes, KeyLess, Covers, Evolves;
    var db' := Install(db, w, first);
    KeepsBoth(db, db', m, n);
    if db'.messages[n].status == Read {
      BecomesRead(db, call, w, n);
      if w.Reading? && n in w.messages {
        ReadTogether(db, call, w, first, m, n);
      }
    }
  }

  lemma KeepsBoth(db: Db, db': Db, m: Uuid, n: Uuid)
    requires Evolves(db, db')
    ensures KeepsMessage(db, db', m) && KeepsMessage(db, db', n)
  {
  }

  lemma ReadAfterCommit(db: Db, call: Call, w: Work, first: nat, m: Uuid, n: Uuid)
    requires WorkOk(db, call, w) && MessagesOk(db) && Evolves(db, Install(db, w, first))
    requires m in Install(db, w, first).messages && n in Install(db, w, first).messages
    requires m in db.messages && n in db.messages ==> ReadBefore(db, m, n)
    requires w.Reading? ==> Covers(db, w.conv, w.reader, w.upTo, w.visible, m)
    requires w.NewMessage? ==> forall x | x in db.messages && db.messages[x].conversation == w.message.conversation ::
                                 KeyLess(db.messages[x].Key(), w.message.Key())
    ensures ReadBefore(Install(db, w, first), m, n)
  {
    hide Rows, WorkOk, MessagesOk, KeyLess, Evolves, Covers;
    var db' := Install(db, w, first);
    if m in db.messages && n in db.messages {
      OldPairAfterCommit(db, call, w, first, m, n);
    } else if db'.messages[n].status == Read {
      BecomesRead(db, call, w, n);
      WrittenIds(db, call, w, m);
      KeysAreTotallyOrdered(w.message.Key(), db.messages[n].Key());
    }
  }

  lemma KeysBelow(a: Key, b: Key, c: Key)
    requires KeyAtMost(b, c)
    ensures KeyLess(a, b) ==> KeyAtMost(a, c)
  {
    hide Ordinal;
  }

  lemma WorkReads(db: Db, call: Call, w: Work, m: Uuid, n: Uuid)
    requires WorkOk(db, call, w) && w.Reading? && n in w.messages
    ensures Matched(db, w.conv, w.reader, w.upTo, n)
    ensures m in w.visible ==> m in w.messages || IsRead(db, m)
  {
    hide Anchored, Listed, Matched, IsRead;
    assert n in w.visible;
    assert m in w.visible && m !in w.messages ==> m in w.visible - w.messages.Keys;
  }

  lemma ReadTogether(db: Db, call: Call, w: Work, first: nat, m: Uuid, n: Uuid)
    requires WorkOk(db, call, w) && w.Reading? && m in db.messages && n in w.messages
    requires Covers(db, w.conv, w.reader, w.upTo, w.visible, m)
    requires Evolves(db, Install(db, w, first))
    ensures n in db.messages && m in Install(db, w, first).messages
    ensures db.messages[m].conversation == db.messages[n].conversation
            && db.messages[m].recipient == db.messages[n].recipient
            && KeyLess(db.messages[m].Key(), db.messages[n].Key())
            ==> Install(db, w, first).messages[m].status == Read
  {
    hide Rows, Numbered, WorkOk, KeyLess, KeyAtMost, Evolves;
    WorkReads(db, call, w, m, n);
    KeepsBoth(db, Install(db, w, first), m, n);
    KeysBelow(db.messages[m].Key(), db.messages[n].Key(), w.upTo);
  }

  lemma OwnReceiptSees(db: Db, call: Call, pc: Pc, id: Uuid)
    requires SeesAll(db, call, pc) && pc.Flushed? && pc.work.Reading?
    ensures Covers(db, pc.work.conv, pc.work.reader, pc.work.upTo, pc.work.visible, id)
  {
    hide Covers;
  }

  lemma CommitOrder(s: Store, a: Action)
    requires Inv(s) && OrderInv(s) && Enabled(s, a) && a.Commit? && InKeyOrder(s, a)
    ensures OrderInv(Apply(s, a))
  {
    hide Inv, Enabled, Apply, Install, SeesAll, KeyLess, WorkOk, MessagesOk, Evolves, PcOk, Covers, ReadBefore;
    KeyedCommit(s, a);
    CommitEffect(s, a);
    var call, w, first := s.procs[a.p].call, s.procs[a.p].pc.work, s.procs[a.p].pc.first;
    var s' := Apply(s, a);
    forall q | q in s'.procs ensures SeesAll(s'.db, s'.procs[q].call, s'.procs[q].pc) {
      if q == a.p {
        FinishedSees(s'.db, s'.procs[q].call, s'.procs[q].pc);
      } else {
        SeesAllStable(s, a, q);
      }
    }
    forall m, n | m in s'.db.messages && n in s'.db.messages ensures ReadBefore(s'.db, m, n) {
      if w.Reading? {
        OwnReceiptSees(s.db, call, s.procs[a.p].pc, m);
      }
      ReadAfterCommit(s.db, call, w, first, m, n);
    }
  }

  lemma FinishedSees(db: Db, call: Call, pc: Pc)
    requires Finished(pc)
    ensures SeesAll(db, call, pc)
  {
  }

  lemma {:induction false} OrderedRunOk(s: Store, actions: seq<Action>, s': Store)
    requires Inv(s) && OrderInv(s) && ReachesInKeyOrder(s, actions, s')
    ensures Inv(s') && OrderInv(s') && Evolves(s.db, s'.db)
    decreases |actions|
  {
    hide Inv, OrderInv, Evolves, Apply, Enabled;
    if actions == [] {
      EvolvesIsReflexive(s.db);
    } else {
      var next := Apply(s, actions[0]);
      StepOk(s, actions[0]);
      if actions[0].Commit? {
        CommitOrder(s, actions[0]);
      } else {
        OtherStepOrder(s, actions[0]);
      }
      OrderedRunOk(next, actions[1..], s');
      EvolvesIsTransitive(s.db, next.db, s'.db);
    }
  }

  /** Where messages become visible in key order, what a user has read in a conversation is a
      prefix of what the user was sent there, whatever the requests and their interleaving. */
  lemma ReadMessagesAreAPrefix(actions: seq<Action>, s: Store, m: Uuid, n: Uuid)
    requires ReachesInKeyOrder(Init(), actions, s) && m in s.db.messages && n in s.db.messages
    requires s.db.messages[m].conversation == s.db.messages[n].conversation
    requires s.db.messages[m].recipient == s.db.messages[n].recipient
    requires KeyLess(s.db.messages[m].Key(), s.db.messages[n].Key()) && s.db.messages[n].status == Read
    ensures s.db.messages[m].status == Read
  {
    hide Inv, ReachesInKeyOrder, KeyLess;
    InitOk();
    OrderedRunOk(Init(), actions, s);
    assert ReadBefore(s.db, m, n);
  }
}
