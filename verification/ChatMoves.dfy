/** Every step that changes only a program counter keeps the invariant. */
module ChatMoves {
  import opened Basics
  import opened Clock
  import opened Uuids
  import opened Models
  import opened ChatStore
  import opened ChatInvariant

  lemma CompatibleIsSymmetric(a: Pc, b: Pc)
    requires Compatible(a, b)
    ensures Compatible(b, a)
  {
    if a.Flushed? && b.Flushed? {
      var m, n := |Rows(a.work)|, |Rows(b.work)|;
      assert a.first + m <= b.first || b.first + n <= a.first;
    }
  }

  /** Going from `before` to `after` takes no lock and draws no identity value. */
  predicate Shrinks(before: Pc, after: Pc) {
    && Held(after) <= Held(before)
    && (HeldConversation(after).None? || HeldConversation(after) == HeldConversation(before))
    && (HeldMessage(after).None? || HeldMessage(after) == HeldMessage(before))
    && (CreatedId(after).None? || CreatedId(after) == CreatedId(before))
    && !after.Flushed?
  }

  lemma ShrinkingIsCompatible(before: Pc, after: Pc, other: Pc)
    requires Compatible(before, other) && Shrinks(before, after)
    ensures Compatible(after, other)
  {
  }

  /** The obligations of one move of process `p`. */
  ghost predicate MoveOk(s: Store, p: nat, pc: Pc)
    requires p in s.procs
  {
    && PcOk(s.db, s.nextRow, s.procs[p].call, pc)
    && forall q | q in s.procs && q != p :: Compatible(pc, s.procs[q].pc)
  }

  lemma GotoOk(s: Store, p: nat, pc: Pc)
    requires ProcsOk(s) && p in s.procs && MoveOk(s, p, pc)
    ensures ProcsOk(Goto(s, p, pc))
  {
    var s' := Goto(s, p, pc);
    forall x, y | x in s'.procs && y in s'.procs && x != y
      ensures Compatible(s'.procs[x].pc, s'.procs[y].pc)
    {
      if y == p {
        CompatibleIsSymmetric(pc, s.procs[x].pc);
      }
    }
  }

  lemma ShrinkOk(s: Store, p: nat, pc: Pc)
    requires ProcsOk(s) && p in s.procs
    requires PcOk(s.db, s.nextRow, s.procs[p].call, pc) && Shrinks(s.procs[p].pc, pc)
    ensures MoveOk(s, p, pc)
  {
    forall q | q in s.procs && q != p ensures Compatible(pc, s.procs[q].pc) {
      ShrinkingIsCompatible(s.procs[p].pc, pc, s.procs[q].pc);
    }
  }

  lemma ReplayOk(db: Db, call: Call, id: Uuid)
    requires MessagesOk(db) && call.Send? && id in db.messages
    requires SameClientId(db.messages[id], call.user, call.req.clientId)
    ensures ResponseOk(db, call, Replay(db.messages[id], call.req))
  {
    assert MessageOk(db, id);
  }

  lemma LookupMove(s: Store, a: Action)
    requires Enabled(s, a) && (a.Lookup? || a.LookupAgain?)
    ensures a.p in s.procs && s.procs[a.p].call.Send? && (if a.Lookup? then s.procs[a.p].pc.SendLookup? else s.procs[a.p].pc.SendRetry?)
    ensures LookupFinds(s.db, s.procs[a.p].call.user, s.procs[a.p].call.req.clientId, a.found)
    ensures a.found.Some? ==> a.found.value in s.db.messages && Move(s, a) == Done(Replay(s.db.messages[a.found.value], s.procs[a.p].call.req))
    ensures a.found.None? ==> Move(s, a) == if a.LookupAgain? then Done(Failed(ConcurrentSend))
                                            else if s.procs[a.p].call.req.attachment.Some? then SendAttachment else SendConversation(None)
  {
    hide ClientIdTaken, Replay;
  }

  lemma LookupOk(s: Store, a: Action)
    requires ProcsOk(s) && MessagesOk(s.db) && Enabled(s, a) && (a.Lookup? || a.LookupAgain?)
    ensures MoveOk(s, a.p, Move(s, a))
  {
    hide Enabled, Move, WorkOk, Compatible, Rows, Writes, MoveOk, MessagesOk, Replay, NumbersOk, LockOk;
    LookupMove(s, a);
    var call := s.procs[a.p].call;
    assert PcOk(s.db, s.nextRow, call, s.procs[a.p].pc);
    if a.found.Some? {
      ReplayOk(s.db, call, a.found.value);
      ReplayIsNew(s.db.messages[a.found.value], call.req);
    }
    ShrinkOk(s, a.p, Move(s, a));
  }

  lemma ReplayIsNew(m: Message, req: SendRequest)
    ensures CreatedId(Done(Replay(m, req))) == None
  {
  }

  lemma InsertConversationOk(s: Store, a: Action)
    requires ProcsOk(s) && Enabled(s, a) && a.InsertConversation?
    ensures MoveOk(s, a.p, Move(s, a))
  {
    hide WorkOk, ResponseOk, Precedes, Rows, Writes, LockOk;
    var call, before := s.procs[a.p].call, s.procs[a.p].pc;
    assert PcOk(s.db, s.nextRow, call, before);
    var pc := Move(s, a);
    if pc.own.None? {
      ShrinkOk(s, a.p, pc);
    } else {
      var own := FreshConversation(a.id, call.user, call.req.recipient, a.now);
      assert PcOk(s.db, s.nextRow, call, pc);
      forall q | q in s.procs && q != a.p ensures Compatible(pc, s.procs[q].pc) {
        NewConversationIsCompatible(s, a.p, q, pc, own);
      }
    }
  }

  lemma NewConversationIsCompatible(s: Store, p: nat, q: nat, pc: Pc, own: Conversation)
    requires q in s.procs && q != p && !ConversationHeld(s, p, own)
    requires pc.SendSelect? && pc.own == Some(own)
    ensures Compatible(pc, s.procs[q].pc)
  {
  }

  lemma SelectConversationOk(s: Store, a: Action)
    requires ProcsOk(s) && ConversationsOk(s.db) && Enabled(s, a) && a.SelectConversation?
    ensures MoveOk(s, a.p, Move(s, a))
  {
    hide WorkOk, ResponseOk, Compatible, Precedes, Rows, Writes, LockOk;
    var call, before := s.procs[a.p].call, s.procs[a.p].pc;
    assert PcOk(s.db, s.nextRow, call, before);
    if a.id in s.db.conversations {
      assert ConversationOk(s.db, a.id);
    }
    ShrinkOk(s, a.p, Move(s, a));
  }

  lemma InsertMessageOk(s: Store, a: Action)
    requires ProcsOk(s) && Enabled(s, a) && a.InsertMessage?
    ensures MoveOk(s, a.p, Move(s, a))
  {
    var call, before := s.procs[a.p].call, s.procs[a.p].pc;
    assert PcOk(s.db, s.nextRow, call, before);
    var pc := Move(s, a);
    if pc.SendRetry? {
      ShrinkOk(s, a.p, pc);
    } else {
      var m := NewRow(a.id, before.conv, call.user, call.req, before.mime, a.now);
      assert pc == Staged(NewMessage(before.own, m));
      forall q | q in s.procs && q != a.p ensures Compatible(pc, s.procs[q].pc) {
        assert Compatible(before, s.procs[q].pc);
        NewMessageIsCompatible(s, a.p, q, before, m);
      }
    }
  }

  lemma NewMessageIsCompatible(s: Store, p: nat, q: nat, before: Pc, m: Message)
    requires q in s.procs && q != p && !ClientIdHeld(s, p, m.sender, m.clientId) && !RowHeld(s, p, m.id)
    requires before.SendInsert? && Compatible(before, s.procs[q].pc)
    ensures Compatible(Staged(NewMessage(before.own, m)), s.procs[q].pc)
  {
    assert Held(Staged(NewMessage(before.own, m))) == {m.id};
  }

  lemma AckOk(s: Store, a: Action)
    requires ProcsOk(s) && MessagesOk(s.db) && Enabled(s, a) && (a.UpdateSent? || a.GetMessage?)
    ensures MoveOk(s, a.p, Move(s, a))
  {
    hide WorkOk, Compatible, Precedes, Rows, Writes, LockOk, AttachmentOk, ReadBy, NumbersOk, Between;
    var call := s.procs[a.p].call;
    assert PcOk(s.db, s.nextRow, call, s.procs[a.p].pc);
    if call.message in s.db.messages {
      assert MessageOk(s.db, call.message);
    }
    ShrinkOk(s, a.p, Move(s, a));
  }

  lemma LockSentPcOk(db: Db, nextRow: nat, call: Call, now: Timestamp)
    requires MessagesOk(db) && PcOk(db, nextRow, call, AckLock(now))
    ensures call.message in db.messages
    ensures PcOk(db, nextRow, call, if Acknowledges(db.messages[call.message], call.user)
                                    then Staged(Delivery(db.messages[call.message], now)) else AckMiss(true))
  {
    assert MessageOk(db, call.message);
  }

  lemma LockSentMove(s: Store, a: Action)
    requires Enabled(s, a) && a.LockSent?
    ensures a.p in s.procs && s.procs[a.p].pc.AckLock? && s.procs[a.p].call.Ack? && s.procs[a.p].call.message in s.db.messages
    ensures !RowHeld(s, a.p, s.procs[a.p].call.message)
    ensures var call := s.procs[a.p].call;
            Move(s, a) == if Acknowledges(s.db.messages[call.message], call.user)
                          then Staged(Delivery(s.db.messages[call.message], s.procs[a.p].pc.now)) else AckMiss(true)
  {
    hide RowHeld;
  }

  lemma LockSentOk(s: Store, a: Action)
    requires ProcsOk(s) && MessagesOk(s.db) && Enabled(s, a) && a.LockSent?
    ensures MoveOk(s, a.p, Move(s, a))
  {
    hide Move, Enabled, PcOk, MessagesOk, Compatible, Rows;
    LockSentMove(s, a);
    var call, before := s.procs[a.p].call, s.procs[a.p].pc;
    assert PcOk(s.db, s.nextRow, call, before);
    LockSentPcOk(s.db, s.nextRow, call, before.now);
    var pc := Move(s, a);
    if pc.AckMiss? {
      ShrinkOk(s, a.p, pc);
    } else {
      DeliveredId(s.db, call.message);
      forall q | q in s.procs && q != a.p ensures Compatible(pc, s.procs[q].pc) {
        assert Compatible(before, s.procs[q].pc);
        LockedIsCompatible(before, pc, s.procs[q].pc, call.message);
      }
    }
  }

  lemma DeliveredId(db: Db, id: Uuid)
    requires MessagesOk(db) && id in db.messages
    ensures db.messages[id].id == id
  {
    assert MessageOk(db, id);
  }

  lemma StartReadMove(s: Store, a: Action)
    requires Enabled(s, a) && (a.GetConversation? || a.GetAnchor?)
    ensures a.p in s.procs && s.procs[a.p].call.ReadUpTo?
    ensures var call, pc := s.procs[a.p].call, s.procs[a.p].pc;
            if a.GetConversation? then
              && pc.ReadConversation?
              && Move(s, a) == if call.conversation in s.db.conversations && s.db.conversations[call.conversation].Has(call.user)
                               then ReadAnchor(s.db.conversations[call.conversation]) else Done(Failed(NotFound))
            else
              && pc.ReadAnchor?
              && Move(s, a) == if call.message in s.db.messages && s.db.messages[call.message].conversation == pc.conv.id
                               then ReadUpdate(pc.conv, s.db.messages[call.message].Key(), a.now) else Done(Failed(NotFound))
  {
  }

  lemma ListedById(db: Db, id: Uuid)
    requires ConversationsOk(db) && id in db.conversations
    ensures db.conversations[id].id == id
  {
    hide Between, StringLess;
    assert ConversationOk(db, id);
  }

  lemma StartReadOk(s: Store, a: Action)
    requires ProcsOk(s) && ConversationsOk(s.db) && Enabled(s, a) && (a.GetConversation? || a.GetAnchor?)
    ensures MoveOk(s, a.p, Move(s, a))
  {
    hide Enabled, Move, ConversationsOk, WorkOk, Compatible, Rows, Writes, LockOk, MoveOk, NumbersOk;
    StartReadMove(s, a);
    var call := s.procs[a.p].call;
    assert PcOk(s.db, s.nextRow, call, s.procs[a.p].pc);
    if a.GetConversation? && call.conversation in s.db.conversations {
      ListedById(s.db, call.conversation);
    }
    ShrinkOk(s, a.p, Move(s, a));
  }

  lemma UpdateUnreadOk(s: Store, a: Action)
    requires ProcsOk(s) && Enabled(s, a) && a.UpdateUnread?
    ensures MoveOk(s, a.p, Move(s, a))
  {
    hide WorkOk, ResponseOk, Compatible, Precedes, Rows, Writes;
    assert PcOk(s.db, s.nextRow, s.procs[a.p].call, s.procs[a.p].pc);
    ShrinkOk(s, a.p, Move(s, a));
  }

  lemma LockedIsCompatible(before: Pc, after: Pc, other: Pc, id: Uuid)
    requires Compatible(before, other) && id !in Held(other) && Held(after) <= Held(before) + {id}
    requires HeldConversation(after).None? && HeldMessage(after).None? && CreatedId(after).None? && !after.Flushed?
    ensures Compatible(after, other)
  {
    hide HeldConversation, HeldMessage, CreatedId, Writes, Rows;
  }

  lemma LockUnreadOk(s: Store, a: Action)
    requires ProcsOk(s) && Enabled(s, a) && a.LockUnread?
    ensures MoveOk(s, a.p, Move(s, a))
  {
    hide WorkOk, ResponseOk, Precedes, Rows, Writes, Compatible, LockOk, NumbersOk;
    var call, before := s.procs[a.p].call, s.procs[a.p].pc;
    assert PcOk(s.db, s.nextRow, call, before);
    var pc := Move(s, a);
    LockOneMore(s.db, call.user, before, a.id, pc);
    forall q | q in s.procs && q != a.p ensures Compatible(pc, s.procs[q].pc) {
      assert Compatible(before, s.procs[q].pc);
      LockedIsCompatible(before, pc, s.procs[q].pc, a.id);
    }
  }

  lemma LockOneMore(db: Db, user: UserId, before: Pc, id: Uuid, after: Pc)
    requires before.ReadLock? && LockOk(db, user, before) && id in before.todo && id in db.messages
    requires after == before.(todo := before.todo - {id},
                              got := if db.messages[id].status != Read then before.got[id := db.messages[id]] else before.got)
    ensures LockOk(db, user, after)
  {
    assert Matched(db, before.conv, user, before.upTo, id);
    forall x | x in after.visible - after.todo - after.got.Keys ensures IsRead(db, x) {
      if x != id {
        assert x in before.visible - before.todo - before.got.Keys;
      }
    }
  }

  lemma LocksBecomeWork(db: Db, call: Call, pc: Pc)
    requires pc.ReadLock? && call.ReadUpTo? && LockOk(db, call.user, pc) && Anchored(db, call, pc.conv, pc.upTo)
    requires pc.todo == {} && pc.got != map[]
    ensures WorkOk(db, call, Reading(pc.conv, call.user, pc.upTo, pc.now, pc.visible, pc.got))
    ensures Writes(Reading(pc.conv, call.user, pc.upTo, pc.now, pc.visible, pc.got)).Keys == pc.got.Keys
  {
    hide Matched, Readable, IsRead;
    assert pc.got.Keys != {};
    assert pc.visible - pc.todo - pc.got.Keys == pc.visible - pc.got.Keys;
  }

  lemma EndUpdateOk(s: Store, a: Action)
    requires ProcsOk(s) && Enabled(s, a) && a.EndUpdate?
    ensures MoveOk(s, a.p, Move(s, a))
  {
    hide Compatible, Precedes, NumbersOk, Rows, Writes, WorkOk, LockOk, RefusalOk, ReadBy, AttachmentOk;
    var call, before := s.procs[a.p].call, s.procs[a.p].pc;
    assert PcOk(s.db, s.nextRow, call, before);
    if before.got != map[] {
      LocksBecomeWork(s.db, call, before);
    }
    ShrinkOk(s, a.p, Move(s, a));
  }

  lemma FinishOk(s: Store, a: Action)
    requires ProcsOk(s) && Enabled(s, a) && (a.CheckAttachment? || a.Notify? || a.Abort?)
    ensures MoveOk(s, a.p, Move(s, a))
  {
    hide WorkOk, Compatible, Precedes, Rows, Writes, LockOk, ReadBy, NumbersOk, OwnOk, TargetOk, Anchored;
    assert PcOk(s.db, s.nextRow, s.procs[a.p].call, s.procs[a.p].pc);
    ShrinkOk(s, a.p, Move(s, a));
  }

  lemma LocalStepOk(s: Store, a: Action)
    requires DbOk(s.db) && ProcsOk(s) && Enabled(s, a) && !a.Begin? && !a.Flush? && !a.Commit?
    ensures ProcsOk(Apply(s, a))
  {
    match a {
      case Lookup(_, _) => LookupOk(s, a);
      case LookupAgain(_, _) => LookupOk(s, a);
      case InsertConversation(_, _, _) => InsertConversationOk(s, a);
      case SelectConversation(_, _) => SelectConversationOk(s, a);
      case InsertMessage(_, _, _) => InsertMessageOk(s, a);
      case UpdateSent(_, _) => AckOk(s, a);
      case GetMessage(_) => AckOk(s, a);
      case LockSent(_) => LockSentOk(s, a);
      case GetConversation(_) => StartReadOk(s, a);
      case GetAnchor(_, _) => StartReadOk(s, a);
      case UpdateUnread(_) => UpdateUnreadOk(s, a);
      case LockUnread(_, _) => LockUnreadOk(s, a);
      case EndUpdate(_) => EndUpdateOk(s, a);
      case CheckAttachment(_, _) => FinishOk(s, a);
      case Notify(_) => FinishOk(s, a);
      case Abort(_) => FinishOk(s, a);
    }
    GotoOk(s, a.p, Move(s, a));
  }

  /** Holding nothing is compatible with everything. */
  lemma IdleIsCompatible(a: Pc, b: Pc)
    requires Held(a) == {} && HeldConversation(a).None? && HeldMessage(a).None? && CreatedId(a).None?
    requires !a.Flushed?
    ensures Compatible(a, b) && Compatible(b, a)
  {
  }

  lemma BeginOk(s: Store, a: Action)
    requires ProcsOk(s) && Enabled(s, a) && a.Begin?
    ensures ProcsOk(Apply(s, a))
  {
    hide WorkOk, Compatible, Precedes, Rows, Writes, LockOk;
    var s' := Apply(s, a);
    forall x, y | x in s'.procs && y in s'.procs && x != y
      ensures Compatible(s'.procs[x].pc, s'.procs[y].pc)
    {
      if x == a.p || y == a.p {
        IdleIsCompatible(Enter(a.call), if x == a.p then s'.procs[y].pc else s'.procs[x].pc);
      }
    }
  }
}
