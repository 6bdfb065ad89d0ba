/** Where each step of ChatStore leads the request that takes it. */
module ChatSteps {
  import opened Basics
  import opened Clock
  import opened Uuids
  import opened Models
  import opened ChatStore

  // ---- runs

  lemma {:induction false} Extend(s: Store, actions: seq<Action>, mid: Store, a: Action)
    requires Reaches(s, actions, mid) && Enabled(mid, a)
    ensures Reaches(s, actions + [a], Apply(mid, a))
    decreases |actions|
  {
    hide Enabled, Apply;
    if actions == [] {
      assert ([a])[1..] == [];
      assert Reaches(Apply(mid, a), [], Apply(mid, a));
      assert [] + [a] == [a];
    } else {
      Extend(Apply(s, actions[0]), actions[1..], mid, a);
      assert (actions + [a])[1..] == actions[1..] + [a];
    }
  }

  /** A step takes one request forward and leaves the others where they are. */
  lemma StepOther(s: Store, p: nat, a: Action)
    requires p in s.procs && Enabled(s, a) && a.p != p
    ensures p in Apply(s, a).procs && Apply(s, a).procs[p] == s.procs[p]
  {
    hide Move, Rows, Install;
  }

  lemma StepRequests(s: Store, a: Action)
    requires Enabled(s, a)
    ensures Apply(s, a).procs.Keys == s.procs.Keys + {a.p}
  {
    hide Move, Rows, Install;
  }

  /** Only a commit changes the tables, and only a flush draws identity values. */
  lemma StepTables(s: Store, a: Action)
    requires Enabled(s, a)
    ensures !a.Commit? ==> Apply(s, a).db == s.db
    ensures !a.Flush? ==> Apply(s, a).nextRow == s.nextRow
  {
    hide Move, Rows, Install;
  }

  /** Request `p` is here. */
  predicate Here(s: Store, p: nat, call: Call, replica: nat, pc: Pc) {
    p in s.procs && s.procs[p] == Proc(call, replica, pc)
  }

  // ---- where each statement leads

  lemma StepBegin(s: Store, p: nat, call: Call, replica: nat)
    requires p !in s.procs
    ensures Enabled(s, Begin(p, replica, call))
    ensures Here(Apply(s, Begin(p, replica, call)), p, call, replica, Enter(call))
    ensures Apply(s, Begin(p, replica, call)).db == s.db
  {
  }

  lemma StepAbort(s: Store, p: nat, call: Call, replica: nat, pc: Pc)
    requires Here(s, p, call, replica, pc) && !Finished(pc)
    ensures Enabled(s, Abort(p)) && Here(Apply(s, Abort(p)), p, call, replica, Done(Failed(Unavailable)))
    ensures Apply(s, Abort(p)).db == s.db
  {
  }

  lemma StepUpdateSent(s: Store, p: nat, user: UserId, message: Uuid, replica: nat, now: Timestamp)
    requires Here(s, p, Ack(user, message), replica, AckUpdate)
    ensures var a := UpdateSent(p, now);
            && Enabled(s, a) && Apply(s, a).db == s.db
            && Here(Apply(s, a), p, Ack(user, message), replica,
                    if message in s.db.messages && Acknowledges(s.db.messages[message], user) then AckLock(now)
                    else AckMiss(message in s.db.messages))
  {
  }

  lemma StepLockSent(s: Store, p: nat, user: UserId, message: Uuid, replica: nat, now: Timestamp)
    requires Here(s, p, Ack(user, message), replica, AckLock(now))
    requires message in s.db.messages && !RowHeld(s, p, message)
    ensures var a := LockSent(p);
            && Enabled(s, a) && Apply(s, a).db == s.db
            && Here(Apply(s, a), p, Ack(user, message), replica,
                    if Acknowledges(s.db.messages[message], user) then Staged(Delivery(s.db.messages[message], now))
                    else AckMiss(true))
  {
  }

  lemma StepGetMessage(s: Store, p: nat, user: UserId, message: Uuid, replica: nat, seen: bool)
    requires Here(s, p, Ack(user, message), replica, AckMiss(seen))
    ensures var a := GetMessage(p);
            && Enabled(s, a) && Apply(s, a).db == s.db
            && Here(Apply(s, a), p, Ack(user, message), replica, Done(Explain(s.db, user, message)))
  {
  }

  lemma StepLookup(s: Store, p: nat, user: UserId, req: SendRequest, replica: nat, found: Option<Uuid>)
    requires Here(s, p, Send(user, req), replica, SendLookup) && LookupFinds(s.db, user, req.clientId, found)
    ensures var a := Lookup(p, found);
            && Enabled(s, a) && Apply(s, a).db == s.db
            && Here(Apply(s, a), p, Send(user, req), replica,
                    if found.Some? then Done(Replay(s.db.messages[found.value], req))
                    else if req.attachment.Some? then SendAttachment else SendConversation(None))
  {
  }

  lemma StepAttachment(s: Store, p: nat, user: UserId, req: SendRequest, replica: nat, stored: Option<Upload>)
    requires Here(s, p, Send(user, req), replica, SendAttachment) && req.attachment.Some?
    ensures var a := CheckAttachment(p, stored);
            && Enabled(s, a) && Apply(s, a).db == s.db
            && Here(Apply(s, a), p, Send(user, req), replica,
                    match CheckUpload(user, req.attachment.value, stored)
                    case Ok(mime) => SendConversation(Some(mime))
                    case Err(e) => Done(Failed(e)))
  {
    hide CheckUpload;
  }

  lemma StepInsertConversation(s: Store, p: nat, user: UserId, req: SendRequest, replica: nat, mime: Option<string>, id: Uuid, now: Timestamp)
    requires Here(s, p, Send(user, req), replica, SendConversation(mime)) && !PairHeld(s, p, SortedPair(user, req.recipient))
    requires PairTaken(s.db, SortedPair(user, req.recipient))
      || (id !in s.db.conversations && !ConversationHeld(s, p, FreshConversation(id, user, req.recipient, now)))
    ensures var a := InsertConversation(p, id, now);
            && Enabled(s, a) && Apply(s, a).db == s.db
            && Here(Apply(s, a), p, Send(user, req), replica,
                    SendSelect(mime, if PairTaken(s.db, SortedPair(user, req.recipient)) then None
                                     else Some(FreshConversation(id, user, req.recipient, now))))
  {
    hide PairHeld, ConversationHeld, SortedPair, PairTaken, FreshConversation;
  }

  lemma StepSelect(s: Store, p: nat, user: UserId, req: SendRequest, replica: nat, mime: Option<string>, own: Option<Conversation>, id: Uuid)
    requires Here(s, p, Send(user, req), replica, SendSelect(mime, own))
    requires SelectFinds(s.db, own, SortedPair(user, req.recipient), id)
    ensures var a := SelectConversation(p, id);
            && Enabled(s, a) && Apply(s, a).db == s.db
            && ((own.Some? && own.value.id == id) || id in s.db.conversations)
            && Here(Apply(s, a), p, Send(user, req), replica,
                    SendInsert(mime, own, if own.Some? && own.value.id == id then own.value else s.db.conversations[id]))
  {
    hide SortedPair;
  }

  lemma StepInsertMessage(s: Store, p: nat, user: UserId, req: SendRequest, replica: nat, mime: Option<string>,
                          own: Option<Conversation>, conv: Conversation, id: Uuid, now: Timestamp)
    requires Here(s, p, Send(user, req), replica, SendInsert(mime, own, conv)) && !ClientIdHeld(s, p, user, req.clientId)
    requires ClientIdTaken(s.db, user, req.clientId) || (id !in s.db.messages && !RowHeld(s, p, id) && HasContent(req))
    ensures var a := InsertMessage(p, id, now);
            && Enabled(s, a) && Apply(s, a).db == s.db
            && Here(Apply(s, a), p, Send(user, req), replica,
                    if ClientIdTaken(s.db, user, req.clientId) then SendRetry
                    else Staged(NewMessage(own, NewRow(id, conv, user, req, mime, now))))
  {
    hide ClientIdHeld, ClientIdTaken, RowHeld, HasContent, NewRow;
  }

  lemma StepLookupAgain(s: Store, p: nat, user: UserId, req: SendRequest, replica: nat, id: Uuid)
    requires Here(s, p, Send(user, req), replica, SendRetry) && LookupFinds(s.db, user, req.clientId, Some(id))
    ensures var a := LookupAgain(p, Some(id));
            && Enabled(s, a) && Apply(s, a).db == s.db
            && Here(Apply(s, a), p, Send(user, req), replica, Done(Replay(s.db.messages[id], req)))
  {
  }

  lemma StepGetConversation(s: Store, p: nat, user: UserId, conversation: Uuid, message: Uuid, replica: nat)
    requires Here(s, p, ReadUpTo(user, conversation, message), replica, ReadConversation)
    ensures var a := GetConversation(p);
            && Enabled(s, a) && Apply(s, a).db == s.db
            && Here(Apply(s, a), p, ReadUpTo(user, conversation, message), replica,
                    if conversation in s.db.conversations && s.db.conversations[conversation].Has(user)
                    then ReadAnchor(s.db.conversations[conversation]) else Done(Failed(NotFound)))
  {
  }

  lemma StepGetAnchor(s: Store, p: nat, user: UserId, conversation: Uuid, message: Uuid, replica: nat, conv: Conversation, now: Timestamp)
    requires Here(s, p, ReadUpTo(user, conversation, message), replica, ReadAnchor(conv))
    ensures var a := GetAnchor(p, now);
            && Enabled(s, a) && Apply(s, a).db == s.db
            && Here(Apply(s, a), p, ReadUpTo(user, conversation, message), replica,
                    if message in s.db.messages && s.db.messages[message].conversation == conv.id
                    then ReadUpdate(conv, s.db.messages[message].Key(), now) else Done(Failed(NotFound)))
  {
  }

  lemma StepUpdateUnread(s: Store, p: nat, user: UserId, conversation: Uuid, message: Uuid, replica: nat,
                         conv: Conversation, upTo: Key, now: Timestamp)
    requires Here(s, p, ReadUpTo(user, conversation, message), replica, ReadUpdate(conv, upTo, now))
    ensures var a, found := UpdateUnread(p), Unread(s.db, conv.id, user, upTo);
            && Enabled(s, a) && Apply(s, a).db == s.db
            && Here(Apply(s, a), p, ReadUpTo(user, conversation, message), replica, ReadLock(conv, upTo, now, found, found, map[]))
  {
    hide Unread;
  }

  lemma StepLockUnread(s: Store, p: nat, call: Call, replica: nat, conv: Conversation, upTo: Key, now: Timestamp,
                       visible: set<Uuid>, todo: set<Uuid>, got: map<Uuid, Message>, id: Uuid)
    requires Here(s, p, call, replica, ReadLock(conv, upTo, now, visible, todo, got))
    requires id in todo && id in s.db.messages && !RowHeld(s, p, id)
    ensures var a := LockUnread(p, id);
            && Enabled(s, a) && Apply(s, a).db == s.db
            && Here(Apply(s, a), p, call, replica, ReadLock(conv, upTo, now, visible, todo - {id},
                    if s.db.messages[id].status != Read then got[id := s.db.messages[id]] else got))
  {
    hide RowHeld;
  }

  lemma StepEndUpdate(s: Store, p: nat, user: UserId, conversation: Uuid, message: Uuid, replica: nat, conv: Conversation,
                      upTo: Key, now: Timestamp, visible: set<Uuid>, got: map<Uuid, Message>)
    requires Here(s, p, ReadUpTo(user, conversation, message), replica, ReadLock(conv, upTo, now, visible, {}, got))
    ensures var a := EndUpdate(p);
            && Enabled(s, a) && Apply(s, a).db == s.db
            && Here(Apply(s, a), p, ReadUpTo(user, conversation, message), replica,
                    if got == map[] then Done(ReadDone(conv.id, {}, None))
                    else Staged(Reading(conv, user, upTo, now, visible, got)))
  {
  }

  lemma StepFlush(s: Store, p: nat, call: Call, replica: nat, w: Work)
    requires Here(s, p, call, replica, Staged(w))
    ensures Enabled(s, Flush(p)) && Apply(s, Flush(p)).db == s.db
    ensures Here(Apply(s, Flush(p)), p, call, replica, Flushed(w, s.nextRow))
  {
    hide Rows;
  }

  lemma StepCommit(s: Store, p: nat, call: Call, replica: nat, w: Work, first: nat, acknowledged: bool)
    requires Here(s, p, call, replica, Flushed(w, first))
    ensures var a := Commit(p, acknowledged);
            && Enabled(s, a) && Apply(s, a).db == Install(s.db, w, first)
            && Here(Apply(s, a), p, call, replica, if acknowledged then Committed(Answer(w)) else Done(Failed(Unavailable)))
  {
    hide Install, Rows, Answer;
  }

  lemma StepNotify(s: Store, p: nat, call: Call, replica: nat, r: Response)
    requires Here(s, p, call, replica, Committed(r))
    ensures Enabled(s, Notify(p)) && Apply(s, Notify(p)).db == s.db
    ensures Here(Apply(s, Notify(p)), p, call, replica, Done(r))
  {
  }
}
