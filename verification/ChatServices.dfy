/** The commands of `ChatService` (app/services/chat.py) as the code runs them, statement by statement.
    Every statement is one step of ChatStore; at every `await` any other requests may take steps of
    their own, and the statement may fail. */
module ChatServices {
  import opened Basics
  import opened Clock
  import opened Uuids
  import opened Models
  import opened ChatStore
  import opened ChatInvariant
  import opened ChatCommits
  import opened ChatSteps
  import opened ChatTheorems
  import opened ChatSpecs

  class ChatService {
    /** The request that this service object was built for, and the replica that runs it. */
    const p: nat
    const replica: nat
    /** The shared database with every request in progress. */
    var store: Store
    ghost var trace: seq<Action>
    /** How many steps other requests have taken, and how many statements and commits have failed. */
    ghost var upsets: nat

    ghost predicate Valid()
      reads this
    {
      Inv(store) && Reaches(Init(), trace, store)
    }

    constructor (p: nat, replica: nat, store: Store, ghost trace: seq<Action>)
      requires Reaches(Init(), trace, store)
      ensures Valid() && this.p == p && this.replica == replica && this.store == store && this.trace == trace
    {
      ReachableOk(trace, store);
      this.p := p;
      this.replica := replica;
      this.store := store;
      this.trace := trace;
    }

    method Do(a: Action)
      requires Valid() && Enabled(store, a)
      modifies this
      ensures Valid() && store == Apply(old(store), a) && upsets == old(upsets)
      ensures Evolves(old(store).db, store.db)
      ensures !a.Commit? ==> store.db == old(store).db
      ensures !a.Flush? ==> store.nextRow == old(store).nextRow
    {
      hide Inv, Reaches, Enabled, Apply, Evolves;
      StepOk(store, a);
      StepTables(store, a);
      Extend(Init(), trace, store, a);
      store := Apply(store, a);
      trace := trace + [a];
    }

    /** Steps of other requests, any number of them. */
    method Await()
      requires Valid() && p in store.procs
      modifies this
      ensures Valid() && Evolves(old(store).db, store.db)
      ensures p in store.procs && store.procs[p] == old(store).procs[p]
      ensures old(upsets) <= upsets && (upsets == old(upsets) ==> store == old(store))
    {
      hide Inv, Reaches, Enabled, Apply, Evolves;
      EvolvesIsReflexive(store.db);
      var n: nat := *;
      while n > 0
        invariant Valid() && Evolves(old(store).db, store.db)
        invariant p in store.procs && store.procs[p] == old(store).procs[p]
        invariant old(upsets) <= upsets && (upsets == old(upsets) ==> store == old(store))
      {
        var a: Action := *;
        if a.p != p && Enabled(store, a) {
          ghost var before := store;
          StepOther(store, p, a);
          Do(a);
          upsets := upsets + 1;
          EvolvesIsTransitive(old(store).db, before.db, store.db);
        }
        n := n - 1;
      }
    }

    /** The `await` before a statement: other requests move on, and the statement may fail, which rolls
        the transaction back. `since` is an earlier state of the tables. */
    method Statement(ghost since: Db, ghost call: Call, ghost pc: Pc) returns (ok: bool)
      requires Valid() && Here(store, p, call, replica, pc) && !Finished(pc) && Evolves(since, store.db)
      modifies this
      ensures Valid() && Evolves(since, store.db) && Evolves(old(store).db, store.db)
      ensures Here(store, p, call, replica, if ok then pc else Done(Failed(Unavailable)))
      ensures old(upsets) <= upsets
      ensures upsets == old(upsets) ==> ok && store.db == old(store).db && store.nextRow == old(store).nextRow
    {
      hide Inv, Reaches, Enabled, Apply, Evolves;
      Await();
      EvolvesIsTransitive(since, old(store).db, store.db);
      var fails: bool := *;
      if fails {
        Fail(call, pc);
      }
      return !fails;
    }

    /** A failure before the commit. */
    method Fail(ghost call: Call, ghost pc: Pc)
      requires Valid() && Here(store, p, call, replica, pc) && !Finished(pc)
      modifies this
      ensures Valid() && store.db == old(store).db && Here(store, p, call, replica, Done(Failed(Unavailable)))
      ensures upsets == old(upsets) + 1
    {
      hide Inv, Reaches, Enabled, Apply, Evolves;
      StepAbort(store, p, call, replica, pc);
      Do(Abort(p));
      upsets := upsets + 1;
    }

    /** The flush and `_commit`. The acknowledgement of the commit may be lost. */
    method CommitWork(ghost since: Db, ghost call: Call, w: Work) returns (r: Response)
      requires Valid() && Here(store, p, call, replica, Staged(w)) && Evolves(since, store.db)
      modifies this
      ensures Valid() && Evolves(since, store.db) && Evolves(old(store).db, store.db)
      ensures Here(store, p, call, replica, Done(r))
      ensures r == Answer(w) || r == Failed(Unavailable)
      ensures r == Answer(w) ==> Durable(store.db, Writes(w))
      ensures old(upsets) <= upsets
      ensures upsets == old(upsets) ==> r == Answer(w) && store.db == Install(old(store).db, w, old(store).nextRow)
    {
      hide Inv, Reaches, Enabled, Apply, Evolves, Writes, Install, Durable, Here;
      EvolvesIsReflexive(store.db);
      var ok := Statement(old(store).db, call, Staged(w));
      if !ok {
        EvolvesIsTransitive(since, old(store).db, store.db);
        return Failed(Unavailable);
      }
      StepFlush(store, p, call, replica, w);
      ghost var first := store.nextRow;
      Do(Flush(p));
      ok := Statement(old(store).db, call, Flushed(w, first));
      if !ok {
        EvolvesIsTransitive(since, old(store).db, store.db);
        return Failed(Unavailable);
      }
      var acknowledged: bool := *;
      StepCommit(store, p, call, replica, w, first, acknowledged);
      InstallIsDurable(store.db, w, first);
      ghost var before := store.db;
      Do(Commit(p, acknowledged));
      EvolvesIsTransitive(old(store).db, before, store.db);
      EvolvesIsTransitive(since, old(store).db, store.db);
      if !acknowledged {
        upsets := upsets + 1;
        return Failed(Unavailable);
      }
      StepNotify(store, p, call, replica, Answer(w));
      Do(Notify(p));
      return Answer(w);
    }

    /** `_by_client_msg_id`. */
    method ByClientId(sender: UserId, clientId: string) returns (found: Option<Uuid>)
      ensures LookupFinds(store.db, sender, clientId, found)
    {
      if ClientIdTaken(store.db, sender, clientId) {
        var id :| id in store.db.messages && SameClientId(store.db.messages[id], sender, clientId);
        return Some(id);
      }
      return None;
    }

    /** `_check_attachment`. */
    method CheckAttachment(ghost since: Db, user: UserId, req: SendRequest, stored: Option<Upload>) returns (checked: Result<string, Error>)
      requires Valid() && Here(store, p, Send(user, req), replica, SendAttachment) && Evolves(since, store.db) && req.attachment.Some?
      modifies this
      ensures Valid() && Evolves(since, store.db)
      ensures old(upsets) <= upsets
      ensures upsets == old(upsets) ==>
                checked != Err(Unavailable) && store.db == old(store).db && store.nextRow == old(store).nextRow
      ensures Here(store, p, Send(user, req), replica,
                   if checked.Ok? then SendConversation(Some(checked.value)) else Done(Failed(checked.error)))
      ensures checked.Ok? ==> Accepts(user, req.attachment, stored, Some(checked.value))
      ensures checked.Err? ==> checked.error in {InvalidAttachment, AttachmentNotFound, PayloadTooLarge, UnsupportedMediaType, Unavailable}
      ensures checked.Err? ==> checked.error == Unavailable || Refuses(user, req.attachment.value, stored, checked.error)
    {
      hide Inv, Reaches, Enabled, Apply, Evolves, CheckUpload, Accepts, Refuses;
      var ok := Statement(since, Send(user, req), SendAttachment);
      if !ok {
        return Err(Unavailable);
      }
      StepAttachment(store, p, user, req, replica, stored);
      UploadIsChecked(user, req.attachment.value, stored);
      checked := CheckUpload(user, req.attachment.value, stored);
      Do(Action.CheckAttachment(p, stored));
    }

    /** `send_message`. The storage knows `stored` about the attachment, and the clock reads `now` when the
        row is stamped. */
    method SendMessage(user: UserId, req: SendRequest, stored: Option<Upload>, now: Timestamp) returns (r: Response)
      requires Valid() && p !in store.procs
      modifies this
      ensures Valid() && Evolves(old(store).db, store.db)
      ensures Here(store, p, Send(user, req), replica, Done(r))
      ensures r.SendDone? ==> Holds(store.db, user, req, r.out)
      ensures r.SendDone? && r.created ==> !ClientIdTaken(old(store).db, user, req.clientId)
      ensures r == Failed(InvalidRecipient) <==> user == req.recipient
      ensures r == Failed(BodyTooLong) <==> user != req.recipient && req.body.Some? && req.graphemes > MESSAGE_MAX_GRAPHEMES
      ensures r == Failed(IdempotencyConflict) ==> Clashes(store.db, user, req)
      ensures r.SendDone? || r.Failed?
      ensures r.Failed? && r.error !in {InvalidRecipient, BodyTooLong, IdempotencyConflict, Unavailable} ==>
                req.attachment.Some? && Refuses(user, req.attachment.value, stored, r.error)
      ensures old(upsets) <= upsets
      ensures upsets == old(upsets) ==>
                SendsAlone(old(store).db, old(store).nextRow, store.db, user, req, stored, now, r)
    {
      hide Inv, Reaches, Enabled, Apply, Evolves, Here, LookupFinds, ClientIdTaken, Holds, Clashes, Replay, AnyUsed, Repeats,
        Adds, Accepts, Refuses, CheckUpload, Stores, Used, InConversation, SameMessage;
      ghost var since, call := store.db, Send(user, req);
      EvolvesIsReflexive(since);
      StepBegin(store, p, call, replica);
      Do(Begin(p, replica, Send(user, req)));
      if req.recipient == user {
        return Failed(InvalidRecipient);
      }
      if req.body.Some? && req.graphemes > MESSAGE_MAX_GRAPHEMES {
        return Failed(BodyTooLong);
      }
      var ok := Statement(since, call, SendLookup);
      if !ok {
        return Failed(Unavailable);
      }
      var existing := ByClientId(user, req.clientId);
      StepLookup(store, p, user, req, replica, existing);
      if existing.Some? {
        ReplayAnswers(store.db, user, req, existing.value);
        ReplayRepeats(store.db, user, req, existing.value);
        r := Replay(store.db.messages[existing.value], req);
        Do(Lookup(p, existing));
        SendAnswer(store, p, user, req, replica, r);
        return;
      }
      NothingUsed(store.db, user, req);
      Do(Lookup(p, existing));
      var mime: Option<string> := None;
      if req.attachment.Some? {
        var checked := CheckAttachment(since, user, req, stored);
        if checked.Err? {
          return Failed(checked.error);
        }
        mime := Some(checked.value);
      } else {
        NoUpload(user, stored);
      }
      r := Persist(since, user, req, mime, now);
      if upsets == old(upsets) {
        StoredIsSent(old(store).db, old(store).nextRow, store.db, user, req, stored, mime, now, r);
      }
    }

    /** The conversation that the SELECT returns, the request's own insert included. */
    method SelectOne(own: Option<Conversation>, pair: (UserId, UserId)) returns (id: Uuid)
      requires (own.Some? && (own.value.userA, own.value.userB) == pair) || PairTaken(store.db, pair)
      ensures SelectFinds(store.db, own, pair, id)
    {
      if own.Some? && (own.value.userA, own.value.userB) == pair {
        return own.value.id;
      }
      id :| id in store.db.conversations && (store.db.conversations[id].userA, store.db.conversations[id].userB) == pair;
    }

    /** `send_message` from the conversation on. */
    method Persist(ghost since: Db, user: UserId, req: SendRequest, mime: Option<string>, now: Timestamp) returns (r: Response)
      requires Valid() && Here(store, p, Send(user, req), replica, SendConversation(mime)) && Evolves(since, store.db)
      modifies this
      ensures Valid() && Evolves(since, store.db)
      ensures Here(store, p, Send(user, req), replica, Done(r))
      ensures r.SendDone? ==> Holds(store.db, user, req, r.out)
      ensures r.SendDone? && r.created ==> !ClientIdTaken(since, user, req.clientId)
      ensures r == Failed(IdempotencyConflict) ==> Clashes(store.db, user, req)
      ensures r.SendDone? || r in {Failed(IdempotencyConflict), Failed(Unavailable)}
      ensures old(upsets) <= upsets
      ensures upsets == old(upsets) ==>
                Stores(old(store).db, old(store).nextRow, store.db, user, req, mime, now, r)
    {
      hide Inv, Reaches, Enabled, Apply, Evolves, Here, LookupFinds, ClientIdTaken, Holds, Clashes, Replay, SortedPair, PairTaken,
        PairHeld, ConversationHeld, FreshConversation, SelectFinds, ClientIdHeld, RowHeld, NewRow, Stores;
      ghost var call := Send(user, req);
      var ok := Statement(since, call, SendConversation(mime));
      if !ok {
        return Failed(Unavailable);
      }
      var id: Uuid, started: Timestamp := *, *;
      var pair := SortedPair(user, req.recipient);
      var own := FreshConversation(id, user, req.recipient, started);
      var taken := PairTaken(store.db, pair);
      if PairHeld(store, p, pair) || (!taken && (id in store.db.conversations || ConversationHeld(store, p, own))) {
        // still waiting for another insert when the request gives up, or the id is not new
        Fail(call, SendConversation(mime));
        return Failed(Unavailable);
      }
      StepInsertConversation(store, p, user, req, replica, mime, id, started);
      Do(InsertConversation(p, id, started));
      r := PersistIn(since, user, req, mime, if taken then None else Some(own), now);
    }

    /** `send_message` from the SELECT of the conversation on. */
    method PersistIn(ghost since: Db, user: UserId, req: SendRequest, mime: Option<string>, own: Option<Conversation>, now: Timestamp)
      returns (r: Response)
      requires Valid() && Here(store, p, Send(user, req), replica, SendSelect(mime, own)) && Evolves(since, store.db)
      modifies this
      ensures Valid() && Evolves(since, store.db)
      ensures Here(store, p, Send(user, req), replica, Done(r))
      ensures r.SendDone? ==> Holds(store.db, user, req, r.out)
      ensures r.SendDone? && r.created ==> !ClientIdTaken(since, user, req.clientId)
      ensures r == Failed(IdempotencyConflict) ==> Clashes(store.db, user, req)
      ensures r.SendDone? || r in {Failed(IdempotencyConflict), Failed(Unavailable)}
      ensures old(upsets) <= upsets
      ensures upsets == old(upsets) ==>
                Stores(old(store).db, old(store).nextRow, store.db, user, req, mime, now, r)
    {
      hide Inv, Reaches, Enabled, Apply, Evolves, Here, LookupFinds, ClientIdTaken, Holds, Clashes, Replay, SortedPair, PairTaken,
        FreshConversation, SelectFinds, ClientIdHeld, RowHeld, NewRow, Repeats, Adds, AnyUsed, Install;
      ghost var call := Send(user, req);
      var ok := Statement(since, call, SendSelect(mime, own));
      if !ok {
        return Failed(Unavailable);
      }
      SelectIsPossible(store, p, user, req, replica, mime, own);
      var target := SelectOne(own, SortedPair(user, req.recipient));
      StepSelect(store, p, user, req, replica, mime, own, target);
      var conv := if own.Some? && own.value.id == target then own.value else store.db.conversations[target];
      Do(SelectConversation(p, target));
      ok := Statement(since, call, SendInsert(mime, own, conv));
      if !ok {
        return Failed(Unavailable);
      }
      var id: Uuid := *;
      var duplicate := ClientIdTaken(store.db, user, req.clientId);
      if ClientIdHeld(store, p, user, req.clientId)
        || (!duplicate && (id in store.db.messages || RowHeld(store, p, id) || !HasContent(req)))
      {
        // still waiting for another insert, or the id is not new, or the content check fails
        Fail(call, SendInsert(mime, own, conv));
        return Failed(Unavailable);
      }
      StepInsertMessage(store, p, user, req, replica, mime, own, conv, id, now);
      FreeBefore(since, store.db, user, req.clientId);
      Do(InsertMessage(p, id, now));
      if duplicate {
        // a concurrent retry with the same client id committed first
        ok := Statement(since, call, SendRetry);
        if !ok {
          return Failed(Unavailable);
        }
        var existing := ByClientId(user, req.clientId);
        RetryFinds(store, p, user, req, replica, existing);
        StepLookupAgain(store, p, user, req, replica, existing.value);
        ReplayAnswers(store.db, user, req, existing.value);
        ReplayRepeats(store.db, user, req, existing.value);
        r := Replay(store.db.messages[existing.value], req);
        Do(LookupAgain(p, existing));
      } else {
        SendAddsAlone(store, p, user, req, replica, own, conv, id, mime, now);
        r := CommitWork(since, call, NewMessage(own, NewRow(id, conv, user, req, mime, now)));
      }
      SendAnswer(store, p, user, req, replica, r);
    }

    /** `mark_delivered`, with the clock reading at its start. */
    method MarkDelivered(user: UserId, message: Uuid, now: Timestamp) returns (r: Response)
      requires Valid() && p !in store.procs
      modifies this
      ensures Valid() && Evolves(old(store).db, store.db)
      ensures Here(store, p, Ack(user, message), replica, Done(r))
      ensures r.AckDone? ==> message in store.db.messages && Succeeds(r.out, store.db.messages[message]) && r.out.recipient == user
      ensures r.AckDone? && message in old(store).db.messages ==> r.out.status != Sent
      ensures r == Failed(NotFound) ==> Foreign(old(store).db, user, message)
      ensures r == Failed(AccessDenied) ==> message in store.db.messages && store.db.messages[message].sender == user
      ensures Foreign(store.db, user, message) ==> r in {Failed(NotFound), Failed(Unavailable)}
      ensures r.AckDone? || r in {Failed(NotFound), Failed(AccessDenied), Failed(Unavailable)}
      ensures old(upsets) <= upsets
      ensures upsets == old(upsets) ==>
                AcksAlone(old(store).db, old(store).nextRow, store.db, user, message, now, r)
    {
      hide Inv, Reaches, Enabled, Apply, Evolves, Here, Durable, AcksAlone, Explain, Install, Succeeds, RowHeld, Acknowledges, Rows, Foreign;
      ghost var since, call := store.db, Ack(user, message);
      EvolvesIsReflexive(since);
      StepBegin(store, p, call, replica);
      Do(Begin(p, replica, Ack(user, message)));
      var ok := Statement(since, call, AckUpdate);
      if !ok {
        return Failed(Unavailable);
      }
      StepUpdateSent(store, p, user, message, replica, now);
      SeenStays(since, store.db, message);
      var matched := message in store.db.messages && Acknowledges(store.db.messages[message], user);
      ghost var seen := message in store.db.messages;
      Do(UpdateSent(p, now));
      if matched {
        ok := Statement(since, call, AckLock(now));
        if !ok {
          return Failed(Unavailable);
        }
        LockIsThere(store, p, user, message, replica, now);
        if RowHeld(store, p, message) {  // still waiting for the row when the request gives up
          Fail(call, AckLock(now));
          return Failed(Unavailable);
        }
        StepLockSent(store, p, user, message, replica, now);
        var m := store.db.messages[message];
        matched := Acknowledges(m, user);
        Do(LockSent(p));
        if matched {
          DeliveryId(store, p, user, message, replica, m, now);
          DeliversAlone(store, p, user, message, replica, m, now);
          r := CommitWork(since, call, Delivery(m, now));
          DeliveredForGood(store.db, m, now);
          return;
        }
      }
      ok := Statement(since, call, AckMiss(seen));
      if !ok {
        return Failed(Unavailable);
      }
      StepGetMessage(store, p, user, message, replica, seen);
      MissIsExplained(store, p, user, message, replica, seen);
      MissAlone(store, p, user, message, replica, seen, now);
      r := Explain(store.db, user, message);
      NotFoundBefore(since, store.db, user, message);
      Do(GetMessage(p));
    }

    /** `mark_read`, with the clock reading before its UPDATE. */
    method ReadUntil(user: UserId, conversation: Uuid, message: Uuid, now: Timestamp) returns (r: Response)
      requires Valid() && p !in store.procs
      modifies this
      ensures Valid() && Evolves(old(store).db, store.db)
      ensures Here(store, p, ReadUpTo(user, conversation, message), replica, Done(r))
      ensures r.ReadDone? ==> ReadsIncoming(old(store).db, store.db, user, conversation, message, now, r)
      ensures r == Failed(NotFound) ==> NoAnchor(old(store).db, user, conversation, message)
      ensures r.ReadDone? || r in {Failed(NotFound), Failed(Unavailable)}
      ensures old(upsets) <= upsets
      ensures upsets == old(upsets) ==>
                ReadsAlone(old(store).db, old(store).nextRow, store.db, user, conversation, message, now, r)
    {
      hide Inv, Reaches, Enabled, Apply, Evolves, Here, Durable, Unread, Incoming, NoAnchor, ReadsAlone, ReadsIncoming;
      ghost var since, call := store.db, ReadUpTo(user, conversation, message);
      EvolvesIsReflexive(since);
      StepBegin(store, p, call, replica);
      Do(Begin(p, replica, ReadUpTo(user, conversation, message)));
      var ok := Statement(since, call, ReadConversation);
      if !ok {
        return Failed(Unavailable);
      }
      StepGetConversation(store, p, user, conversation, message, replica);
      NoConversationBefore(since, store.db, user, conversation, message);
      NoConversationAlone(store.db, store.nextRow, user, conversation, message, now);
      if conversation !in store.db.conversations || !store.db.conversations[conversation].Has(user) {
        Do(GetConversation(p));
        return Failed(NotFound);
      }
      var conv := store.db.conversations[conversation];
      Do(GetConversation(p));
      ok := Statement(since, call, ReadAnchor(conv));
      if !ok {
        return Failed(Unavailable);
      }
      StepGetAnchor(store, p, user, conversation, message, replica, conv, now);
      AnchorConversation(store, p, user, conversation, message, replica, conv);
      NoMessageBefore(since, store.db, user, conversation, message);
      NoMessageAlone(store.db, store.nextRow, user, conversation, message, now);
      if message !in store.db.messages || store.db.messages[message].conversation != conv.id {
        Do(GetAnchor(p, now));
        return Failed(NotFound);
      }
      var upTo := store.db.messages[message].Key();
      Do(GetAnchor(p, now));
      r := ReadFrom(since, user, conversation, message, conv, upTo, now);
    }

    /** The UPDATE of `mark_read` and what follows it. */
    method ReadFrom(ghost since: Db, user: UserId, conversation: Uuid, message: Uuid, conv: Conversation, upTo: Key, now: Timestamp)
      returns (r: Response)
      requires Valid() && Here(store, p, ReadUpTo(user, conversation, message), replica, ReadUpdate(conv, upTo, now))
      requires Evolves(since, store.db)
      modifies this
      ensures Valid() && Evolves(since, store.db)
      ensures Here(store, p, ReadUpTo(user, conversation, message), replica, Done(r))
      ensures r.ReadDone? ==> ReadsIncoming(since, store.db, user, conversation, message, now, r)
      ensures r.ReadDone? || r == Failed(Unavailable)
      ensures old(upsets) <= upsets
      ensures upsets == old(upsets) ==>
                ReadsAlone(old(store).db, old(store).nextRow, store.db, user, conversation, message, now, r)
    {
      hide Inv, Reaches, Enabled, Apply, Evolves, Here, Durable, Unread, Incoming, RowHeld, ReadsAlone, Install, ReadsIncoming, Settled, Writes;
      ghost var call := ReadUpTo(user, conversation, message);
      var ok := Statement(since, call, ReadUpdate(conv, upTo, now));
      if !ok {
        return Failed(Unavailable);
      }
      StepUpdateUnread(store, p, user, conversation, message, replica, conv, upTo, now);
      var visible := Unread(store.db, conv.id, user, upTo);
      ghost var seen := store.db;
      EvolvesIsReflexive(seen);
      Do(UpdateUnread(p));
      var todo, got: map<Uuid, Message> := visible, map[];
      while todo != {}
        invariant Valid() && Evolves(since, seen) && Evolves(seen, store.db)
        invariant Here(store, p, call, replica, ReadLock(conv, upTo, now, visible, todo, got))
        invariant old(upsets) <= upsets && todo <= visible
        invariant upsets == old(upsets) ==> store.db == seen == old(store).db && store.nextRow == old(store).nextRow
        invariant upsets == old(upsets) ==> got.Keys == visible - todo
      {
        var id :| id in todo;
        ok := Statement(seen, call, ReadLock(conv, upTo, now, visible, todo, got));
        if !ok {
          EvolvesIsTransitive(since, seen, store.db);
          return Failed(Unavailable);
        }
        TodoIsThere(store, p, call, replica, conv, upTo, now, visible, todo, got, id);
        if RowHeld(store, p, id) {  // still waiting for the row when the request gives up
          Fail(call, ReadLock(conv, upTo, now, visible, todo, got));
          EvolvesIsTransitive(since, seen, store.db);
          return Failed(Unavailable);
        }
        StepLockUnread(store, p, call, replica, conv, upTo, now, visible, todo, got, id);
        StillUnread(store.db, conv.id, user, upTo, id);
        var m := store.db.messages[id];
        Do(LockUnread(p, id));
        todo, got := todo - {id}, if m.status != Read then got[id := m] else got;
      }
      EvolvesIsTransitive(since, seen, store.db);
      StepEndUpdate(store, p, user, conversation, message, replica, conv, upTo, now, visible, got);
      ghost var ended := store.db;
      LockedAll(store, p, user, conversation, message, replica, conv, upTo, now, visible, got);
      ReadNothingAlone(store, p, user, conversation, message, replica, conv, upTo, now, visible, got);
      Do(EndUpdate(p));
      assert visible - {} == visible;
      if got == map[] {
        assert got.Keys == {};
        NothingMissed(since, seen, ended, store.db, user, conversation, message, conv, upTo, visible, {}, now);
        return ReadDone(conv.id, {}, None);
      }
      EvolvesIsReflexive(store.db);
      ReadsAloneAt(store, p, user, conversation, message, replica, conv, upTo, now, visible, got);
      r := CommitWork(ended, call, Reading(conv, user, upTo, now, visible, got));
      EvolvesIsTransitive(since, ended, store.db);
      if r.ReadDone? {
        ReadAnswered(store, p, user, conversation, message, replica, conv, upTo, now, visible, got);
        NothingMissed(since, seen, ended, store.db, user, conversation, message, conv, upTo, visible, got.Keys, now);
      }
    }
  }

  // ---- what the answers rest on

  /** These messages are in the table, at least as far along. */
  predicate Durable(db: Db, written: map<Uuid, Message>) {
    forall id | id in written :: id in db.messages && Succeeds(written[id], db.messages[id])
  }

  lemma InstallIsDurable(db: Db, w: Work, first: nat)
    ensures Durable(Install(db, w, first), Writes(w))
  {
    hide Writes, Rows;
  }

  /** The user takes no part in the message, or there is none. */
  predicate Foreign(db: Db, user: UserId, message: Uuid) {
    message in db.messages ==> user !in {db.messages[message].sender, db.messages[message].recipient}
  }

  lemma SeenStays(db: Db, db': Db, message: Uuid)
    requires Evolves(db, db')
    ensures message in db.messages ==> message in db'.messages && Succeeds(db.messages[message], db'.messages[message])
  {
    assert KeepsMessage(db, db', message);
  }

  lemma NotFoundBefore(db: Db, db': Db, user: UserId, message: Uuid)
    requires Evolves(db, db')
    ensures Explain(db', user, message) == Failed(NotFound) ==> Foreign(db, user, message)
  {
    SeenStays(db, db', message);
  }

  lemma LockIsThere(s: Store, p: nat, user: UserId, message: Uuid, replica: nat, now: Timestamp)
    requires Inv(s) && Here(s, p, Ack(user, message), replica, AckLock(now))
    ensures message in s.db.messages && s.db.messages[message].recipient == user
  {
    hide DbOk, Compatible;
    assert PcOk(s.db, s.nextRow, s.procs[p].call, s.procs[p].pc);
  }

  lemma DeliveryId(s: Store, p: nat, user: UserId, message: Uuid, replica: nat, m: Message, now: Timestamp)
    requires Inv(s) && Here(s, p, Ack(user, message), replica, Staged(Delivery(m, now)))
    ensures m.id == message && m.recipient == user && Writes(Delivery(m, now)) == map[message := Deliver(m, now)]
  {
    hide DbOk, Compatible;
    assert PcOk(s.db, s.nextRow, s.procs[p].call, s.procs[p].pc);
  }

  lemma DeliveredForGood(db: Db, m: Message, now: Timestamp)
    ensures Durable(db, Writes(Delivery(m, now))) ==>
              m.id in db.messages && Succeeds(Deliver(m, now), db.messages[m.id]) && !Foreign(db, m.recipient, m.id)
  {
    assert m.id in Writes(Delivery(m, now));
  }

  lemma MissIsExplained(s: Store, p: nat, user: UserId, message: Uuid, replica: nat, seen: bool)
    requires Inv(s) && Here(s, p, Ack(user, message), replica, AckMiss(seen))
    ensures var r := Explain(s.db, user, message);
            && (r.AckDone? ==> message in s.db.messages && Succeeds(r.out, s.db.messages[message]) && r.out.recipient == user)
            && (r.AckDone? && seen ==> r.out.status != Sent)
            && (r == Failed(AccessDenied) ==> message in s.db.messages && s.db.messages[message].sender == user)
            && (Foreign(s.db, user, message) ==> r == Failed(NotFound))
            && (r.AckDone? || r in {Failed(NotFound), Failed(AccessDenied)})
  {
    hide DbOk, Compatible;
    assert PcOk(s.db, s.nextRow, s.procs[p].call, s.procs[p].pc);
  }

  lemma MissAlone(s: Store, p: nat, user: UserId, message: Uuid, replica: nat, seen: bool, now: Timestamp)
    requires Inv(s) && Here(s, p, Ack(user, message), replica, AckMiss(seen))
    ensures (message in s.db.messages ==> seen) ==> AcksAlone(s.db, s.nextRow, s.db, user, message, now, Explain(s.db, user, message))
  {
    hide LogOk, ConversationsOk, MessagesOk, Compatible, AcksAlone, Explain;
    assert PcOk(s.db, s.nextRow, s.procs[p].call, s.procs[p].pc);
    if message in s.db.messages ==> seen {
      MissChangesNothing(s.db, s.nextRow, user, message, now);
    }
  }

  lemma DeliversAlone(s: Store, p: nat, user: UserId, message: Uuid, replica: nat, m: Message, now: Timestamp)
    requires Inv(s) && Here(s, p, Ack(user, message), replica, Staged(Delivery(m, now)))
    ensures var w := Delivery(m, now);
            AcksAlone(s.db, s.nextRow, Install(s.db, w, s.nextRow), user, message, now, Answer(w))
  {
    hide LogOk, ConversationsOk, MessagesOk, Compatible, WorkOk, AcksAlone, Install, Answer;
    assert PcOk(s.db, s.nextRow, s.procs[p].call, s.procs[p].pc);
    AckInstalls(s.db, Ack(user, message), Delivery(m, now), s.nextRow);
  }

  /** The message is addressed to `user` in the conversation, at or before the message named. */
  predicate Incoming(db: Db, user: UserId, conversation: Uuid, upTo: Uuid, id: Uuid) {
    && id in db.messages && upTo in db.messages
    && db.messages[id].conversation == conversation && db.messages[id].recipient == user
    && KeyAtMost(db.messages[id].Key(), db.messages[upTo].Key())
  }

  /** The answer names messages that were incoming up to the anchor and are read now, stamped with the clock
      reading answered, and everything that was incoming up to the anchor at `since` is read. */
  ghost predicate ReadsIncoming(since: Db, db: Db, user: UserId, conversation: Uuid, message: Uuid, now: Timestamp, r: Response)
    requires r.ReadDone?
  {
    && r.conversation == conversation && r.at == (if r.ids == {} then None else Some(now))
    && (forall id | id in r.ids :: Incoming(db, user, conversation, message, id))
    && (forall id | id in r.ids :: db.messages[id].status == Read && db.messages[id].readAt == Some(now))
    && forall id | Incoming(since, user, conversation, message, id) :: IsRead(db, id)
  }

  /** The conversation is not the user's, or the message is not in it. */
  predicate NoAnchor(db: Db, user: UserId, conversation: Uuid, message: Uuid) {
    || conversation !in db.conversations || !db.conversations[conversation].Has(user)
    || message !in db.messages || db.messages[message].conversation != conversation
  }

  lemma NoConversationBefore(db: Db, db': Db, user: UserId, conversation: Uuid, message: Uuid)
    requires Evolves(db, db')
    ensures conversation !in db'.conversations || !db'.conversations[conversation].Has(user) ==> NoAnchor(db, user, conversation, message)
  {
    assert KeepsConversation(db, db', conversation);
  }

  lemma NoConversationAlone(db: Db, next: nat, user: UserId, conversation: Uuid, message: Uuid, now: Timestamp)
    ensures conversation !in db.conversations || !db.conversations[conversation].Has(user) ==>
              ReadsAlone(db, next, db, user, conversation, message, now, Failed(NotFound))
  {
    hide Due;
  }

  lemma NoMessageAlone(db: Db, next: nat, user: UserId, conversation: Uuid, message: Uuid, now: Timestamp)
    ensures message !in db.messages || db.messages[message].conversation != conversation ==>
              ReadsAlone(db, next, db, user, conversation, message, now, Failed(NotFound))
  {
    hide Due;
  }

  lemma StillUnread(db: Db, conversation: Uuid, user: UserId, upTo: Key, id: Uuid)
    ensures id in Unread(db, conversation, user, upTo) ==> id in db.messages && db.messages[id].status != Read
  {
    hide KeyAtMost;
  }

  lemma ReadNothingAlone(s: Store, p: nat, user: UserId, conversation: Uuid, message: Uuid, replica: nat, conv: Conversation,
                         upTo: Key, now: Timestamp, visible: set<Uuid>, got: map<Uuid, Message>)
    requires Inv(s) && Here(s, p, ReadUpTo(user, conversation, message), replica, ReadLock(conv, upTo, now, visible, {}, got))
    ensures got == map[] && Unread(s.db, conv.id, user, upTo) == {} ==>
              ReadsAlone(s.db, s.nextRow, s.db, user, conversation, message, now, ReadDone(conv.id, {}, None))
  {
    hide DbOk, Compatible, KeyAtMost;
    assert PcOk(s.db, s.nextRow, s.procs[p].call, s.procs[p].pc);
    if got == map[] && Unread(s.db, conv.id, user, upTo) == {} {
      assert Due(s.db, user, conversation, message) == Unread(s.db, conv.id, user, upTo);
    }
  }

  lemma ReadsAloneAt(s: Store, p: nat, user: UserId, conversation: Uuid, message: Uuid, replica: nat, conv: Conversation,
                     upTo: Key, now: Timestamp, visible: set<Uuid>, got: map<Uuid, Message>)
    requires Inv(s) && Here(s, p, ReadUpTo(user, conversation, message), replica, Staged(Reading(conv, user, upTo, now, visible, got)))
    ensures var w := Reading(conv, user, upTo, now, visible, got);
            got.Keys == Unread(s.db, conv.id, user, upTo) ==>
              ReadsAlone(s.db, s.nextRow, Install(s.db, w, s.nextRow), user, conversation, message, now, Answer(w))
  {
    hide LogOk, ConversationsOk, MessagesOk, Compatible, WorkOk, ReadsAlone, Install, Answer, Unread;
    assert PcOk(s.db, s.nextRow, s.procs[p].call, s.procs[p].pc);
    if got.Keys == Unread(s.db, conv.id, user, upTo) {
      ReadInstalls(s.db, ReadUpTo(user, conversation, message), Reading(conv, user, upTo, now, visible, got), s.nextRow);
    }
  }

  /** What a read receipt answered is read, at the time answered. */
  lemma ReadAnswered(s: Store, p: nat, user: UserId, conversation: Uuid, message: Uuid, replica: nat, conv: Conversation,
                     upTo: Key, now: Timestamp, visible: set<Uuid>, got: map<Uuid, Message>)
    requires Inv(s)
    requires Here(s, p, ReadUpTo(user, conversation, message), replica, Done(Answer(Reading(conv, user, upTo, now, visible, got))))
    ensures forall id | id in got :: id in s.db.messages && s.db.messages[id].status == Read && s.db.messages[id].readAt == Some(now)
    ensures Answer(Reading(conv, user, upTo, now, visible, got)) == ReadDone(conv.id, got.Keys, Some(now)) && got.Keys != {}
  {
    hide DbOk, Compatible, KeyAtMost;
    assert PcOk(s.db, s.nextRow, s.procs[p].call, s.procs[p].pc);
    forall id | id in got ensures id in s.db.messages && s.db.messages[id].status == Read && s.db.messages[id].readAt == Some(now) {
      assert ReadBy(s.db, ReadUpTo(user, conversation, message), Some(now), id);
    }
  }

  lemma NoMessageBefore(db: Db, db': Db, user: UserId, conversation: Uuid, message: Uuid)
    requires Evolves(db, db')
    ensures message !in db'.messages || db'.messages[message].conversation != conversation ==> NoAnchor(db, user, conversation, message)
  {
    SeenStays(db, db', message);
  }

  lemma AnchorConversation(s: Store, p: nat, user: UserId, conversation: Uuid, message: Uuid, replica: nat, conv: Conversation)
    requires Inv(s) && Here(s, p, ReadUpTo(user, conversation, message), replica, ReadAnchor(conv))
    ensures conv.id == conversation
  {
    hide DbOk, Compatible;
    assert PcOk(s.db, s.nextRow, s.procs[p].call, s.procs[p].pc);
  }

  lemma TodoIsThere(s: Store, p: nat, call: Call, replica: nat, conv: Conversation, upTo: Key, now: Timestamp,
                    visible: set<Uuid>, todo: set<Uuid>, got: map<Uuid, Message>, id: Uuid)
    requires Inv(s) && Here(s, p, call, replica, ReadLock(conv, upTo, now, visible, todo, got)) && id in todo
    ensures id in s.db.messages
  {
    hide DbOk, Compatible;
    assert PcOk(s.db, s.nextRow, s.procs[p].call, s.procs[p].pc);
    assert Matched(s.db, conv, call.user, upTo, id);
  }

  /** Once every matched row has been locked, those that were not taken are read already. */
  predicate Settled(db: Db, user: UserId, conversation: Uuid, message: Uuid, conv: Conversation, upTo: Key,
                    visible: set<Uuid>, got: set<Uuid>)
  {
    && conv.id == conversation && message in db.messages && db.messages[message].Key() == upTo
    && got <= visible
    && (forall id | id in visible :: Matched(db, conv, user, upTo, id))
    && (forall id | id in visible - got :: IsRead(db, id))
  }

  lemma LockedAll(s: Store, p: nat, user: UserId, conversation: Uuid, message: Uuid, replica: nat, conv: Conversation,
                  upTo: Key, now: Timestamp, visible: set<Uuid>, got: map<Uuid, Message>)
    requires Inv(s) && Here(s, p, ReadUpTo(user, conversation, message), replica, ReadLock(conv, upTo, now, visible, {}, got))
    ensures Settled(s.db, user, conversation, message, conv, upTo, visible, got.Keys)
  {
    hide DbOk, Compatible;
    assert PcOk(s.db, s.nextRow, s.procs[p].call, s.procs[p].pc);
  }

  /** What was incoming when the request began is read, and what was taken is incoming. */
  lemma NothingMissed(since: Db, seen: Db, ended: Db, db: Db, user: UserId, conversation: Uuid, message: Uuid, conv: Conversation,
                      upTo: Key, visible: set<Uuid>, got: set<Uuid>, now: Timestamp)
    requires Evolves(since, seen) && Evolves(seen, ended) && Evolves(ended, db)
    requires visible == Unread(seen, conv.id, user, upTo)
    requires Settled(ended, user, conversation, message, conv, upTo, visible, got)
    requires forall id | id in got :: id in db.messages && db.messages[id].status == Read && db.messages[id].readAt == Some(now)
    ensures ReadsIncoming(since, db, user, conversation, message, now, ReadDone(conv.id, got, if got == {} then None else Some(now)))
  {
    hide Evolves, KeyAtMost;
    SeenStays(ended, db, message);
    forall id | id in got ensures Incoming(db, user, conversation, message, id) {
      assert Matched(ended, conv, user, upTo, id);
      SeenStays(ended, db, id);
    }
    forall id | Incoming(since, user, conversation, message, id) ensures IsRead(db, id) {
      SeenStays(since, seen, message);
      SeenStays(seen, ended, message);
      SeenStays(since, seen, id);
      SeenStays(seen, ended, id);
      SeenStays(ended, db, id);
      if id !in visible {
        assert seen.messages[id].status == Read;
      } else if id !in got {
        assert IsRead(ended, id);
      }
    }
  }

  // ---- sends

  /** `out` is the durable message that `user` asked for. */
  predicate Holds(db: Db, user: UserId, req: SendRequest, out: Message) {
    && out.id in db.messages && SameMessage(db.messages[out.id], out)
    && out.sender == user && out.clientId == req.clientId
    && out.recipient == req.recipient && out.body == req.body && out.attachment == req.attachment
  }

  /** The client id is taken by a different message. */
  predicate Clashes(db: Db, user: UserId, req: SendRequest) {
    exists id | id in db.messages ::
      && db.messages[id].sender == user && db.messages[id].clientId == req.clientId
      && (db.messages[id].recipient != req.recipient || db.messages[id].body != req.body
          || db.messages[id].attachment != req.attachment)
  }

  lemma ReplayAnswers(db: Db, user: UserId, req: SendRequest, id: Uuid)
    requires LookupFinds(db, user, req.clientId, Some(id))
    ensures id in db.messages
    ensures var r := Replay(db.messages[id], req);
            && (r == Failed(IdempotencyConflict) ==> Clashes(db, user, req))
            && (r.SendDone? ==> !r.created)
            && (r.SendDone? || r == Failed(IdempotencyConflict))
  {
  }

  lemma NothingUsed(db: Db, user: UserId, req: SendRequest)
    requires LookupFinds(db, user, req.clientId, None)
    ensures !AnyUsed(db, user, req)
  {
    forall id | id in db.messages ensures !Used(db.messages[id], user, req) {
      assert !SameClientId(db.messages[id], user, req.clientId);
    }
  }

  lemma NoUpload(user: UserId, stored: Option<Upload>)
    ensures Accepts(user, None, stored, None)
  {
  }

  lemma StoredIsSent(db: Db, next: nat, db': Db, user: UserId, req: SendRequest, stored: Option<Upload>, mime: Option<string>,
                     now: Timestamp, r: Response)
    requires user != req.recipient && !(req.body.Some? && req.graphemes > MESSAGE_MAX_GRAPHEMES) && !AnyUsed(db, user, req)
    requires Accepts(user, req.attachment, stored, mime) && Stores(db, next, db', user, req, mime, now, r)
    ensures SendsAlone(db, next, db', user, req, stored, now, r)
  {
    hide AnyUsed, Accepts, InConversation;
  }

  lemma SendAddsAlone(s: Store, p: nat, user: UserId, req: SendRequest, replica: nat, own: Option<Conversation>, conv: Conversation,
                      id: Uuid, mime: Option<string>, now: Timestamp)
    requires Inv(s) && Here(s, p, Send(user, req), replica, Staged(NewMessage(own, NewRow(id, conv, user, req, mime, now))))
    ensures var w := NewMessage(own, NewRow(id, conv, user, req, mime, now));
            Stores(s.db, s.nextRow, Install(s.db, w, s.nextRow), user, req, mime, now, Answer(w))
  {
    hide DbOk, Compatible, WorkOk, Adds, AnyUsed, Install;
    assert PcOk(s.db, s.nextRow, s.procs[p].call, s.procs[p].pc);
    SendInstalls(s.db, Send(user, req), NewMessage(own, NewRow(id, conv, user, req, mime, now)), s.nextRow);
  }

  lemma SendAnswer(s: Store, p: nat, user: UserId, req: SendRequest, replica: nat, r: Response)
    requires Inv(s) && Here(s, p, Send(user, req), replica, Done(r))
    ensures r.SendDone? ==> Holds(s.db, user, req, r.out)
  {
    hide DbOk, Compatible;
    assert PcOk(s.db, s.nextRow, s.procs[p].call, s.procs[p].pc);
  }

  lemma SelectIsPossible(s: Store, p: nat, user: UserId, req: SendRequest, replica: nat, mime: Option<string>, own: Option<Conversation>)
    requires Inv(s) && Here(s, p, Send(user, req), replica, SendSelect(mime, own))
    ensures var pair := SortedPair(user, req.recipient);
            (own.Some? && (own.value.userA, own.value.userB) == pair) || PairTaken(s.db, pair)
  {
    hide DbOk, Compatible, SortedPair, PairTaken;
    assert PcOk(s.db, s.nextRow, s.procs[p].call, s.procs[p].pc);
  }

  lemma FreeBefore(db: Db, db': Db, user: UserId, clientId: string)
    requires Evolves(db, db')
    ensures !ClientIdTaken(db', user, clientId) ==> !ClientIdTaken(db, user, clientId)
  {
    if ClientIdTaken(db, user, clientId) {
      ClientIdStaysTaken(db, db', user, clientId);
    }
  }

  /** The conflicting row is visible to the retry, so "Concurrent send, retry" is never answered. */
  lemma RetryFinds(s: Store, p: nat, user: UserId, req: SendRequest, replica: nat, found: Option<Uuid>)
    requires Inv(s) && Here(s, p, Send(user, req), replica, SendRetry) && LookupFinds(s.db, user, req.clientId, found)
    ensures found.Some?
  {
    hide DbOk, Compatible, ClientIdTaken;
    assert PcOk(s.db, s.nextRow, s.procs[p].call, s.procs[p].pc);
  }
}
