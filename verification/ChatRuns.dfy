/** Building runs of the chat store: whole sends, and states in which nobody is in the way. */
module ChatRuns {
  import opened Basics
  import opened Clock
  import opened Uuids
  import opened Models
  import opened ChatStore
  import opened ChatInvariant
  import opened ChatCommits
  import opened ChatSteps

  lemma Stop(s: Store)
    ensures Reaches(s, [], s)
  {
  }

  /** One step more in a run from `o`. */
  lemma Advance(o: Store, actions: seq<Action>, s: Store, a: Action) returns (actions': seq<Action>, s': Store)
    requires Reaches(o, actions, s) && Enabled(s, a)
    ensures Reaches(o, actions', s') && actions' == actions + [a] && s' == Apply(s, a)
    ensures s'.procs.Keys == s.procs.Keys + {a.p}
    ensures forall p | p in s.procs && p != a.p :: p in s'.procs && s'.procs[p] == s.procs[p]
  {
    hide Reaches, Enabled, Apply;
    Extend(o, actions, s, a);
    StepRequests(s, a);
    forall p | p in s.procs && p != a.p ensures p in Apply(s, a).procs && Apply(s, a).procs[p] == s.procs[p] {
      StepOther(s, p, a);
    }
    actions', s' := actions + [a], Apply(s, a);
  }

  // ---- a send that nobody is in the way of

  /** Nobody but `p` holds anything that this send needs. */
  predicate Clear(s: Store, p: nat, user: UserId, req: SendRequest, id: Uuid, conv: Conversation) {
    && !PairHeld(s, p, SortedPair(user, req.recipient)) && !ConversationHeld(s, p, conv)
    && !ClientIdHeld(s, p, user, req.clientId) && !RowHeld(s, p, id)
  }

  lemma ClearStays(s: Store, s': Store, p: nat, user: UserId, req: SendRequest, id: Uuid, conv: Conversation)
    requires Clear(s, p, user, req, id, conv) && s'.procs.Keys == s.procs.Keys + {p}
    requires forall q | q in s.procs && q != p :: q in s'.procs && s'.procs[q] == s.procs[q]
    ensures Clear(s', p, user, req, id, conv)
  {
    hide SortedPair, Writes, SameClientId, SamePair;
  }

  lemma AdvanceOwn(o: Store, actions: seq<Action>, s: Store, a: Action, user: UserId, req: SendRequest, id: Uuid, conv: Conversation)
    returns (actions': seq<Action>, s': Store)
    requires Reaches(o, actions, s) && Enabled(s, a) && Clear(s, a.p, user, req, id, conv)
    ensures Reaches(o, actions', s') && actions' == actions + [a] && s' == Apply(s, a)
    ensures s'.procs.Keys == s.procs.Keys + {a.p}
    ensures forall q | q in s.procs && q != a.p :: q in s'.procs && s'.procs[q] == s.procs[q]
    ensures Clear(s', a.p, user, req, id, conv)
  {
    hide Reaches, Enabled, Apply, Clear;
    actions', s' := Advance(o, actions, s, a);
    ClearStays(s, s', a.p, user, req, id, conv);
  }

  predicate ForPair(db: Db, conversation: Uuid, pair: (UserId, UserId)) {
    conversation in db.conversations
    && (db.conversations[conversation].userA, db.conversations[conversation].userB) == pair
  }

  /** The conversation that a send uses: the pair's own, or a new one under this id. */
  function Target(db: Db, user: UserId, req: SendRequest, conversation: Uuid, at: Timestamp): Conversation {
    if conversation in db.conversations then db.conversations[conversation] else FreshConversation(conversation, user, req.recipient, at)
  }

  function SendWork(db: Db, user: UserId, req: SendRequest, conversation: Uuid, id: Uuid, at: Timestamp): Work {
    NewMessage(OwnTarget(db, user, req, conversation, at), NewRow(id, Target(db, user, req, conversation, at), user, req, None, at))
  }

  predicate Usable(db: Db, conversation: Uuid, pair: (UserId, UserId)) {
    ForPair(db, conversation, pair) || (!PairTaken(db, pair) && conversation !in db.conversations)
  }

  function OwnTarget(db: Db, user: UserId, req: SendRequest, conversation: Uuid, at: Timestamp): Option<Conversation> {
    if conversation in db.conversations then None else Some(Target(db, user, req, conversation, at))
  }

  /** A send up to its insert. */
  lemma SendUntilInsert(o: Store, actions: seq<Action>, s: Store, p: nat, user: UserId, req: SendRequest, conversation: Uuid, id: Uuid, at: Timestamp)
    returns (actions': seq<Action>, s': Store)
    requires Reaches(o, actions, s) && p !in s.procs
    requires Clear(s, p, user, req, id, Target(s.db, user, req, conversation, at))
    requires user != req.recipient && req.graphemes <= MESSAGE_MAX_GRAPHEMES && req.attachment.None?
    requires !ClientIdTaken(s.db, user, req.clientId) && Usable(s.db, conversation, SortedPair(user, req.recipient))
    ensures Reaches(o, actions', s') && actions <= actions' && s'.db == s.db && s'.procs.Keys == s.procs.Keys + {p}
    ensures forall q | q in s.procs :: q in s'.procs && s'.procs[q] == s.procs[q]
    ensures Clear(s', p, user, req, id, Target(s.db, user, req, conversation, at))
    ensures Here(s', p, Send(user, req), 0,
                 SendInsert(None, OwnTarget(s.db, user, req, conversation, at), Target(s.db, user, req, conversation, at)))
  {
    hide Reaches, Enabled, Apply, PairHeld, RowHeld, ClientIdHeld, ConversationHeld, ClientIdTaken, PairTaken, SortedPair, FreshConversation;
    FreshId(conversation, user, req.recipient, at);
    PairIsTaken(s.db, conversation, SortedPair(user, req.recipient));
    var conv, own := Target(s.db, user, req, conversation, at), OwnTarget(s.db, user, req, conversation, at);
    StepBegin(s, p, Send(user, req), 0);
    actions', s' := AdvanceOwn(o, actions, s, Begin(p, 0, Send(user, req)), user, req, id, conv);
    StepLookup(s', p, user, req, 0, None);
    actions', s' := AdvanceOwn(o, actions', s', Lookup(p, None), user, req, id, conv);
    StepInsertConversation(s', p, user, req, 0, None, conversation, at);
    actions', s' := AdvanceOwn(o, actions', s', InsertConversation(p, conversation, at), user, req, id, conv);
    StepSelect(s', p, user, req, 0, None, own, conversation);
    actions', s' := AdvanceOwn(o, actions', s', SelectConversation(p, conversation), user, req, id, conv);
  }

  /** A send up to the point where only its commit is left. */
  lemma SendUntilCommit(o: Store, actions: seq<Action>, s: Store, p: nat, user: UserId, req: SendRequest, conversation: Uuid, id: Uuid, at: Timestamp)
    returns (actions': seq<Action>, s': Store, first: nat)
    requires Reaches(o, actions, s) && p !in s.procs
    requires Clear(s, p, user, req, id, Target(s.db, user, req, conversation, at))
    requires user != req.recipient && req.body.Some? && req.graphemes <= MESSAGE_MAX_GRAPHEMES && req.attachment.None?
    requires !ClientIdTaken(s.db, user, req.clientId) && id !in s.db.messages
    requires Usable(s.db, conversation, SortedPair(user, req.recipient))
    ensures Reaches(o, actions', s') && actions <= actions' && s'.db == s.db && s'.procs.Keys == s.procs.Keys + {p}
    ensures forall q | q in s.procs :: q in s'.procs && s'.procs[q] == s.procs[q]
    ensures Here(s', p, Send(user, req), 0, Flushed(SendWork(s.db, user, req, conversation, id, at), first))
  {
    hide Reaches, Enabled, Apply, PairHeld, RowHeld, ClientIdHeld, ConversationHeld, ClientIdTaken, Usable, SortedPair, Rows, NewRow, Target;
    var conv, own := Target(s.db, user, req, conversation, at), OwnTarget(s.db, user, req, conversation, at);
    actions', s' := SendUntilInsert(o, actions, s, p, user, req, conversation, id, at);
    StepInsertMessage(s', p, user, req, 0, None, own, conv, id, at);
    actions', s' := AdvanceOwn(o, actions', s', InsertMessage(p, id, at), user, req, id, conv);
    StepFlush(s', p, Send(user, req), 0, SendWork(s.db, user, req, conversation, id, at));
    first := s'.nextRow;
    actions', s' := AdvanceOwn(o, actions', s', Flush(p), user, req, id, conv);
  }

  lemma FreshId(id: Uuid, u: UserId, v: UserId, at: Timestamp)
    ensures var c := FreshConversation(id, u, v, at); c.id == id && (c.userA, c.userB) == SortedPair(u, v)
  {
    hide SortedPair;
  }

  lemma PairIsTaken(db: Db, conversation: Uuid, pair: (UserId, UserId))
    ensures ForPair(db, conversation, pair) ==> PairTaken(db, pair)
  {
  }

  // ---- nobody in the way

  function Busy(s: Store, keep: nat): set<nat> {
    set q | q in s.procs && q != keep && !Finished(s.procs[q].pc)
  }

  lemma AbortedOne(s: Store, q: nat, keep: nat)
    requires q in Busy(s, keep)
    ensures Enabled(s, Abort(q)) && Apply(s, Abort(q)).db == s.db && Apply(s, Abort(q)).procs.Keys == s.procs.Keys
    ensures Busy(Apply(s, Abort(q)), keep) == Busy(s, keep) - {q}
  {
  }

  /** Every other request fails. */
  lemma {:induction false} AbortOthers(o: Store, actions: seq<Action>, s: Store, keep: nat) returns (actions': seq<Action>, s': Store)
    requires Reaches(o, actions, s) && keep in s.procs
    ensures Reaches(o, actions', s') && actions <= actions' && s'.db == s.db && s'.procs.Keys == s.procs.Keys
    ensures s'.procs[keep] == s.procs[keep] && Busy(s', keep) == {}
    decreases |Busy(s, keep)|
  {
    hide Reaches, Enabled, Apply;
    actions', s' := actions, s;
    if Busy(s, keep) != {} {
      var q :| q in Busy(s, keep);
      AbortedOne(s, q, keep);
      actions', s' := Advance(o, actions, s, Abort(q));
      actions', s' := AbortOthers(o, actions', s', keep);
    }
  }

  lemma ClearWhenIdle(s: Store, keep: nat, p: nat, user: UserId, req: SendRequest, id: Uuid, conv: Conversation)
    requires keep in s.procs && Busy(s, keep) == {} && s.procs[keep].pc.AckMiss?
    ensures Clear(s, p, user, req, id, conv)
  {
    hide SortedPair, SamePair, SameClientId;
    forall q | q in s.procs ensures HeldConversation(s.procs[q].pc) == None && HeldMessage(s.procs[q].pc) == None && Held(s.procs[q].pc) == {} {
      assert q == keep || q !in Busy(s, keep);
    }
  }

  // ---- something new

  lemma {:induction false} FreshNumber(s: set<nat>) returns (n: nat)
    ensures forall x | x in s :: x < n
  {
    n := 0;
    if s != {} {
      var y :| y in s;
      n := FreshNumber(s - {y});
      assert forall x | x in s :: x == y || x in s - {y};
      n := if y < n then n else y + 1;
    }
  }

  function Ticks(n: nat): (s: string)
    ensures |s| == n
  {
    if n == 0 then "" else Ticks(n - 1) + "x"
  }

  /** A client id that no message has. */
  lemma FreshClientId(db: Db, sender: UserId) returns (clientId: string)
    ensures !ClientIdTaken(db, sender, clientId)
  {
    var lengths: set<nat> := set id | id in db.messages :: |db.messages[id].clientId|;
    var n := FreshNumber(lengths);
    clientId := Ticks(n);
    forall id | id in db.messages ensures !SameClientId(db.messages[id], sender, clientId) {
      assert |db.messages[id].clientId| in lengths;
    }
  }

  /** One message of each of these conversations. */
  lemma {:induction false} OneOfEach(db: Db, cs: set<Uuid>) returns (ms: set<Uuid>)
    requires forall c | c in cs :: exists m :: m in db.messages && db.messages[m].conversation == c
    ensures |ms| == |cs| && forall m | m in ms :: m in db.messages && db.messages[m].conversation in cs
  {
    ms := {};
    if cs != {} {
      var c :| c in cs;
      ms := OneOfEach(db, cs - {c});
      var m :| m in db.messages && db.messages[m].conversation == c;
      assert m !in ms;
      ms := ms + {m};
    }
  }

  lemma SubsetSize<T>(a: set<T>, b: set<T>)
    requires a <= b
    ensures |a| <= |b|
  {
    assert a + (b - a) == b;
  }

  /** While a message id is free a conversation id is free too, since every conversation has a message of
      its own. */
  lemma FreeConversationId(db: Db, id: Uuid) returns (c: Uuid)
    requires ConversationsOk(db) && id !in db.messages
    ensures c !in db.conversations
  {
    if id !in db.conversations {
      c := id;
    } else {
      var cs := db.conversations.Keys;
      forall x | x in cs ensures exists m :: m in db.messages && db.messages[m].conversation == x {
        assert ConversationOk(db, x);
      }
      var ms := OneOfEach(db, cs);
      assert id !in ms;
      if ms <= cs {
        SubsetSize(ms, cs - {id});
        assert false;
      }
      c :| c in ms && c !in cs;
    }
  }
}
