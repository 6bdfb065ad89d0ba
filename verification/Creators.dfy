/** Who is told to have created a message. */
module Creators {
  import opened Basics
  import opened Uuids
  import opened Models
  import opened ChatStore
  import opened ChatInvariant
  import opened ChatCommits
  import opened ChatSteps
  import opened ChatTheorems
  import Receipts

  /** A send by the sender of message `id` under its client id. */
  predicate SendsIt(s: Store, p: nat, id: Uuid) {
    && p in s.procs && id in s.db.messages && s.procs[p].call.Send?
    && s.procs[p].call.user == s.db.messages[id].sender && s.procs[p].call.req.clientId == s.db.messages[id].clientId
  }

  /** The request never learned what became of it. */
  predicate Unanswered(s: Store, p: nat) {
    p in s.procs && s.procs[p].pc == Done(Failed(Unavailable))
  }

  predicate ToldCreated(s: Store, p: nat, id: Uuid) {
    && p in s.procs && Finished(s.procs[p].pc)
    && s.procs[p].pc.response.SendDone? && s.procs[p].pc.response.created && s.procs[p].pc.response.out.id == id
  }

  predicate Wrote(s: Store, p: nat, id: Uuid) {
    SendsIt(s, p, id) && (ToldCreated(s, p, id) || Unanswered(s, p))
  }

  ghost predicate Credited(s: Store) {
    forall id | id in s.db.messages :: exists p :: Wrote(s, p, id)
  }

  lemma WroteStays(s: Store, a: Action, p: nat, id: Uuid)
    requires Enabled(s, a) && Wrote(s, p, id) && KeepsMessage(s.db, Apply(s, a).db, id)
    ensures Wrote(Apply(s, a), p, id)
  {
    hide Enabled, Apply;
    if a.p == p {
      OnlyNotifies(s, a);
    } else {
      StepOther(s, p, a);
    }
  }

  lemma OnlyNotifies(s: Store, a: Action)
    requires Enabled(s, a) && a.p in s.procs && Finished(s.procs[a.p].pc)
    ensures a.p in Apply(s, a).procs && Apply(s, a).procs[a.p] == s.procs[a.p].(pc := Done(s.procs[a.p].pc.response))
  {
    hide Rows, Install, LookupFinds, PairHeld, ClientIdHeld, RowHeld;
  }

  lemma CommitWrites(s: Store, a: Action, id: Uuid)
    requires Inv(s) && Enabled(s, a) && a.Commit? && id in Apply(s, a).db.messages && id !in s.db.messages
    ensures Wrote(Apply(s, a), a.p, id)
  {
    hide Inv, Enabled, Apply, Install, WorkOk;
    Receipts.CommitInstalls(s, a);
    CommitEffect(s, a);
    var call, w := s.procs[a.p].call, s.procs[a.p].pc.work;
    NewIsWritten(s.db, call, w, s.procs[a.p].pc.first, id);
  }

  lemma NewIsWritten(db: Db, call: Call, w: Work, first: nat, id: Uuid)
    requires WorkOk(db, call, w) && id in Install(db, w, first).messages && id !in db.messages
    ensures w.NewMessage? && w.message.id == id && Install(db, w, first).messages[id] == w.message
    ensures call.Send? && w.message.sender == call.user && w.message.clientId == call.req.clientId
  {
    hide Rows, Numbered, WorkOk;
    WrittenIds(db, call, w, id);
    SenderOfWork(db, call, w);
  }

  lemma SenderOfWork(db: Db, call: Call, w: Work)
    requires WorkOk(db, call, w) && w.NewMessage?
    ensures call.Send? && w.message.sender == call.user && w.message.clientId == call.req.clientId
  {
    hide TargetOk, ClientIdTaken, AttachmentOk;
  }

  lemma CreditedStep(s: Store, a: Action)
    requires Inv(s) && Credited(s) && Enabled(s, a)
    ensures Credited(Apply(s, a))
  {
    hide Inv, Enabled, Apply, Wrote;
    StepOk(s, a);
    StepTables(s, a);
    var s' := Apply(s, a);
    forall id | id in s'.db.messages ensures exists p :: Wrote(s', p, id) {
      if id in s.db.messages {
        var p :| Wrote(s, p, id);
        assert KeepsMessage(s.db, s'.db, id);
        WroteStays(s, a, p, id);
      } else {
        CommitWrites(s, a, id);
      }
    }
  }

  lemma {:induction false} CreditedRun(s: Store, actions: seq<Action>, s': Store)
    requires Inv(s) && Credited(s) && Reaches(s, actions, s')
    ensures Credited(s')
    decreases |actions|
  {
    hide Inv, Credited, Enabled, Apply;
    if actions != [] {
      StepOk(s, actions[0]);
      CreditedStep(s, actions[0]);
      CreditedRun(Apply(s, actions[0]), actions[1..], s');
    }
  }

  lemma ToldOnce(s: Store, p: nat, q: nat, id: Uuid)
    requires ProcsOk(s) && ToldCreated(s, p, id) && ToldCreated(s, q, id)
    ensures p == q
  {
    hide PcOk, Compatible;
    CreatedBySame(s, p, q);
  }

  /** Exactly one request is told that it created a message, if no request to send it has gone without an
      answer; in any case at most one. */
  lemma ExactlyOneCreator(actions: seq<Action>, s: Store, id: Uuid) returns (creator: nat)
    requires Reaches(Init(), actions, s) && id in s.db.messages
    ensures forall p, q | ToldCreated(s, p, id) && ToldCreated(s, q, id) :: p == q
    ensures (forall p | SendsIt(s, p, id) :: !Unanswered(s, p)) ==> forall p :: ToldCreated(s, p, id) <==> p == creator
  {
    hide Reaches, ToldCreated, SendsIt, Unanswered, Inv;
    InitOk();
    CreditedRun(Init(), actions, s);
    ReachableOk(actions, s);
    InvParts(s);
    forall p, q | ToldCreated(s, p, id) && ToldCreated(s, q, id) ensures p == q {
      ToldOnce(s, p, q, id);
    }
    creator :| Wrote(s, creator, id);
  }
}
