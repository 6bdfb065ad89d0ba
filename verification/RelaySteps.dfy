/** Every step of the relays keeps the invariant. */
module RelaySteps {
  import opened Models
  import opened RelayNet
  import opened RelayInvariant

  // ---- phases and locks

  lemma TablesStep(n: Net, a: Action)
    requires Inv(n) && Enabled(n, a)
    ensures TablesOk(Apply(n, a)) && n.rows.Keys <= Apply(n, a).rows.Keys
    ensures forall i | i in n.rows :: Apply(n, a).rows[i] == n.rows[i]
  {
    hide LocksDisjoint, OnBus, CopiesBounded, AllNoticed, PublicationOk;
    if a.CommitBatch? {
      assert PhaseOk(n, n.relays[a.r].phase);
    }
  }

  lemma PublicationsStep(n: Net, a: Action)
    requires Inv(n) && Enabled(n, a)
    ensures forall p <- Apply(n, a).bus :: PublicationOk(Apply(n, a), p)
  {
    hide LocksDisjoint, OnBus, CopiesBounded, AllNoticed, PhaseOk;
    TablesStep(n, a);
    forall p <- Apply(n, a).bus ensures PublicationOk(Apply(n, a), p) {
      if p in n.bus {
        assert PublicationOk(n, p);
      }
    }
  }

  /** Which phase a relay is in after a step. */
  lemma OtherRelays(n: Net, a: Action, q: nat)
    requires Enabled(n, a) && q in Apply(n, a).relays && (a.CommitRows? || a.Notify? || q != a.r)
    ensures q in n.relays && Apply(n, a).relays[q].phase == n.relays[q].phase
  {
  }

  lemma SortedParts(got: seq<nat>, todo: seq<nat>)
    requires Sorted(got + todo) && todo != []
    ensures Sorted(got + todo[1..]) && Sorted(got + [todo[0]] + todo[1..])
    ensures todo[0] !in got
  {
    var s, t := got + todo, got + todo[1..];
    assert got + [todo[0]] + todo[1..] == s;
    forall i, j | 0 <= i < j < |t| ensures t[i] < t[j] {
      assert t[i] == s[if i < |got| then i else i + 1] && t[j] == s[if j < |got| then j else j + 1];
    }
    forall i | 0 <= i < |got| ensures got[i] != todo[0] {
      assert s[i] < s[|got|];
    }
  }

  lemma SortedPrefix(got: seq<nat>, todo: seq<nat>)
    requires Sorted(got + todo)
    ensures Sorted(got)
  {
    forall i, j | 0 <= i < j < |got| ensures got[i] < got[j] {
      assert (got + todo)[i] < (got + todo)[j];
    }
  }

  lemma ScanPhaseOk(n: Net, a: Action)
    requires a.ScanOne? && Enabled(n, a) && PhaseOk(n, n.relays[a.r].phase)
    ensures PhaseOk(n, Scan(n, a.r).phase)
  {
    SortedParts(n.relays[a.r].phase.got, n.relays[a.r].phase.todo);
  }

  lemma OwnPhaseStep(n: Net, a: Action)
    requires Inv(n) && Enabled(n, a) && !a.CommitRows? && !a.Notify?
    ensures a.r in Apply(n, a).relays && PhaseOk(Apply(n, a), Apply(n, a).relays[a.r].phase)
  {
    hide LocksDisjoint, OnBus, CopiesBounded, AllNoticed, PublicationOk, Inv, Sorted, Elements, LockedByOther, Publish;
    OwnPhase(n, a);
    if a.ScanOne? {
      ScanPhaseOk(n, a);
    } else if a.Snapshot? {
      NothingTaken(n, a.todo);
    } else if a.EndScan? {
      SortedPrefix(n.relays[a.r].phase.got, n.relays[a.r].phase.todo);
    }
  }

  lemma OwnPhase(n: Net, a: Action)
    requires Inv(n) && Enabled(n, a) && !a.CommitRows? && !a.Notify?
    ensures PhaseOk(n, n.relays[a.r].phase) && Pending(n) <= n.rows.Keys && 0 < n.batch
  {
    hide LocksDisjoint, OnBus, CopiesBounded, AllNoticed, PublicationOk, PhaseOk;
  }

  lemma NothingTaken(n: Net, todo: seq<nat>)
    ensures [] + todo == todo && Elements([]) <= Pending(n)
  {
  }

  lemma OtherPhaseStep(n: Net, a: Action, q: nat)
    requires Inv(n) && Enabled(n, a) && q in Apply(n, a).relays && (a.CommitRows? || a.Notify? || q != a.r)
    ensures PhaseOk(Apply(n, a), Apply(n, a).relays[q].phase)
  {
    hide OnBus, CopiesBounded, AllNoticed, PublicationOk;
    OtherRelays(n, a, q);
    assert PhaseOk(n, n.relays[q].phase);
    if a.CommitBatch? {
      assert Locks(n.relays[q].phase) !! Locks(n.relays[a.r].phase);
    }
  }

  lemma LocksStep(n: Net, a: Action)
    requires Inv(n) && Enabled(n, a)
    ensures LocksDisjoint(Apply(n, a))
  {
    hide OnBus, CopiesBounded, AllNoticed, PublicationOk, TablesOk, PhaseOk;
    var n' := Apply(n, a);
    forall q, r | q in n'.relays && r in n'.relays && q != r
      ensures Locks(n'.relays[q].phase) !! Locks(n'.relays[r].phase)
    {
      if a.CommitRows? || a.Notify? || (q != a.r && r != a.r) {
        OtherRelays(n, a, q);
        OtherRelays(n, a, r);
      } else {
        var other := if q == a.r then r else q;
        OtherRelays(n, a, other);
        LocksGrow(n, a);
        assert Locks(n.relays[a.r].phase) !! Locks(n.relays[other].phase);
      }
    }
  }

  /** A step adds to the relay's locks at most one row, and one that nobody else holds. */
  lemma LocksGrow(n: Net, a: Action)
    requires Enabled(n, a) && !a.CommitRows? && !a.Notify?
    ensures forall i | i in Locks(Apply(n, a).relays[a.r].phase) ::
              i in Locks(n.relays[a.r].phase) || !LockedByOther(n, a.r, i)
  {
  }

  // ---- copies on the bus

  lemma IdsAppend(bus: seq<Publication>, p: Publication)
    ensures forall i :: Times(bus + [p], i) == Times(bus, i) + if i == p.row then 1 else 0
  {
    assert Ids(bus + [p]) == Ids(bus) + [p.row];
  }

  lemma BeingSentElsewhere(n: Net, r: nat, row: nat)
    requires LocksDisjoint(n) && r in n.relays && row in Locks(n.relays[r].phase)
    requires row !in SentNow(n.relays[r].phase)
    ensures !BeingSent(n, row)
  {
    forall q | q in n.relays ensures row !in SentNow(n.relays[q].phase) {
      if q != r {
        assert Locks(n.relays[q].phase) !! Locks(n.relays[r].phase);
        SentIsLocked(n.relays[q].phase);
      }
    }
  }

  lemma SentIsLocked(phase: Phase)
    ensures SentNow(phase) <= Locks(phase)
  {
  }

  lemma NextToSend(rows: seq<nat>, sent: nat)
    requires Sorted(rows) && sent < |rows|
    ensures SentNow(Publishing(rows, sent + 1)) == SentNow(Publishing(rows, sent)) + {rows[sent]}
    ensures rows[sent] !in SentNow(Publishing(rows, sent))
  {
    assert rows[..sent + 1] == rows[..sent] + [rows[sent]];
  }

  lemma PublishCopies(n: Net, a: Action)
    requires Inv(n) && Enabled(n, a) && a.PublishOne?
    ensures OnBus(Apply(n, a)) && CopiesBounded(Apply(n, a))
  {
    hide AllNoticed, PublicationOk, TablesOk, SentNow, Elements;
    var n' := Apply(n, a);
    var phase := n.relays[a.r].phase;
    var row := phase.rows[phase.sent];
    assert PhaseOk(n, phase);
    NextToSend(phase.rows, phase.sent);
    IdsAppend(n.bus, Publish(n, row));
    assert row in Locks(phase) && row !in n.published by { RowOfBatch(n, phase); }
    BeingSentElsewhere(n, a.r, row);
    forall i ensures BeingSent(n', i) <==> BeingSent(n, i) || i == row {
      BeingSentAfter(n, a, i);
    }
  }

  lemma RowOfBatch(n: Net, phase: Phase)
    requires phase.Publishing? && phase.sent < |phase.rows| && PhaseOk(n, phase)
    ensures phase.rows[phase.sent] in Locks(phase) && phase.rows[phase.sent] !in n.published
  {
  }

  lemma BeingSentAfter(n: Net, a: Action, i: nat)
    requires Inv(n) && Enabled(n, a) && a.PublishOne?
    ensures BeingSent(Apply(n, a), i) <==> BeingSent(n, i) || i == n.relays[a.r].phase.rows[n.relays[a.r].phase.sent]
  {
    hide AllNoticed, PublicationOk, TablesOk, Elements, OnBus, CopiesBounded, LocksDisjoint;
    var n' := Apply(n, a);
    var phase := n.relays[a.r].phase;
    assert PhaseOk(n, phase);
    NextToSend(phase.rows, phase.sent);
    if BeingSent(n, i) {
      var q :| q in n.relays && i in SentNow(n.relays[q].phase);
      assert i in SentNow(n'.relays[q].phase);
    }
    assert a.r in n'.relays && phase.rows[phase.sent] in SentNow(n'.relays[a.r].phase);
  }

  lemma SentAll(rows: seq<nat>)
    ensures SentNow(Publishing(rows, |rows|)) == Elements(rows)
  {
    assert rows[..|rows|] == rows;
  }

  lemma CommitCopies(n: Net, a: Action)
    requires Inv(n) && Enabled(n, a) && a.CommitBatch?
    ensures OnBus(Apply(n, a)) && CopiesBounded(Apply(n, a))
  {
    hide AllNoticed, PublicationOk, TablesOk, Elements, Times, LocksDisjoint;
    var n' := Apply(n, a);
    var rows := n.relays[a.r].phase.rows;
    SentAll(rows);
    forall i | i in n'.published ensures Times(n'.bus, i) > 0 {
      if i !in n.published {
        assert i in SentNow(n.relays[a.r].phase);
      }
    }
    forall i | BeingSent(n, i) ensures i in n'.published || BeingSent(n', i) {
      var q :| q in n.relays && i in SentNow(n.relays[q].phase);
      assert q != a.r ==> i in SentNow(n'.relays[q].phase);
    }
  }

  /** A failed cycle takes the blame for what it had already published. */
  lemma AbortCopies(n: Net, a: Action)
    requires Inv(n) && Enabled(n, a) && (a.Fail? || a.Crash?)
    ensures OnBus(Apply(n, a)) && CopiesBounded(Apply(n, a))
  {
    hide AllNoticed, PublicationOk, TablesOk, Elements, Times, LocksDisjoint;
    var n' := Apply(n, a);
    forall i ensures Times(n'.bus, i) <= n'.aborts[i] + if i in n'.published || BeingSent(n', i) then 1 else 0 {
      if BeingSent(n, i) && !BeingSent(n', i) {
        var q :| q in n.relays && i in SentNow(n.relays[q].phase);
        assert i !in SentNow(n'.relays[q].phase);
        SentIsLocked(n.relays[q].phase);
      }
    }
  }

  lemma SentUnchanged(n: Net, a: Action, q: nat)
    requires Enabled(n, a) && !a.PublishOne? && !a.CommitBatch? && !a.Fail? && !a.Crash? && q in n.relays
    ensures q in Apply(n, a).relays && SentNow(Apply(n, a).relays[q].phase) == SentNow(n.relays[q].phase)
  {
  }

  lemma QuietCopies(n: Net, a: Action)
    requires Inv(n) && Enabled(n, a) && !a.PublishOne? && !a.CommitBatch? && !a.Fail? && !a.Crash?
    ensures OnBus(Apply(n, a)) && CopiesBounded(Apply(n, a))
  {
    hide AllNoticed, PublicationOk, TablesOk, Elements, Times, LocksDisjoint, SentNow;
    var n' := Apply(n, a);
    SameTraffic(n, a);
    forall q | q in n'.relays ensures SentNow(n'.relays[q].phase) == SentNow(n.relays[q].phase) {
      SentUnchanged(n, a, q);
    }
    forall i ensures BeingSent(n', i) == BeingSent(n, i) {
      if BeingSent(n, i) {
        var q :| q in n.relays && i in SentNow(n.relays[q].phase);
        assert q in n'.relays && i in SentNow(n'.relays[q].phase);
      }
    }
  }

  lemma SameTraffic(n: Net, a: Action)
    requires Enabled(n, a) && !a.PublishOne? && !a.CommitBatch? && !a.Fail? && !a.Crash?
    ensures var n' := Apply(n, a);
            n'.bus == n.bus && n'.published == n.published && n'.aborts == n.aborts && n'.relays.Keys == n.relays.Keys
  {
  }

  // ---- wakeups

  lemma NoticedByScan(n: Net, a: Action, i: nat)
    requires a.ScanOne? && Enabled(n, a) && TablesOk(n) && i in n.rows && Noticed(n, n.relays[a.r], i)
    ensures Noticed(Apply(n, a), Apply(n, a).relays[a.r], i)
  {
    var phase := n.relays[a.r].phase;
    assert phase.todo == [phase.todo[0]] + phase.todo[1..];
  }

  /** A relay's own step: what the flag, the snapshot and the locks missed is still covered. */
  lemma NoticedByOwner(n: Net, a: Action, i: nat)
    requires Inv(n) && Enabled(n, a) && !a.CommitRows? && !a.Notify? && i in n.home && n.home[i] == a.r
    ensures Noticed(Apply(n, a), Apply(n, a).relays[a.r], i)
  {
    hide PublicationOk, LocksDisjoint, OnBus, CopiesBounded, PhaseOk;
    assert Noticed(n, n.relays[a.r], i);
    if a.ScanOne? {
      NoticedByScan(n, a, i);
    } else if a.Snapshot? {
      assert i in Pending(n) ==> i in Elements(a.todo);
    }
  }

  lemma WasNoticed(n: Net)
    requires Inv(n)
    ensures AllNoticed(n) && TablesOk(n)
  {
    hide PublicationOk, LocksDisjoint, OnBus, CopiesBounded, PhaseOk, AllNoticed, TablesOk;
  }

  lemma NoticedAfterCommit(n: Net, a: Action, r: nat, i: nat)
    requires AllNoticed(n) && a.CommitRows? && Enabled(n, a) && r in n.relays
    requires i in Apply(n, a).home && Apply(n, a).home[i] == r
    ensures Noticed(Apply(n, a), n.relays[r], i)
  {
    if i !in a.added {
      assert Noticed(n, n.relays[r], i);
    }
  }

  lemma NoticedAfterNotify(n: Net, a: Action, r: nat, i: nat)
    requires AllNoticed(n) && a.Notify? && r in n.relays && i in n.home && n.home[i] == r
    ensures r in Apply(n, a).relays && Noticed(Apply(n, a), Apply(n, a).relays[r], i)
  {
    assert Noticed(n, n.relays[r], i);
  }

  lemma NoticedElsewhere(n: Net, n': Net, relay: Relay, i: nat)
    requires Noticed(n, relay, i) && n.published <= n'.published && n'.silent == n.silent && n'.batch == n.batch
    ensures Noticed(n', relay, i)
  {
  }

  lemma NoticedByOthers(n: Net, a: Action, r: nat, i: nat)
    requires Inv(n) && Enabled(n, a) && (a.CommitRows? || a.Notify? || r != a.r)
    requires r in Apply(n, a).relays && i in Apply(n, a).home && Apply(n, a).home[i] == r
    ensures Noticed(Apply(n, a), Apply(n, a).relays[r], i)
  {
    hide PublicationOk, LocksDisjoint, OnBus, CopiesBounded, PhaseOk, Inv, Locks, LockedByOther, Elements, Publish, Scan, Noticed;
    WasNoticed(n);
    if a.CommitRows? {
      NoticedAfterCommit(n, a, r, i);
    } else if a.Notify? {
      NoticedAfterNotify(n, a, r, i);
    } else {
      NoticedElsewhere(n, Apply(n, a), n.relays[r], i);
    }
  }

  lemma NoticedStep(n: Net, a: Action)
    requires Inv(n) && Enabled(n, a)
    ensures AllNoticed(Apply(n, a))
  {
    hide Inv, Noticed;
    var n' := Apply(n, a);
    forall r, i | r in n'.relays && i in n'.home && n'.home[i] == r ensures Noticed(n', n'.relays[r], i) {
      if a.CommitRows? || a.Notify? || r != a.r {
        NoticedByOthers(n, a, r, i);
      } else {
        NoticedByOwner(n, a, i);
      }
    }
  }

  // ---- every step

  lemma StepOk(n: Net, a: Action)
    requires Inv(n) && Enabled(n, a)
    ensures Inv(Apply(n, a))
  {
    hide Enabled, Apply, TablesOk, PublicationOk, PhaseOk, LocksDisjoint, OnBus, CopiesBounded, AllNoticed;
    TablesStep(n, a);
    PublicationsStep(n, a);
    LocksStep(n, a);
    NoticedStep(n, a);
    forall q | q in Apply(n, a).relays ensures PhaseOk(Apply(n, a), Apply(n, a).relays[q].phase) {
      if a.CommitRows? || a.Notify? || q != a.r {
        OtherPhaseStep(n, a, q);
      } else {
        OwnPhaseStep(n, a);
      }
    }
    if a.PublishOne? {
      PublishCopies(n, a);
    } else if a.CommitBatch? {
      CommitCopies(n, a);
    } else if a.Fail? || a.Crash? {
      AbortCopies(n, a);
    } else {
      QuietCopies(n, a);
    }
  }

  lemma {:induction false} RunOk(n: Net, actions: seq<Action>, n': Net)
    requires Inv(n) && Reaches(n, actions, n')
    ensures Inv(n')
    decreases |actions|
  {
    hide Inv, Enabled, Apply;
    if actions != [] {
      StepOk(n, actions[0]);
      RunOk(Apply(n, actions[0]), actions[1..], n');
    }
  }
}
