/** What holds of the outbox in every run of any number of relays, with failures anywhere. */
module RelayTheorems {
  import opened Models
  import opened RelayNet
  import opened RelayInvariant
  import opened RelaySteps
  import Channels

  /** No committed row is lost: it is still in the table and unpublished, or it has been put on the
      bus, exactly as it was committed. The sweep only ever removes rows of the second kind. */
  lemma NoRowIsLost(batch: nat, replicas: set<nat>, actions: seq<Action>, n: Net, row: nat)
    requires 0 < batch && Reaches(Init(batch, replicas), actions, n) && row in n.rows
    ensures row in Pending(n) || Publish(n, row) in n.bus
    ensures row !in n.present ==> Publish(n, row) in n.bus
  {
    hide LocksDisjoint, CopiesBounded, AllNoticed;
    InitOk(batch, replicas);
    RunOk(Init(batch, replicas), actions, n);
    if row in n.published {
      assert row in multiset(Ids(n.bus));
      var k :| 0 <= k < |n.bus| && Ids(n.bus)[k] == row;
      assert n.bus[k] in n.bus;
    }
  }

  /** Nothing is on the bus that is not a committed row, on the channel of its topic. */
  lemma BusIsCommitted(batch: nat, replicas: set<nat>, actions: seq<Action>, n: Net, p: Publication)
    requires 0 < batch && Reaches(Init(batch, replicas), actions, n) && p in n.bus
    ensures p.row in n.rows && p.payload == n.rows[p.row].payload
    ensures p.channel == Channels.TopicChannel(n.rows[p.row].topic)
  {
    hide LocksDisjoint, OnBus, CopiesBounded, AllNoticed;
    InitOk(batch, replicas);
    RunOk(Init(batch, replicas), actions, n);
  }

  /** A row is published at most once more than the number of cycles that locked it and failed,
      and no two relays ever hold it at the same time. */
  lemma DuplicationIsBounded(batch: nat, replicas: set<nat>, actions: seq<Action>, n: Net, row: nat)
    requires 0 < batch && Reaches(Init(batch, replicas), actions, n)
    ensures Times(n.bus, row) <= 1 + n.aborts[row]
    ensures forall q, r | q in n.relays && r in n.relays && row in Locks(n.relays[q].phase) && row in Locks(n.relays[r].phase) :: q == r
  {
    hide OnBus, AllNoticed, Times, Locks;
    InitOk(batch, replicas);
    RunOk(Init(batch, replicas), actions, n);
    HeldOnce(n, row);
  }

  lemma HeldOnce(n: Net, row: nat)
    requires LocksDisjoint(n)
    ensures forall q, r | q in n.relays && r in n.relays && row in Locks(n.relays[q].phase) && row in Locks(n.relays[r].phase) :: q == r
  {
  }

  /** No wakeup is lost: while a relay is blocked, every unpublished row that its own replica has
      committed either has its `notify` still to come or was locked by another relay when this one
      looked. */
  lemma NoLostWakeup(batch: nat, replicas: set<nat>, actions: seq<Action>, n: Net, r: nat, row: nat)
    requires 0 < batch && Reaches(Init(batch, replicas), actions, n)
    requires r in n.relays && Blocked(n.relays[r]) && row in n.home && n.home[row] == r && row in Pending(n)
    ensures row in n.silent || row in n.relays[r].skipped
  {
    hide LocksDisjoint, OnBus, CopiesBounded;
    InitOk(batch, replicas);
    RunOk(Init(batch, replicas), actions, n);
    assert Noticed(n, n.relays[r], row);
  }

  // ---- a single relay publishes in order

  /** `i` precedes `j` in the identity sequence and was committed no later. */
  predicate Linked(n: Net, i: nat, j: nat) {
    i in n.rows && j in n.rows && i in n.stamp && j in n.stamp && i < j && n.stamp[i] <= n.stamp[j]
  }

  /** Every publication of `j` comes after one of `i`. */
  ghost predicate AfterFirst(bus: seq<Publication>, i: nat, j: nat) {
    forall k | 0 <= k < |bus| && bus[k].row == j :: Times(bus[..k], i) > 0
  }

  /** If the relay has `j` in hand then `i` is published or in hand too. */
  predicate InHand(n: Net, phase: Phase, i: nat, j: nat) {
    match phase
    case Scanning(todo, got) => j in got + todo ==> i in n.published || i in got + todo
    case Publishing(rows, _) => j in rows ==> i in n.published || i in rows
    case _ => true
  }

  ghost predicate PairOk(n: Net, r: nat, i: nat, j: nat)
    requires r in n.relays
  {
    Linked(n, i, j) ==> AfterFirst(n.bus, i, j) && InHand(n, n.relays[r].phase, i, j)
  }

  ghost predicate OrderInv(n: Net, r: nat) {
    && n.relays.Keys == {r}
    && (forall i | i in n.stamp :: n.stamp[i] < n.clock)
    && (forall i, j :: PairOk(n, r, i, j))
  }

  lemma AppendedAfterFirst(bus: seq<Publication>, p: Publication, i: nat, j: nat)
    requires AfterFirst(bus, i, j) && (p.row == j ==> Times(bus, i) > 0)
    ensures AfterFirst(bus + [p], i, j)
  {
    hide Times;
    var more := bus + [p];
    forall k | 0 <= k < |more| && more[k].row == j ensures Times(more[..k], i) > 0 {
      if k < |bus| {
        assert more[..k] == bus[..k];
      } else {
        assert more[..k] == bus;
      }
    }
  }

  lemma PublishInOrder(n: Net, r: nat, i: nat, j: nat)
    requires Inv(n) && OrderInv(n, r) && Enabled(n, PublishOne(r)) && Linked(n, i, j)
    ensures AfterFirst(Apply(n, PublishOne(r)).bus, i, j)
  {
    hide LocksDisjoint, CopiesBounded, AllNoticed, PublicationOk, Times, TablesOk, AfterFirst;
    var phase := n.relays[r].phase;
    assert PairOk(n, r, i, j) && PhaseOk(n, phase);
    if phase.rows[phase.sent] == j {
      if i in phase.rows {
        var x :| 0 <= x < |phase.rows| && phase.rows[x] == i;
        assert x < phase.sent;
        assert phase.rows[..phase.sent][x] == i;
        assert i in SentNow(phase);
      }
      assert Times(n.bus, i) > 0;
    }
    AppendedAfterFirst(n.bus, Publish(n, phase.rows[phase.sent]), i, j);
  }

  lemma ScanInHand(n: Net, r: nat, i: nat, j: nat)
    requires Inv(n) && OrderInv(n, r) && Enabled(n, ScanOne(r)) && Linked(n, i, j)
    ensures InHand(Apply(n, ScanOne(r)), Scan(n, r).phase, i, j)
  {
    hide LocksDisjoint, CopiesBounded, AllNoticed, PublicationOk, Times, OnBus, AfterFirst;
    var phase := n.relays[r].phase;
    assert PairOk(n, r, i, j);
    assert !LockedByOther(n, r, phase.todo[0]);
    assert phase.todo == [phase.todo[0]] + phase.todo[1..];
  }

  lemma EndScanInHand(n: Net, r: nat, i: nat, j: nat)
    requires Inv(n) && OrderInv(n, r) && Enabled(n, EndScan(r)) && Linked(n, i, j)
    ensures InHand(n, Apply(n, EndScan(r)).relays[r].phase, i, j)
  {
    hide LocksDisjoint, CopiesBounded, AllNoticed, PublicationOk, Times, OnBus, AfterFirst, TablesOk;
    var phase := n.relays[r].phase;
    var all := phase.got + phase.todo;
    assert PairOk(n, r, i, j) && PhaseOk(n, phase);
    if j in phase.got && i in all {
      var x :| 0 <= x < |all| && all[x] == i;
      var y :| 0 <= y < |phase.got| && phase.got[y] == j;
      assert all[y] == j;
      assert !(y < x);
    }
  }

  lemma OwnStepInOrder(n: Net, r: nat, a: Action, i: nat, j: nat)
    requires Inv(n) && OrderInv(n, r) && Enabled(n, a) && !a.CommitRows? && !a.Notify? && a.r == r
    requires Linked(n, i, j)
    ensures PairOk(Apply(n, a), r, i, j)
  {
    hide LocksDisjoint, CopiesBounded, AllNoticed, PublicationOk, Times, OnBus, AfterFirst, PhaseOk;
    assert PairOk(n, r, i, j);
    match a {
      case PublishOne(_) => PublishInOrder(n, r, i, j);
      case ScanOne(_) => ScanInHand(n, r, i, j);
      case EndScan(_) => EndScanInHand(n, r, i, j);
      case Snapshot(_, todo) =>
        assert [] + todo == todo;
        assert i in Pending(n) ==> i in Elements(todo);
      case _ =>
    }
  }

  lemma UncommittedIsNowhere(n: Net, r: nat, j: nat)
    requires Inv(n) && r in n.relays && j !in n.rows
    ensures forall k | 0 <= k < |n.bus| :: n.bus[k].row != j
    ensures n.relays[r].phase.Scanning? ==> j !in n.relays[r].phase.got + n.relays[r].phase.todo
    ensures n.relays[r].phase.Publishing? ==> j !in n.relays[r].phase.rows
  {
    hide LocksDisjoint, CopiesBounded, AllNoticed, OnBus, Sorted;
    assert PhaseOk(n, n.relays[r].phase);
    forall k | 0 <= k < |n.bus| ensures n.bus[k].row != j {
      assert n.bus[k] in n.bus && PublicationOk(n, n.bus[k]);
    }
    assert j !in Pending(n);
    if n.relays[r].phase.Scanning? {
      assert j !in Elements(n.relays[r].phase.todo) && j !in Elements(n.relays[r].phase.got);
    } else if n.relays[r].phase.Publishing? {
      assert j !in Elements(n.relays[r].phase.rows);
    }
  }

  /** Rows that are committed later cannot overtake rows that are already linked. */
  lemma NewRowsInOrder(n: Net, r: nat, a: Action, i: nat, j: nat)
    requires Inv(n) && OrderInv(n, r) && Enabled(n, a) && a.CommitRows?
    ensures PairOk(Apply(n, a), r, i, j)
  {
    hide LocksDisjoint, CopiesBounded, AllNoticed, OnBus, Times;
    var n' := Apply(n, a);
    if Linked(n', i, j) {
      if j in n.rows {
        assert Linked(n, i, j);
        assert PairOk(n, r, i, j);
      } else {
        UncommittedIsNowhere(n, r, j);
      }
    }
  }

  lemma OrderStep(n: Net, r: nat, a: Action)
    requires Inv(n) && OrderInv(n, r) && Enabled(n, a)
    ensures OrderInv(Apply(n, a), r)
  {
    hide Inv, PairOk;
    var n' := Apply(n, a);
    forall i, j ensures PairOk(n', r, i, j) {
      if a.CommitRows? {
        NewRowsInOrder(n, r, a, i, j);
      } else {
        OtherStepsInOrder(n, r, a, i, j);
      }
    }
  }

  lemma OtherStepsInOrder(n: Net, r: nat, a: Action, i: nat, j: nat)
    requires Inv(n) && OrderInv(n, r) && Enabled(n, a) && !a.CommitRows?
    ensures r in Apply(n, a).relays && PairOk(Apply(n, a), r, i, j)
  {
    hide Inv, AfterFirst;
    if Linked(n, i, j) {
      if a.Notify? {
        assert PairOk(n, r, i, j);
      } else {
        OwnStepInOrder(n, r, a, i, j);
      }
    }
  }

  lemma {:induction false} OrderRun(n: Net, r: nat, actions: seq<Action>, n': Net)
    requires Inv(n) && OrderInv(n, r) && Reaches(n, actions, n')
    ensures OrderInv(n', r)
    decreases |actions|
  {
    hide Inv, OrderInv, Enabled, Apply;
    if actions != [] {
      StepOk(n, actions[0]);
      OrderStep(n, r, actions[0]);
      OrderRun(Apply(n, actions[0]), r, actions[1..], n');
    }
  }

  /** With one relay, failures and repeated batches included, no row is published before a row
      that has a smaller number and was committed no later. */
  lemma SingleRelayKeepsOrder(batch: nat, r: nat, actions: seq<Action>, n: Net, i: nat, j: nat)
    requires 0 < batch && Reaches(Init(batch, {r}), actions, n) && Linked(n, i, j)
    ensures AfterFirst(n.bus, i, j)
  {
    hide Inv;
    InitOk(batch, {r});
    OrderRun(Init(batch, {r}), r, actions, n);
    assert PairOk(n, r, i, j);
  }
}
