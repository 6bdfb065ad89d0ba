/** What the relays keep: exclusive locks, no lost rows, bounded duplication, no lost wakeup. */
module RelayInvariant {
  import opened Models
  import opened RelayNet

  function Ids(bus: seq<Publication>): seq<nat> {
    seq(|bus|, k requires 0 <= k < |bus| => bus[k].row)
  }

  /** How often a row has been put on the bus. */
  function Times(bus: seq<Publication>, row: nat): nat {
    multiset(Ids(bus))[row]
  }

  /** Rows that the current transaction of a relay has already put on the bus. */
  function SentNow(phase: Phase): set<nat> {
    if phase.Publishing? && phase.sent <= |phase.rows| then Elements(phase.rows[..phase.sent]) else {}
  }

  ghost predicate TablesOk(n: Net) {
    && n.home.Keys == n.rows.Keys && n.stamp.Keys == n.rows.Keys
    && n.present <= n.rows.Keys && n.published <= n.rows.Keys
    && n.rows.Keys - n.present <= n.published
    && 0 < n.batch
  }

  /** A publication carries exactly its row, on the channel of the row's topic. */
  predicate PublicationOk(n: Net, p: Publication) {
    p.row in n.rows && p == Publish(n, p.row)
  }

  predicate PhaseOk(n: Net, phase: Phase) {
    match phase
    case Scanning(todo, got) =>
      && Sorted(got + todo) && Elements(todo) <= n.rows.Keys && |got| <= n.batch
      && Elements(got) <= Pending(n)
    case Publishing(rows, sent) =>
      Sorted(rows) && 0 < |rows| <= n.batch && sent <= |rows| && Elements(rows) <= Pending(n)
    case _ => true
  }

  /** Once a row is marked it has been on the bus, and so has what a cycle in progress has sent. */
  ghost predicate OnBus(n: Net) {
    && (forall i | i in n.published :: Times(n.bus, i) > 0)
    && (forall r, i | r in n.relays && i in SentNow(n.relays[r].phase) :: Times(n.bus, i) > 0)
  }

  predicate BeingSent(n: Net, row: nat) {
    exists r | r in n.relays :: row in SentNow(n.relays[r].phase)
  }

  /** Each extra copy of a row on the bus is owed to a cycle that locked it and failed. */
  ghost predicate CopiesBounded(n: Net) {
    forall i :: Times(n.bus, i) <= n.aborts[i] + if i in n.published || BeingSent(n, i) then 1 else 0
  }

  ghost predicate LocksDisjoint(n: Net) {
    forall q, r | q in n.relays && r in n.relays && q != r :: Locks(n.relays[q].phase) !! Locks(n.relays[r].phase)
  }

  /** A row of the relay's own replica that it need not wait for: some wakeup for it is still to
      come, or another relay held it when this one looked. */
  predicate Covered(n: Net, relay: Relay, row: nat) {
    row in n.published || row in n.silent || relay.wake || row in relay.skipped
  }

  /** What the select has yet to visit or has locked covers the rest. */
  predicate Noticed(n: Net, relay: Relay, row: nat) {
    match relay.phase
    case Scanning(todo, got) => row in todo || row in got || Covered(n, relay, row)
    case Publishing(rows, _) => |rows| == n.batch || row in rows || Covered(n, relay, row)
    case Working(count) => count >= n.batch || Covered(n, relay, row)
    case Waiting => Covered(n, relay, row)
    case _ => true
  }

  ghost predicate AllNoticed(n: Net) {
    forall r, i | r in n.relays && i in n.home && n.home[i] == r :: Noticed(n, n.relays[r], i)
  }

  ghost predicate Inv(n: Net) {
    && TablesOk(n)
    && (forall p <- n.bus :: PublicationOk(n, p))
    && (forall r | r in n.relays :: PhaseOk(n, n.relays[r].phase))
    && LocksDisjoint(n)
    && OnBus(n) && CopiesBounded(n)
    && AllNoticed(n)
  }

  lemma InitOk(batch: nat, replicas: set<nat>)
    requires 0 < batch
    ensures Inv(Init(batch, replicas))
  {
  }
}
