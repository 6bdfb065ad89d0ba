/** The outbox relays of app/realtime/relay.py as a step machine: any number of replicas, each
    looping over select-and-lock, publish, mark, commit, with failures at any point. */
module RelayNet {
  import opened Models
  import Channels

  /** Where one relay is in its loop. */
  datatype Phase =
    | Starting                                   // about to clear the wake flag
    | Cleared                                    // flag cleared, transaction not yet begun
    | Scanning(todo: seq<nat>, got: seq<nat>)    // walking its snapshot, locking rows
    | Publishing(rows: seq<nat>, sent: nat)      // holds the locks; the pipeline has run this far
    | Working(count: nat)                        // batch committed; gauge and sweep
    | Waiting                                    // in `wait_for(self._wake.wait(), delay)`
    | Backoff                                    // sleeping after a failure

  /** `skipped` remembers the rows that the last select passed over because they were locked. */
  datatype Relay = Relay(wake: bool, phase: Phase, skipped: set<nat>)

  /** One message on the bus, with the outbox row it was published for. */
  datatype Publication = Publication(row: nat, channel: string, payload: Payload)

  /** `rows` is every outbox row ever committed, `present` those still in the table, `published`
      those whose `published_at` is set. `home` is the replica that committed a row, `stamp` its
      place in commit order, and `silent` the rows whose `notify` has not run. `aborts` counts the
      cycles that locked a row and did not commit. */
  datatype Net = Net(
    batch: nat, rows: map<nat, Row>, home: map<nat, nat>, stamp: map<nat, nat>, clock: nat,
    silent: set<nat>, present: set<nat>, published: set<nat>,
    bus: seq<Publication>, aborts: multiset<nat>, relays: map<nat, Relay>)

  function Init(batch: nat, replicas: set<nat>): Net {
    Net(batch, map[], map[], map[], 0, {}, {}, {}, [], multiset{},
        map r | r in replicas :: Relay(false, Starting, {}))
  }

  datatype Action =
    | CommitRows(replica: nat, added: map<nat, Row>)
    | Notify(replica: nat, ids: set<nat>)
    | Clear(r: nat)
    | Snapshot(r: nat, todo: seq<nat>)
    | ScanOne(r: nat)
    | EndScan(r: nat)
    | PublishOne(r: nat)
    | CommitBatch(r: nat, acknowledged: bool)
    | Sweep(r: nat, expired: set<nat>)
    | Settle(r: nat)
    | Wake(r: nat)
    | Fail(r: nat)
    | Resume(r: nat)
    | Crash(r: nat)

  function Elements(s: seq<nat>): set<nat> {
    set i | i in s
  }

  /** Rows that a relay's transaction has locked. */
  function Locks(phase: Phase): set<nat> {
    match phase
    case Scanning(_, got) => Elements(got)
    case Publishing(rows, _) => Elements(rows)
    case _ => {}
  }

  predicate LockedByOther(n: Net, r: nat, row: nat) {
    exists q | q in n.relays && q != r :: row in Locks(n.relays[q].phase)
  }

  predicate Sorted(s: seq<nat>) {
    forall i, j | 0 <= i < j < |s| :: s[i] < s[j]
  }

  function Pending(n: Net): set<nat> {
    n.present - n.published
  }

  predicate Enabled(n: Net, a: Action) {
    if a.CommitRows? then a.added.Keys !! n.rows.Keys
    else if a.Notify? then true
    else
      a.r in n.relays &&
      var phase := n.relays[a.r].phase;
      match a
      case Clear(_) => phase.Starting?
      case Snapshot(_, todo) => phase.Cleared? && Sorted(todo) && Elements(todo) == Pending(n)
      case ScanOne(_) => phase.Scanning? && phase.todo != [] && |phase.got| < n.batch
      case EndScan(_) => phase.Scanning? && (phase.todo == [] || |phase.got| == n.batch)
      case PublishOne(_) => phase.Publishing? && phase.sent < |phase.rows| && phase.rows[phase.sent] in n.rows
      case CommitBatch(_, _) => phase.Publishing? && phase.sent == |phase.rows|
      case Sweep(_, expired) => phase.Working? && expired <= n.published
      case Settle(_) => phase.Working?
      case Wake(_) => phase.Waiting?
      case Fail(_) => phase.Cleared? || phase.Scanning? || phase.Publishing? || phase.Working?
      case Resume(_) => phase.Backoff?
      case Crash(_) => true
  }

  function Goto(n: Net, r: nat, phase: Phase): Net
    requires r in n.relays
  {
    n.(relays := n.relays[r := n.relays[r].(phase := phase)])
  }

  /** Blocked in `wait_for`: the flag is down. */
  predicate Blocked(relay: Relay) {
    relay.phase.Waiting? && !relay.wake
  }

  function Publish(n: Net, row: nat): Publication
    requires row in n.rows
  {
    Publication(row, Channels.TopicChannel(n.rows[row].topic), n.rows[row].payload)
  }

  /** SKIP LOCKED passes over a row that another relay holds; a row that has been published since
      the snapshot fails the second look at the WHERE clause. */
  function Scan(n: Net, r: nat): Relay
    requires r in n.relays && n.relays[r].phase.Scanning? && n.relays[r].phase.todo != []
  {
    var relay := n.relays[r];
    var row, rest := relay.phase.todo[0], relay.phase.todo[1..];
    if LockedByOther(n, r, row) then relay.(phase := Scanning(rest, relay.phase.got), skipped := relay.skipped + {row})
    else if row !in Pending(n) then relay.(phase := Scanning(rest, relay.phase.got))
    else relay.(phase := Scanning(rest, relay.phase.got + [row]))
  }

  function Apply(n: Net, a: Action): Net
    requires Enabled(n, a)
  {
    match a
    case CommitRows(replica, added) =>
      n.(rows := n.rows + added,
         home := n.home + (map i | i in added :: replica),
         stamp := n.stamp + (map i | i in added :: n.clock),
         clock := n.clock + 1,
         silent := n.silent + added.Keys,
         present := n.present + added.Keys)
    case Notify(replica, ids) =>
      n.(silent := n.silent - (set i | i in ids && i in n.home && n.home[i] == replica),
         relays := if replica in n.relays then n.relays[replica := n.relays[replica].(wake := true)] else n.relays)
    case Clear(r) => n.(relays := n.relays[r := Relay(false, Cleared, {})])
    case Snapshot(r, todo) => Goto(n, r, Scanning(todo, []))
    case ScanOne(r) => n.(relays := n.relays[r := Scan(n, r)])
    case EndScan(r) =>
      var got := n.relays[r].phase.got;
      Goto(n, r, if got == [] then Working(0) else Publishing(got, 0))
    case PublishOne(r) =>
      var phase := n.relays[r].phase;
      Goto(n, r, phase.(sent := phase.sent + 1)).(bus := n.bus + [Publish(n, phase.rows[phase.sent])])
    case CommitBatch(r, acknowledged) =>
      var rows := n.relays[r].phase.rows;
      Goto(n, r, if acknowledged then Working(|rows|) else Backoff).(published := n.published + Elements(rows))
    case Sweep(r, expired) => n.(present := n.present - expired)
    case Settle(r) => Goto(n, r, if n.relays[r].phase.count >= n.batch then Starting else Waiting)
    case Wake(r) => Goto(n, r, Starting)
    case Fail(r) =>
      Goto(n, r, Backoff).(aborts := n.aborts + multiset(Locks(n.relays[r].phase)))
    case Resume(r) => Goto(n, r, Starting)
    case Crash(r) =>
      n.(relays := n.relays[r := Relay(false, Starting, {})], aborts := n.aborts + multiset(Locks(n.relays[r].phase)))
  }

  ghost predicate Reaches(n: Net, actions: seq<Action>, n': Net)
    decreases |actions|
  {
    if actions == [] then n' == n
    else Enabled(n, actions[0]) && Reaches(Apply(n, actions[0]), actions[1..], n')
  }
}
