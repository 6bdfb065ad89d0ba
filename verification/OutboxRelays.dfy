/** The relay's own loop (app/realtime/relay.py), built from the steps of RelayNet, and how far one
    undisturbed run of it gets. */
module OutboxRelays {
  import opened Models
  import opened RelayNet
  import opened RelayInvariant
  import opened RelaySteps
  import opened RowOrder
  import Clock

  /** The publications of some rows, in order. */
  function Publications(n: Net, ids: seq<nat>): (ps: seq<Publication>)
    requires forall i <- ids :: i in n.rows
    ensures |ps| == |ids|
  {
    if ids == [] then [] else Publications(n, ids[..|ids| - 1]) + [Publish(n, ids[|ids| - 1])]
  }

  lemma {:induction false} PublicationsConcat(n: Net, a: seq<nat>, b: seq<nat>)
    requires (forall i <- a :: i in n.rows) && forall i <- b :: i in n.rows
    ensures Publications(n, a + b) == Publications(n, a) + Publications(n, b)
    decreases |b|
  {
    if b == [] {
      assert a + b == a;
    } else {
      var last := |b| - 1;
      assert (a + b)[..|a + b| - 1] == a + b[..last];
      PublicationsConcat(n, a, b[..last]);
    }
  }

  lemma {:induction false} PublicationsOfSameRows(n: Net, n': Net, ids: seq<nat>)
    requires forall i <- ids :: i in n.rows && i in n'.rows && n'.rows[i] == n.rows[i]
    ensures Publications(n, ids) == Publications(n', ids)
  {
    if ids != [] {
      PublicationsOfSameRows(n, n', ids[..|ids| - 1]);
    }
  }

  lemma {:induction false} Extend(n: Net, actions: seq<Action>, mid: Net, a: Action)
    requires Reaches(n, actions, mid) && Enabled(mid, a)
    ensures Reaches(n, actions + [a], Apply(mid, a))
    decreases |actions|
  {
    hide Enabled, Apply;
    if actions == [] {
      assert [] + [a] == [a];
      assert [a][1..] == [];
      assert Reaches(Apply(n, a), [], Apply(mid, a));
    } else {
      Extend(Apply(n, actions[0]), actions[1..], mid, a);
      assert (actions + [a])[1..] == actions[1..] + [a];
    }
  }

  /** What a select that meets no foreign lock takes. */
  function FirstBatch(n: Net): (rows: seq<nat>)
    ensures |rows| == if n.batch <= |Pending(n)| then n.batch else |Pending(n)|
  {
    var all := Ordered(Pending(n));
    if n.batch <= |all| then all[..n.batch] else all
  }

  predicate At(n: Net, id: nat, phase: Phase) {
    id in n.relays && n.relays[id].phase == phase
  }

  /** Nobody but relay `id` holds a row. */
  predicate OthersIdle(n: Net, id: nat) {
    forall q | q in n.relays && q != id :: Locks(n.relays[q].phase) == {}
  }

  /** Nothing but the relays' own state differs. */
  predicate SameTables(n: Net, n': Net) {
    n' == n.(relays := n'.relays)
  }

  /** A step of relay `id` takes it to `phase` and leaves the others alone. */
  predicate Moves(n: Net, a: Action, id: nat, phase: Phase) {
    && Enabled(n, a) && At(Apply(n, a), id, phase)
    && (OthersIdle(n, id) ==> OthersIdle(Apply(n, a), id))
  }

  // ---- one step at a time

  lemma StepClear(n: Net, id: nat)
    requires At(n, id, Starting)
    ensures Moves(n, Clear(id), id, Cleared) && SameTables(n, Apply(n, Clear(id)))
    ensures !Apply(n, Clear(id)).relays[id].wake && Apply(n, Clear(id)).relays[id].skipped == {}
  {
  }

  lemma StepSnapshot(n: Net, id: nat)
    requires At(n, id, Cleared)
    ensures var a := Snapshot(id, Ordered(Pending(n)));
            && Moves(n, a, id, Scanning(Ordered(Pending(n)), [])) && SameTables(n, Apply(n, a))
            && Apply(n, a).relays[id].skipped == n.relays[id].skipped
  {
    hide Ordered, Pending, Elements, Sorted, Locks, Publish, LockedByOther;
    assert Locks(Scanning(Ordered(Pending(n)), [])) == Locks(Cleared) by { NoLocksYet(Ordered(Pending(n))); }
  }

  lemma NoLocksYet(todo: seq<nat>)
    ensures Locks(Scanning(todo, [])) == Locks(Cleared) == {}
  {
  }

  /** One row of the snapshot: it is locked, or passed over because another relay holds it, or because it
      has been published meanwhile. */
  lemma StepScan(n: Net, id: nat, todo: seq<nat>, got: seq<nat>)
    requires At(n, id, Scanning(todo, got)) && todo != [] && |got| < n.batch
    ensures var a := ScanOne(id);
            var got' := if LockedByOther(n, id, todo[0]) || todo[0] !in Pending(n) then got else got + [todo[0]];
            && Moves(n, a, id, Scanning(todo[1..], got')) && SameTables(n, Apply(n, a))
            && n.relays[id].skipped <= Apply(n, a).relays[id].skipped
            && (LockedByOther(n, id, todo[0]) ==> todo[0] in Apply(n, a).relays[id].skipped)
            && (OthersIdle(n, id) ==> !LockedByOther(n, id, todo[0]) && Apply(n, a).relays[id].skipped == n.relays[id].skipped)
  {
  }

  lemma StepEndScan(n: Net, id: nat, todo: seq<nat>, got: seq<nat>)
    requires At(n, id, Scanning(todo, got)) && (todo == [] || |got| == n.batch)
    ensures var a := EndScan(id);
            && Moves(n, a, id, if got == [] then Working(0) else Publishing(got, 0)) && SameTables(n, Apply(n, a))
            && Apply(n, a).relays[id].skipped == n.relays[id].skipped
  {
  }

  lemma StepPublish(n: Net, id: nat, rows: seq<nat>, sent: nat)
    requires At(n, id, Publishing(rows, sent)) && sent < |rows| && rows[sent] in n.rows
    ensures var a := PublishOne(id);
            && Moves(n, a, id, Publishing(rows, sent + 1))
            && Apply(n, a) == n.(relays := Apply(n, a).relays, bus := n.bus + [Publish(n, rows[sent])])
            && Apply(n, a).relays[id].skipped == n.relays[id].skipped
  {
  }

  lemma StepCommit(n: Net, id: nat, rows: seq<nat>, acknowledged: bool)
    requires At(n, id, Publishing(rows, |rows|))
    ensures var a := CommitBatch(id, acknowledged);
            && Moves(n, a, id, if acknowledged then Working(|rows|) else Backoff)
            && Apply(n, a) == n.(relays := Apply(n, a).relays, published := n.published + Elements(rows))
            && Apply(n, a).relays[id].skipped == n.relays[id].skipped
  {
  }

  lemma StepFail(n: Net, id: nat, phase: Phase)
    requires At(n, id, phase) && (phase.Scanning? || phase.Publishing?)
    ensures var a := RelayNet.Fail(id);
            && Moves(n, a, id, Backoff) && Apply(n, a) == n.(relays := Apply(n, a).relays, aborts := Apply(n, a).aborts)
            && Apply(n, a).relays[id].skipped == n.relays[id].skipped
  {
  }

  lemma StepSweep(n: Net, id: nat, count: nat, expired: set<nat>)
    requires At(n, id, Working(count)) && expired <= n.published
    ensures var a := Sweep(id, expired);
            && Moves(n, a, id, Working(count)) && Apply(n, a) == n.(present := n.present - expired)
            && Pending(Apply(n, a)) == Pending(n)
  {
  }

  lemma StepSettle(n: Net, id: nat, count: nat)
    requires At(n, id, Working(count))
    ensures var a := Settle(id);
            Moves(n, a, id, if count >= n.batch then Starting else Waiting) && SameTables(n, Apply(n, a))
  {
  }

  // ---- steps of others

  predicate Foreign(a: Action, id: nat) {
    a.CommitRows? || a.Notify? || a.r != id
  }

  /** The publications of these rows, in order. */
  function OfRows(bus: seq<Publication>, rows: set<nat>): seq<Publication> {
    if bus == [] then []
    else
      var rest, last := OfRows(bus[..|bus| - 1], rows), bus[|bus| - 1];
      if last.row in rows then rest + [last] else rest
  }

  lemma {:induction false} OfRowsConcat(a: seq<Publication>, b: seq<Publication>, rows: set<nat>)
    ensures OfRows(a + b, rows) == OfRows(a, rows) + OfRows(b, rows)
    decreases |b|
  {
    if b == [] {
      assert a + b == a;
    } else {
      assert (a + b)[..|a + b| - 1] == a + b[..|b| - 1];
      OfRowsConcat(a, b[..|b| - 1], rows);
    }
  }

  predicate KeepsRows(n: Net, n': Net) {
    forall i | i in n.rows :: i in n'.rows && n'.rows[i] == n.rows[i]
  }

  /** Others have made steps: relay `id` is where it was, and none of the rows it holds has been put on the
      bus. */
  ghost predicate Elsewhere(n: Net, n': Net, id: nat) {
    && id in n.relays && id in n'.relays
    && n'.relays[id].phase == n.relays[id].phase && n'.relays[id].skipped == n.relays[id].skipped
    && n'.batch == n.batch && n.published <= n'.published && KeepsRows(n, n')
    && n.bus <= n'.bus && OfRows(n'.bus[|n.bus|..], Locks(n.relays[id].phase)) == []
  }

  lemma StaysElsewhere(n: Net, id: nat)
    requires id in n.relays
    ensures Elsewhere(n, n, id)
  {
    assert n.bus[|n.bus|..] == [];
  }

  lemma ElsewhereIsTransitive(a: Net, b: Net, c: Net, id: nat)
    requires Elsewhere(a, b, id) && Elsewhere(b, c, id)
    ensures Elsewhere(a, c, id)
  {
    hide OfRows, Locks;
    var first, second := b.bus[|a.bus|..], c.bus[|b.bus|..];
    assert c.bus[|a.bus|..] == first + second;
    OfRowsConcat(first, second, Locks(a.relays[id].phase));
  }

  lemma HeldApart(n: Net, q: nat, r: nat, row: nat)
    requires Inv(n) && q in n.relays && r in n.relays && q != r && row in Locks(n.relays[q].phase)
    ensures row !in Locks(n.relays[r].phase)
  {
    hide OnBus, CopiesBounded, AllNoticed, PublicationOk, TablesOk, PhaseOk, Locks;
    assert Locks(n.relays[q].phase) !! Locks(n.relays[r].phase);
  }

  lemma ForeignBus(n: Net, a: Action, id: nat)
    requires Inv(n) && Enabled(n, a) && Foreign(a, id) && id in n.relays
    ensures n.bus <= Apply(n, a).bus && OfRows(Apply(n, a).bus[|n.bus|..], Locks(n.relays[id].phase)) == []
  {
    hide Inv, Publish, LockedByOther, Scan;
    if a.PublishOne? {
      var row := n.relays[a.r].phase.rows[n.relays[a.r].phase.sent];
      assert row in Locks(n.relays[a.r].phase);
      HeldApart(n, a.r, id, row);
      var delta := Apply(n, a).bus[|n.bus|..];
      assert delta == [Publish(n, row)] && delta[..0] == [];
      assert Publish(n, row).row == row by { PublishedRow(n, row); }
    } else {
      assert Apply(n, a).bus[|n.bus|..] == [];
    }
  }

  lemma PublishedRow(n: Net, row: nat)
    requires row in n.rows
    ensures Publish(n, row).row == row
  {
  }

  lemma ForeignStep(n: Net, a: Action, id: nat)
    requires Inv(n) && Enabled(n, a) && Foreign(a, id) && id in n.relays
    ensures Elsewhere(n, Apply(n, a), id)
  {
    hide Inv, OfRows, Locks, Publish, LockedByOther, Scan;
    ForeignBus(n, a, id);
  }

  // ---- a batch

  /** Half-way through its snapshot `n0`, with `todo` to come: every row of it has been locked, passed over
      because another relay held it, or published meanwhile, or is still to come. */
  predicate Chosen(n0: Net, n: Net, id: nat, todo: seq<nat>, got: seq<nat>) {
    && id in n.relays && n.batch == n0.batch && KeepsRows(n0, n)
    && Sorted(got + todo) && Elements(got + todo) <= Pending(n0) && |got| <= n0.batch
    && forall i | i in Pending(n0) :: i in todo || Accounted(n, id, got, i)
  }

  predicate Accounted(n: Net, id: nat, got: seq<nat>, i: nat)
    requires id in n.relays
  {
    i in got || i in n.relays[id].skipped || i in n.published
  }

  /** A batch taken out of the backlog of `n0`: in order, no more than the batch size, and everything else
      was held by another relay, has been published, or comes after a full batch. */
  predicate Selected(n0: Net, n: Net, id: nat, rows: seq<nat>) {
    && id in n.relays
    && Sorted(rows) && |rows| <= n0.batch && Elements(rows) <= Pending(n0)
    && forall i | i in Pending(n0) :: Accounted(n, id, rows, i) || (|rows| == n0.batch && forall r <- rows :: r < i)
  }

  lemma ChosenAtFirst(n: Net, n': Net, id: nat)
    requires SameTables(n, n') && id in n'.relays
    ensures Chosen(n, n', id, Ordered(Pending(n)), [])
  {
    assert [] + Ordered(Pending(n)) == Ordered(Pending(n));
    assert forall i | i in Pending(n) :: i in Elements(Ordered(Pending(n)));
  }

  lemma GoneIsPublished(n: Net, row: nat)
    requires Inv(n) && row in n.rows && row !in Pending(n)
    ensures row in n.published
  {
    hide OnBus, CopiesBounded, AllNoticed, PublicationOk, PhaseOk, LocksDisjoint;
  }

  lemma RowsBehind(n: Net, row: nat)
    requires Inv(n) && row in Pending(n)
    ensures row in n.rows
  {
    hide OnBus, CopiesBounded, AllNoticed, PublicationOk, PhaseOk, LocksDisjoint;
  }

  lemma ChosenNext(n0: Net, n: Net, n': Net, id: nat, todo: seq<nat>, got: seq<nat>)
    requires Inv(n0) && Inv(n) && Chosen(n0, n, id, todo, got) && todo != [] && |got| < n.batch
    requires SameTables(n, n') && id in n'.relays && n.relays[id].skipped <= n'.relays[id].skipped
    requires LockedByOther(n, id, todo[0]) ==> todo[0] in n'.relays[id].skipped
    ensures var got' := if LockedByOther(n, id, todo[0]) || todo[0] !in Pending(n) then got else got + [todo[0]];
            Chosen(n0, n', id, todo[1..], got')
  {
    hide Inv, LockedByOther, Pending;
    var row := todo[0];
    SortedParts(got, todo);
    assert row in Elements(got + todo) by { assert (got + todo)[|got|] == row; }
    RowsBehind(n0, row);
    if row !in Pending(n) {
      GoneIsPublished(n, row);
    }
    assert todo == [row] + todo[1..];
    assert Elements(got + todo[1..]) <= Elements(got + todo) && Elements(got + [row] + todo[1..]) <= Elements(got + todo) by {
      assert forall i :: i in todo <==> i == row || i in todo[1..];
    }
    var got' := if LockedByOther(n, id, row) || row !in Pending(n) then got else got + [row];
    forall i | i in Pending(n0) ensures i in todo[1..] || Accounted(n', id, got', i) {
      assert i in todo || Accounted(n, id, got, i);
    }
  }

  lemma ChosenElsewhere(n0: Net, n: Net, n': Net, id: nat, todo: seq<nat>, got: seq<nat>)
    requires Chosen(n0, n, id, todo, got) && Elsewhere(n, n', id)
    ensures Chosen(n0, n', id, todo, got)
  {
    hide Pending, Sorted, OfRows, Locks;
    forall i | i in Pending(n0) ensures i in todo || Accounted(n', id, got, i) {
      assert i in todo || Accounted(n, id, got, i);
    }
  }

  lemma ChosenEnds(n0: Net, n: Net, n': Net, id: nat, todo: seq<nat>, got: seq<nat>)
    requires Chosen(n0, n, id, todo, got) && (todo == [] || |got| == n.batch)
    requires SameTables(n, n') && id in n'.relays && n'.relays[id].skipped == n.relays[id].skipped
    ensures Selected(n0, n', id, got)
  {
    hide Pending;
    HalvesOf(got + todo, |got|);
    assert (got + todo)[..|got|] == got;
    assert Elements(got) <= Elements(got + todo) by { ElementsOfConcat(got, todo); }
    forall i | i in Pending(n0) ensures Accounted(n', id, got, i) || (|got| == n0.batch && forall r <- got :: r < i) {
      assert i in todo || Accounted(n, id, got, i);
      if i in todo {
        FirstHalfIsBelow(got, todo, i);
      }
    }
  }

  lemma FirstHalfIsBelow(got: seq<nat>, todo: seq<nat>, i: nat)
    requires Sorted(got + todo) && i in todo
    ensures forall r <- got :: r < i
  {
    var k :| 0 <= k < |todo| && todo[k] == i;
    forall r <- got ensures r < i {
      var j :| 0 <= j < |got| && got[j] == r;
      assert (got + todo)[j] < (got + todo)[|got| + k];
    }
  }

  lemma SelectedElsewhere(n0: Net, n: Net, n': Net, id: nat, rows: seq<nat>)
    requires Selected(n0, n, id, rows) && id in n'.relays
    requires n'.relays[id].skipped == n.relays[id].skipped && n.published <= n'.published
    ensures Selected(n0, n', id, rows)
  {
    hide Pending, Sorted;
    forall i | i in Pending(n0) ensures Accounted(n', id, rows, i) || (|rows| == n0.batch && forall r <- rows :: r < i) {
      assert Accounted(n, id, rows, i) || (|rows| == n0.batch && forall r <- rows :: r < i);
    }
  }

  lemma SortedConcat(a: seq<nat>, b: seq<nat>)
    requires Sorted(a) && Sorted(b) && forall x, y | x in a && y in b :: x < y
    ensures Sorted(a + b)
  {
    var s := a + b;
    forall i, j | 0 <= i < j < |s| ensures s[i] < s[j] {
      if i < |a| && j >= |a| {
        assert s[i] in a && s[j] in b;
      }
    }
  }

  /** With nothing passed over and nothing published meanwhile, that batch is the front of the backlog. */
  lemma SelectedIsFirst(n0: Net, n: Net, id: nat, rows: seq<nat>)
    requires Selected(n0, n, id, rows) && n.relays[id].skipped == {} && n.published == n0.published
    ensures rows == FirstBatch(n0)
  {
    hide Sorted, Ordered;
    var pending, rest := Pending(n0), Pending(n0) - Elements(rows);
    forall i | i in rest ensures |rows| == n0.batch && forall r <- rows :: r < i {
      assert Accounted(n, id, rows, i) || (|rows| == n0.batch && forall r <- rows :: r < i);
    }
    forall x, y | x in rows && y in Ordered(rest) ensures x < y {
      assert y in Elements(Ordered(rest));
    }
    SortedConcat(rows, Ordered(rest));
    ElementsOfConcat(rows, Ordered(rest));
    SortedIsUnique(rows + Ordered(rest), Ordered(pending));
    assert rows == Ordered(pending)[..|rows|];
    if rest == {} {
      assert |rows| == |pending|;
    } else {
      var i :| i in rest;
      assert |rows| == n0.batch;
    }
  }

  lemma PendingAreRows(n: Net)
    requires Inv(n)
    ensures forall i <- Ordered(Pending(n)) :: i in n.rows
    ensures forall i <- FirstBatch(n) :: i in n.rows
    ensures 0 < n.batch
  {
    forall i <- Ordered(Pending(n)) ensures i in n.rows {
      assert i in Elements(Ordered(Pending(n)));
    }
  }

  /** After `n` the rows have been published in order and marked, and nothing else has changed but
      for published rows that a sweep may have removed. */
  predicate Drained(n: Net, n': Net, rows: seq<nat>)
    requires forall i <- rows :: i in n.rows
  {
    && n' == n.(relays := n'.relays, bus := n.bus + Publications(n, rows),
                published := n.published + Elements(rows), present := n'.present)
    && n'.present <= n.present && Pending(n') == Pending(n) - Elements(rows)
  }

  lemma PendingFrame(n: Net, n': Net, marked: set<nat>)
    requires n'.present == n.present && n'.published == n.published + marked
    ensures Pending(n') == Pending(n) - marked
  {
  }

  lemma PublicationsNext(n: Net, rows: seq<nat>, sent: nat)
    requires sent < |rows| && forall i <- rows :: i in n.rows
    ensures Publications(n, rows[..sent + 1]) == Publications(n, rows[..sent]) + [Publish(n, rows[sent])]
  {
    assert rows[..sent + 1][..sent] == rows[..sent];
  }

  /** `done` is published, in order, and what remains of the first backlog is the present one. */
  predicate Progress(n0: Net, n: Net, done: seq<nat>) {
    && done + Ordered(Pending(n)) == Ordered(Pending(n0))
    && (forall i <- done :: i in n0.rows)
    && Drained(n0, n, done)
  }

  lemma ProgressStarts(n: Net)
    requires Inv(n)
    ensures Progress(n, n, [])
  {
    hide Ordered, Inv;
    NoElements([]);
    assert n.bus + Publications(n, []) == n.bus;
    assert [] + Ordered(Pending(n)) == Ordered(Pending(n));
  }

  /** Only the relays' own state differs, and rows that are published anyway may be gone. */
  predicate Swept(n: Net, n': Net) {
    n' == n.(relays := n'.relays, present := n'.present) && n'.present <= n.present && Pending(n') == Pending(n)
  }

  lemma DrainedThrough(n: Net, cleared: Net, published: Net, n': Net)
    requires SameTables(n, cleared) && Swept(published, n')
    requires forall i <- FirstBatch(cleared) :: i in cleared.rows
    requires Drained(cleared, published, FirstBatch(cleared))
    ensures FirstBatch(cleared) == FirstBatch(n)
    ensures Drained(n, n', FirstBatch(n))
  {
    hide Publications, Ordered, Elements;
    assert Pending(cleared) == Pending(n);
    PublicationsOfSameRows(n, cleared, FirstBatch(n));
  }

  lemma Quotient(total: nat, batch: nat, cycles: nat, count: nat)
    requires 0 < batch && count < batch && total == cycles * batch + count
    ensures total / batch == cycles
  {
    Clock.MixedRadix(batch, total / batch, total % batch, cycles, count);
  }

  lemma ProgressNext(n0: Net, n: Net, n': Net, done: seq<nat>, cycles: nat)
    requires Progress(n0, n, done) && 0 < n.batch == n0.batch && |done| == cycles * n.batch
    requires (forall i <- FirstBatch(n) :: i in n.rows) && Drained(n, n', FirstBatch(n))
    ensures Progress(n0, n', done + FirstBatch(n)) && n'.batch == n0.batch
    ensures |Pending(n')| == |Pending(n)| - |FirstBatch(n)|
    ensures |FirstBatch(n)| < n.batch ==> Pending(n') == {} && |Pending(n0)| / n.batch == cycles
    ensures |FirstBatch(n)| >= n.batch ==> |done + FirstBatch(n)| == (cycles + 1) * n.batch && |Pending(n')| < |Pending(n)|
  {
    hide Publications, Ordered, Elements, Pending;
    var all, rows := Ordered(Pending(n)), FirstBatch(n);
    assert rows == all[..|rows|];
    RestIsOrdered(Pending(n), |rows|);
    assert Ordered(Pending(n')) == all[|rows|..];
    assert all == rows + all[|rows|..];
    assert done + rows + all[|rows|..] == done + all;
    PublicationsOfSameRows(n0, n, rows);
    PublicationsConcat(n0, done, rows);
    ElementsOfConcat(done, rows);
    assert n0.bus + Publications(n0, done) + Publications(n0, rows) == n0.bus + Publications(n0, done + rows);
    if |rows| < n.batch {
      assert |Pending(n0)| == |done + all| == cycles * n.batch + |rows|;
      Quotient(|Pending(n0)|, n.batch, cycles, |rows|);
    }
  }

  lemma ProgressEnds(n0: Net, n: Net, done: seq<nat>)
    requires Progress(n0, n, done) && Pending(n) == {}
    ensures done == Ordered(Pending(n0)) && (forall i <- done :: i in n0.rows) && Drained(n0, n, done)
  {
    hide Drained;
    assert done + [] == done;
  }

  /** The relay has put the first `sent` rows of its batch on the bus, each once and in order, and since
      position `start` of the bus nobody has put any other of them there. */
  predicate SentOnce(n: Net, start: nat, rows: seq<nat>, sent: nat) {
    && (forall i <- rows :: i in n.rows)
    && start <= |n.bus| && sent <= |rows|
    && OfRows(n.bus[start..], Elements(rows)) == Publications(n, rows[..sent])
  }

  lemma NothingSent(n: Net, rows: seq<nat>)
    requires forall i <- rows :: i in n.rows
    ensures SentOnce(n, |n.bus|, rows, 0)
  {
    assert n.bus[|n.bus|..] == [] && rows[..0] == [];
  }

  lemma SentOneMore(n: Net, n': Net, start: nat, rows: seq<nat>, sent: nat)
    requires SentOnce(n, start, rows, sent) && sent < |rows|
    requires n'.rows == n.rows && n'.bus == n.bus + [Publish(n, rows[sent])]
    ensures SentOnce(n', start, rows, sent + 1)
  {
    hide Publish, Elements;
    var p := Publish(n, rows[sent]);
    assert n'.bus[start..] == n.bus[start..] + [p];
    OfRowsConcat(n.bus[start..], [p], Elements(rows));
    assert OfRows([p], Elements(rows)) == [p] by {
      PublishedRow(n, rows[sent]);
      InElements(rows, sent);
      assert [p][..0] == [];
    }
    PublicationsNext(n, rows, sent);
    forall i <- rows[..sent + 1] ensures i in n'.rows {
      assert i in rows;
    }
    PublicationsOfSameRows(n, n', rows[..sent + 1]);
  }

  lemma InElements(rows: seq<nat>, k: nat)
    requires k < |rows|
    ensures rows[k] in Elements(rows)
  {
  }

  lemma SentElsewhere(n: Net, n': Net, id: nat, start: nat, rows: seq<nat>, sent: nat)
    requires SentOnce(n, start, rows, sent) && Elsewhere(n, n', id) && At(n, id, Publishing(rows, sent))
    ensures SentOnce(n', start, rows, sent)
  {
    hide OfRows, Elements, Publications;
    var more := n'.bus[|n.bus|..];
    assert n'.bus[start..] == n.bus[start..] + more;
    OfRowsConcat(n.bus[start..], more, Elements(rows));
    assert OfRows(n.bus[start..], Elements(rows)) + [] == OfRows(n.bus[start..], Elements(rows));
    forall i <- rows[..sent] ensures i in n.rows && i in n'.rows && n'.rows[i] == n.rows[i] {
      assert i in rows;
    }
    PublicationsOfSameRows(n, n', rows[..sent]);
  }

  lemma BatchRows(n: Net, id: nat, rows: seq<nat>)
    requires Inv(n) && (if rows == [] then At(n, id, Working(0)) else At(n, id, Publishing(rows, 0)))
    ensures forall i <- rows :: i in n.rows
  {
    hide OnBus, CopiesBounded, AllNoticed, PublicationOk, LocksDisjoint, Sorted;
    assert PhaseOk(n, n.relays[id].phase);
    forall i <- rows ensures i in n.rows {
      assert i in Elements(rows);
    }
  }

  /** What an undisturbed cycle has done so far. */
  predicate CalmSoFar(n0: Net, n: Net, id: nat, rows: seq<nat>, sent: nat) {
    && OthersIdle(n, id) && (forall i <- rows :: i in n0.rows) && sent <= |rows|
    && n == n0.(relays := n.relays, bus := n0.bus + Publications(n0, rows[..sent]))
  }

  lemma CalmStart(n0: Net, n: Net, id: nat, rows: seq<nat>)
    requires SameTables(n0, n) && OthersIdle(n, id) && forall i <- rows :: i in n0.rows
    ensures CalmSoFar(n0, n, id, rows, 0)
  {
    assert rows[..0] == [] && n0.bus + [] == n0.bus;
  }

  lemma CalmNext(n0: Net, n: Net, n': Net, id: nat, rows: seq<nat>, sent: nat)
    requires CalmSoFar(n0, n, id, rows, sent) && sent < |rows| && OthersIdle(n', id)
    requires rows[sent] in n.rows && n' == n.(relays := n'.relays, bus := n.bus + [Publish(n, rows[sent])])
    ensures CalmSoFar(n0, n', id, rows, sent + 1)
  {
    hide OthersIdle;
    PublicationsNext(n0, rows, sent);
    assert n0.bus + (Publications(n0, rows[..sent]) + [Publish(n0, rows[sent])]) == n0.bus + Publications(n0, rows[..sent]) + [Publish(n, rows[sent])];
  }

  lemma CalmEnd(n0: Net, n: Net, n': Net, id: nat, rows: seq<nat>)
    requires CalmSoFar(n0, n, id, rows, |rows|) && n' == n.(relays := n'.relays, published := n.published + Elements(rows))
    ensures Drained(n0, n', rows)
  {
    hide OthersIdle, Elements, Publications;
    assert rows[..|rows|] == rows;
    PendingFrame(n0, n', Elements(rows));
  }

  lemma CalmNothing(n0: Net, n: Net, id: nat)
    requires SameTables(n0, n)
    ensures Drained(n0, n, [])
  {
    NoElements([]);
    assert n0.bus + Publications(n0, []) == n0.bus;
    PendingFrame(n0, n, {});
  }

  class OutboxRelay {
    const id: nat
    /** The tables and the bus, which the steps of all relays and requests change. */
    var net: Net
    /** Where the run started, and the steps taken since. */
    ghost const origin: Net
    ghost var trace: seq<Action>

    ghost predicate Valid()
      reads this
    {
      Inv(net) && Reaches(origin, trace, net)
    }

    constructor (id: nat, net: Net)
      requires Inv(net)
      ensures Valid() && this.id == id && this.net == net && trace == []
    {
      this.id := id;
      this.net := net;
      origin := net;
      trace := [];
    }

    /** One step of the system; everything this class does is one of RelayNet's steps. */
    method Do(a: Action)
      requires Valid() && Enabled(net, a)
      modifies this
      ensures Valid() && net == Apply(old(net), a) && trace == old(trace) + [a]
    {
      hide Inv, Reaches, Enabled, Apply;
      StepOk(net, a);
      Extend(origin, trace, net, a);
      net := Apply(net, a);
      trace := trace + [a];
    }

    /** Any steps of other relays and of requests that commit, unless it is calm. */
    method Await(calm: bool)
      requires Valid() && id in net.relays
      modifies this
      ensures Valid() && Elsewhere(old(net), net, id)
      ensures calm ==> net == old(net)
    {
      hide Inv, Reaches, Enabled, Apply, Elsewhere;
      StaysElsewhere(net, id);
      if calm {
        return;
      }
      var n: nat := *;
      while n > 0
        invariant Valid() && id in net.relays && Elsewhere(old(net), net, id)
      {
        var a: Action := *;
        if Foreign(a, id) && Enabled(net, a) {
          ForeignStep(net, a, id);
          ElsewhereIsTransitive(old(net), net, Apply(net, a), id);
          IsThere(net, Apply(net, a), id);
          Do(a);
        }
        n := n - 1;
      }
    }

    /** `notify`, once this replica's commits of `ids` are done: the flag is up. */
    method NotifyCommit(ids: set<nat>)
      requires Valid() && id in net.relays
      modifies this
      ensures Valid() && net == Apply(old(net), Notify(id, ids))
      ensures net.relays == old(net).relays[id := old(net).relays[id].(wake := true)]
    {
      Do(Notify(id, ids));
    }

    /** The SELECT ... FOR UPDATE SKIP LOCKED. Whatever others do meanwhile, it locks a batch in order of
        id, and whatever else was pending is held by another relay, published, or behind a full batch.
        Undisturbed, and with nobody else holding rows, that is the front of the backlog. */
    method SelectBatch(calm: bool) returns (rows: seq<nat>)
      requires Valid() && At(net, id, Cleared) && net.relays[id].skipped == {}
      requires calm ==> OthersIdle(net, id)
      modifies this
      ensures Valid() && At(net, id, if rows == [] then Working(0) else Publishing(rows, 0))
      ensures Selected(old(net), net, id, rows)
      ensures calm ==> SameTables(old(net), net) && OthersIdle(net, id) && rows == FirstBatch(old(net))
    {
      hide Inv, Reaches, Enabled, Apply, OthersIdle, Ordered, FirstBatch, Chosen, Selected, Pending, LockedByOther, Elsewhere;
      StepSnapshot(net, id);
      var todo := Ordered(Pending(net));
      rows := [];
      ChosenAtFirst(net, Apply(net, Snapshot(id, todo)), id);
      Do(Snapshot(id, todo));
      while todo != [] && |rows| < net.batch
        invariant Valid() && At(net, id, Scanning(todo, rows)) && Chosen(old(net), net, id, todo, rows)
        invariant calm ==> SameTables(old(net), net) && OthersIdle(net, id) && NothingSkipped(net, id)
      {
        ghost var before := net;
        Await(calm);
        StillAt(before, net, id, Scanning(todo, rows));
        ChosenElsewhere(old(net), before, net, id, todo, rows);
        StepScan(net, id, todo, rows);
        ChosenNext(old(net), net, Apply(net, ScanOne(id)), id, todo, rows);
        var taken := !LockedByOther(net, id, todo[0]) && todo[0] in Pending(net);
        Do(ScanOne(id));
        todo, rows := todo[1..], if taken then rows + [todo[0]] else rows;
      }
      ChosenBound(old(net), net, id, todo, rows);
      StepEndScan(net, id, todo, rows);
      ChosenEnds(old(net), net, Apply(net, EndScan(id)), id, todo, rows);
      Do(EndScan(id));
      if calm {
        SelectedIsFirst(old(net), net, id, rows);
      }
    }

    /** `publish_batch`. Whatever others do meanwhile, once the batch is locked (`start` is the length of the
        bus then) each of its rows is put on the bus once and in order, by this relay and by nobody else,
        and then marked. It may fail after the lock, between two publications, and at the commit.
        Undisturbed, it publishes and marks the front of the backlog and changes nothing else. */
    method PublishBatch(calm: bool) returns (count: nat, ok: bool, ghost rows: seq<nat>, ghost start: nat)
      requires Valid() && At(net, id, Cleared) && net.relays[id].skipped == {}
      requires calm ==> OthersIdle(net, id)
      modifies this
      ensures Valid() && At(net, id, if ok then Working(count) else Backoff)
      ensures Selected(old(net), net, id, rows)
      ensures ok ==> count == |rows| && Elements(rows) <= net.published && SentOnce(net, start, rows, |rows|)
      ensures calm ==> ok && OthersIdle(net, id) && rows == FirstBatch(old(net))
                       && (forall i <- rows :: i in old(net).rows) && Drained(old(net), net, rows)
    {
      hide Inv, Reaches, Enabled, Apply, OthersIdle, Ordered, FirstBatch, Selected, Pending, Elsewhere, SentOnce, CalmSoFar, Publish, Drained, Elements;
      PendingAreRows(net);
      var batch := SelectBatch(calm);
      rows, start := batch, |net.bus|;
      BatchRows(net, id, rows);
      NothingSent(net, rows);
      if batch == [] {
        NoElements(rows);
        if calm {
          CalmNothing(old(net), net, id);
        }
        return 0, true, rows, start;
      }
      if calm {
        CalmStart(old(net), net, id, rows);
      }
      var sent := 0;
      while true
        invariant sent <= |rows| && Valid() && At(net, id, Publishing(batch, sent))
        invariant Selected(old(net), net, id, rows) && SentOnce(net, start, rows, sent)
        invariant calm ==> CalmSoFar(old(net), net, id, rows, sent)
        decreases |rows| - sent
      {
        ghost var before := net;
        Await(calm);
        StillAt(before, net, id, Publishing(batch, sent));
        SelectedElsewhere(old(net), before, net, id, rows);
        SentElsewhere(before, net, id, start, rows, sent);
        var fails: bool := *;
        if fails && !calm {
          StepFail(net, id, Publishing(batch, sent));
          SelectedElsewhere(old(net), net, Apply(net, RelayNet.Fail(id)), id, rows);
          Do(RelayNet.Fail(id));
          return 0, false, rows, start;
        }
        if sent == |batch| {
          break;
        }
        KnownRow(net, start, rows, sent);
        StepPublish(net, id, batch, sent);
        SelectedElsewhere(old(net), net, Apply(net, PublishOne(id)), id, rows);
        SentOneMore(net, Apply(net, PublishOne(id)), start, rows, sent);
        if calm {
          CalmOnward(old(net), net, id, rows, sent);
        }
        Do(PublishOne(id));
        sent := sent + 1;
      }
      var acknowledged: bool := *;
      acknowledged := acknowledged || calm;
      StepCommit(net, id, batch, acknowledged);
      SelectedElsewhere(old(net), net, Apply(net, CommitBatch(id, acknowledged)), id, rows);
      SentStill(net, Apply(net, CommitBatch(id, acknowledged)), start, rows);
      if calm {
        CalmEnd(old(net), net, Apply(net, CommitBatch(id, acknowledged)), id, rows);
        CalmIdle(old(net), net, id, rows);
      }
      Do(CommitBatch(id, acknowledged));
      return |batch|, acknowledged, rows, start;
    }

    /** `_run` from the top of its loop to the next time it waits, with nothing failing and nothing
        committed meanwhile. It takes one cycle more than there are full batches, publishes the whole
        backlog once and in order of id, and leaves none. */
    method RunToWait() returns (cycles: nat)
      requires Valid() && At(net, id, Starting) && OthersIdle(net, id)
      modifies this
      ensures Valid() && At(net, id, Waiting) && OthersIdle(net, id)
      ensures 0 < old(net).batch && cycles == |Pending(old(net))| / old(net).batch + 1
      ensures (forall i <- Ordered(Pending(old(net))) :: i in old(net).rows)
              && Drained(old(net), net, Ordered(Pending(old(net))))
      ensures Pending(net) == {}
    {
      hide Inv, Reaches, Enabled, Apply, OthersIdle, Ordered, FirstBatch, Pending, Publications, Elements, Drained, Progress, Selected, SentOnce;
      PendingAreRows(net);
      ProgressStarts(net);
      ghost var done: seq<nat> := [];
      cycles := 0;
      var more := true;
      while more
        invariant Valid() && At(net, id, if more then Starting else Waiting) && OthersIdle(net, id) && net.batch == old(net).batch
        invariant Progress(old(net), net, done)
        invariant more ==> |done| == cycles * net.batch
        invariant !more ==> Pending(net) == {} && cycles == |Pending(old(net))| / net.batch + 1
        decreases more, |Pending(net)|
      {
        ghost var before := net;
        StepClear(net, id);
        Do(Clear(id));
        ghost var cleared := net;
        var count, ok, _, _ := PublishBatch(true);
        ghost var published := net;
        cycles := cycles + 1;
        if * {  // the retention sweep is due
          assert {} <= net.published;
          var expired: set<nat> :| expired <= net.published;
          StepSweep(net, id, count, expired);
          Do(Sweep(id, expired));
        }
        StepSettle(net, id, count);
        PendingFrame(net, Apply(net, Settle(id)), {});
        Do(Settle(id));
        DrainedThrough(before, cleared, published, net);
        ProgressNext(old(net), before, net, done, cycles - 1);
        done := done + FirstBatch(before);
        more := count >= net.batch;
      }
      ProgressEnds(old(net), net, done);
    }
  }

  lemma KnownRow(n: Net, start: nat, rows: seq<nat>, sent: nat)
    requires SentOnce(n, start, rows, sent) && sent < |rows|
    ensures rows[sent] in n.rows
  {
    assert rows[sent] in rows;
  }

  lemma SentStill(n: Net, n': Net, start: nat, rows: seq<nat>)
    requires SentOnce(n, start, rows, |rows|) && n'.rows == n.rows && n'.bus == n.bus
    ensures SentOnce(n', start, rows, |rows|)
  {
    hide OfRows, Publications;
    assert rows[..|rows|] == rows;
    PublicationsOfSameRows(n, n', rows);
  }

  lemma CalmOnward(n0: Net, n: Net, id: nat, rows: seq<nat>, sent: nat)
    requires CalmSoFar(n0, n, id, rows, sent) && sent < |rows| && rows[sent] in n.rows && Moves(n, PublishOne(id), id, Publishing(rows, sent + 1))
    requires Apply(n, PublishOne(id)) == n.(relays := Apply(n, PublishOne(id)).relays, bus := n.bus + [Publish(n, rows[sent])])
    ensures CalmSoFar(n0, Apply(n, PublishOne(id)), id, rows, sent + 1)
  {
    hide Enabled, Apply, OthersIdle, Publish, Publications;
    assert OthersIdle(n, id);
    CalmNext(n0, n, Apply(n, PublishOne(id)), id, rows, sent);
  }

  lemma CalmIdle(n0: Net, n: Net, id: nat, rows: seq<nat>)
    requires CalmSoFar(n0, n, id, rows, |rows|)
    ensures OthersIdle(n, id)
  {
  }

  lemma IsThere(n: Net, n': Net, id: nat)
    requires Elsewhere(n, n', id)
    ensures id in n'.relays
  {
  }

  predicate NothingSkipped(n: Net, id: nat) {
    id in n.relays && n.relays[id].skipped == {}
  }

  lemma StillAt(n: Net, n': Net, id: nat, phase: Phase)
    requires At(n, id, phase) && Elsewhere(n, n', id)
    ensures At(n', id, phase) && n'.batch == n.batch && n.published <= n'.published
    ensures id in n.relays && id in n'.relays && n'.relays[id].skipped == n.relays[id].skipped
  {
  }

  lemma ChosenBound(n0: Net, n: Net, id: nat, todo: seq<nat>, got: seq<nat>)
    requires Chosen(n0, n, id, todo, got)
    ensures |got| <= n.batch == n0.batch
  {
  }
}
