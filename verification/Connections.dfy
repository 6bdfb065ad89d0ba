/** One WebSocket's queue of events (`Connection` in app/realtime/hub.py) and the task that empties
    it (`SocketSession._writer` in app/api/ws.py). */
module Connections {
  import opened Basics

  const MAX_PENDING_EVENTS := 1000
  const SLOW_CONSUMER := 1013

  datatype Item<+E> = Event(event: E) | CloseRequest(code: nat)

  /** The mutable state of a connection. */
  datatype Line<+E> = Line(closing: bool, queue: seq<Item<E>>)

  /** A connection with everything that was ever offered to it and taken from it. */
  datatype History<+E> = History(line: Line<E>, offered: seq<E>, taken: seq<Item<E>>)

  datatype Op<+E> = Send(event: E) | Close(code: nat) | Next

  function New<E>(): History<E> {
    History(Line(false, []), [], [])
  }

  function Closed<E>(s: Line<E>, code: nat): Line<E> {
    if s.closing then s else Line(true, s.queue + [CloseRequest(code)])
  }

  function Sent<E>(s: Line<E>, event: E): Line<E> {
    if s.closing then s
    else if |s.queue| >= MAX_PENDING_EVENTS then Closed(s, SLOW_CONSUMER)
    else s.(queue := s.queue + [Event(event)])
  }

  /** Taking from an empty queue waits, which changes nothing. */
  function Step<E>(h: History<E>, op: Op<E>): History<E> {
    match op
    case Send(e) => History(Sent(h.line, e), h.offered + [e], h.taken)
    case Close(code) => h.(line := Closed(h.line, code))
    case Next =>
      if h.line.queue == [] then h
      else h.(line := h.line.(queue := h.line.queue[1..]), taken := h.taken + [h.line.queue[0]])
  }

  function Run<E>(ops: seq<Op<E>>): History<E> {
    if ops == [] then New() else Step(Run(ops[..|ops| - 1]), ops[|ops| - 1])
  }

  function Items<E>(events: seq<E>): (items: seq<Item<E>>)
    ensures |items| == |events|
    ensures forall i | 0 <= i < |items| :: items[i] == Event(events[i])
  {
    seq(|events|, i requires 0 <= i < |events| => Event(events[i]))
  }

  /** What has been taken and what still waits is a prefix of what was offered, all of it while the
      connection is open, and once it is closing one close request at the end. */
  predicate Intact<E(==)>(h: History<E>) {
    var all := h.taken + h.line.queue;
    if h.line.closing then
      && all != [] && all[|all| - 1].CloseRequest? && all[..|all| - 1] <= Items(h.offered)
      && |h.line.queue| <= MAX_PENDING_EVENTS + 1
    else
      all == Items(h.offered) && |h.line.queue| <= MAX_PENDING_EVENTS
  }

  lemma ItemsAppend<E>(events: seq<E>, e: E)
    ensures Items(events + [e]) == Items(events) + [Event(e)]
  {
  }

  lemma CloseIntact<E>(h: History<E>, code: nat, offered: seq<E>)
    requires Intact(h) && (h.line.closing || Items(h.offered) <= Items(offered))
    requires h.line.closing ==> h.offered == offered
    ensures Intact(History(Closed(h.line, code), offered, h.taken))
  {
    hide Items;
    if !h.line.closing {
      var all, end := h.taken + h.line.queue, [CloseRequest(code)];
      var all' := h.taken + (h.line.queue + end);
      assert all' == all + end;
      assert all'[..|all|] == all;
    }
  }

  lemma SendIntact<E>(h: History<E>, e: E)
    requires Intact(h)
    ensures Intact(Step(h, Send(e)))
  {
    hide Items;
    var all := h.taken + h.line.queue;
    ItemsAppend(h.offered, e);
    if h.line.closing {
    } else if |h.line.queue| >= MAX_PENDING_EVENTS {
      CloseIntact(h, SLOW_CONSUMER, h.offered + [e]);
    } else {
      assert h.taken + (h.line.queue + [Event(e)]) == all + [Event(e)];
    }
  }

  lemma StepIntact<E>(h: History<E>, op: Op<E>)
    requires Intact(h)
    ensures Intact(Step(h, op))
  {
    match op {
      case Send(e) => SendIntact(h, e);
      case Close(code) => CloseIntact(h, code, h.offered);
      case Next =>
        assert Step(h, op).taken + Step(h, op).line.queue == h.taken + h.line.queue;
    }
  }

  lemma {:induction false} RunIntact<E>(ops: seq<Op<E>>)
    ensures Intact(Run(ops))
  {
    if ops != [] {
      RunIntact(ops[..|ops| - 1]);
      StepIntact(Run(ops[..|ops| - 1]), ops[|ops| - 1]);
    }
  }

  /** The events that the writer puts on the wire: those before the first close request. */
  function Wire<E>(items: seq<Item<E>>): seq<E> {
    if items == [] || items[0].CloseRequest? then [] else [items[0].event] + Wire(items[1..])
  }

  lemma {:induction false} WireOfItems<E>(events: seq<E>, rest: seq<Item<E>>)
    requires rest == [] || rest[0].CloseRequest?
    ensures Wire(Items(events) + rest) == events
  {
    if events == [] {
      assert Items(events) + rest == rest;
    } else {
      WireOfItems(events[1..], rest);
      assert (Items(events) + rest)[1..] == Items(events[1..]) + rest;
    }
  }

  lemma {:induction false} WirePrefix<E>(items: seq<Item<E>>, k: nat)
    requires k <= |items|
    ensures Wire(items[..k]) <= Wire(items)
  {
    if k > 0 {
      WirePrefix(items[1..], k - 1);
      assert items[..k][1..] == items[1..][..k - 1];
    }
  }

  lemma IntactWire<E>(h: History<E>)
    requires Intact(h)
    ensures Wire(h.taken) <= h.offered
    ensures !h.line.closing && h.line.queue == [] ==> Wire(h.taken) == h.offered
    ensures forall i | 0 <= i < |h.taken| - 1 :: h.taken[i].Event?
    ensures h.line.queue != [] ==> forall i | 0 <= i < |h.taken| :: h.taken[i].Event?
  {
    var all := h.taken + h.line.queue;
    var k := if h.line.closing then |all| - 1 else |all|;
    assert all[..k] == Items(h.offered)[..k] == Items(h.offered[..k]);
    assert all == Items(h.offered[..k]) + all[k..];
    WireOfItems(h.offered[..k], all[k..]);
    assert all[..|h.taken|] == h.taken;
    WirePrefix(all, |h.taken|);
    if h.taken == all && !h.line.closing {
      assert h.offered[..k] == h.offered;
      assert h.taken == Items(h.offered[..k]) + all[k..];
    }
    forall i | 0 <= i < |h.taken| && i < k ensures h.taken[i].Event? {
      assert h.taken[i] == all[..k][i];
    }
  }

  /** Whatever is offered, closed and taken in whatever order, the wire carries a gap-free prefix of
      what was offered, a close request is the last thing taken, and the queue stays bounded. */
  lemma GapFreePrefix<E>(ops: seq<Op<E>>)
    ensures var h := Run(ops);
            && Wire(h.taken) <= h.offered
            && (!h.line.closing && h.line.queue == [] ==> Wire(h.taken) == h.offered)
            && (forall i | 0 <= i < |h.taken| - 1 :: h.taken[i].Event?)
            && |h.line.queue| <= MAX_PENDING_EVENTS + 1
  {
    RunIntact(ops);
    IntactWire(Run(ops));
  }

  /** Nothing closes the connection, and every event finds room. */
  predicate Roomy<E(==)>(ops: seq<Op<E>>) {
    forall k | 0 <= k < |ops| :: !ops[k].Close? && (ops[k].Send? ==> |Run(ops[..k]).line.queue| < 1000)
  }

  /** A connection that nobody closes is closed exactly when an event finds the queue full. */
  lemma {:induction false} OpenWhileRoomy<E>(ops: seq<Op<E>>)
    ensures !Run(ops).line.closing <==> Roomy(ops)
  {
    if ops != [] {
      var last := |ops| - 1;
      OpenWhileRoomy(ops[..last]);
      forall k | 0 <= k < last ensures ops[..last][..k] == ops[..k] && ops[..last][k] == ops[k] {
      }
      if Roomy(ops[..last]) && !ops[last].Close? && (ops[last].Send? ==> |Run(ops[..last]).line.queue| < MAX_PENDING_EVENTS) {
        forall k | 0 <= k < |ops| ensures !ops[k].Close? && (ops[k].Send? ==> |Run(ops[..k]).line.queue| < MAX_PENDING_EVENTS) {
          if k < last {
            assert ops[..last][..k] == ops[..k] && ops[..last][k] == ops[k];
          }
        }
      }
    }
  }

  /** The first operation that closes the connection: a close, or an event that finds the queue full. */
  predicate Breaks<E(==)>(ops: seq<Op<E>>, k: nat) {
    && k < |ops| && Roomy(ops[..k])
    && (ops[k].Close? || (ops[k].Send? && |Run(ops[..k]).line.queue| >= 1000))
  }

  /** A connection that is closed asks for the code of the first reason: the caller's, or 1013 for a client
      that was too slow. */
  lemma {:induction false} CloseHasReason<E>(ops: seq<Op<E>>) returns (k: nat)
    requires Run(ops).line.closing
    ensures Breaks(ops, k)
    ensures var h := Run(ops); var all := h.taken + h.line.queue;
            all != [] && all[|all| - 1] == CloseRequest(if ops[k].Close? then ops[k].code else 1013)
    decreases |ops|
  {
    hide Intact, Items, Roomy;
    var last := |ops| - 1;
    var before := Run(ops[..last]);
    if before.line.closing {
      k := CloseHasReason(ops[..last]);
      assert ops[..last][..k] == ops[..k];
      StepsOn(before, ops[last]);
    } else {
      k := last;
      OpenWhileRoomy(ops[..last]);
    }
  }

  lemma StepsOn<E>(h: History<E>, op: Op<E>)
    requires h.line.closing
    ensures Step(h, op).taken + Step(h, op).line.queue == h.taken + h.line.queue
  {
    if h.line.queue != [] {
      assert h.line.queue == [h.line.queue[0]] + h.line.queue[1..];
    }
  }

  class Connection<E(==)> {
    const user: string
    var closing: bool
    var queue: seq<Item<E>>
    ghost var offered: seq<E>
    ghost var taken: seq<Item<E>>

    ghost function Past(): History<E>
      reads this
    {
      History(Line(closing, queue), offered, taken)
    }

    ghost predicate Valid()
      reads this
    {
      Intact(Past())
    }

    constructor (user: string)
      ensures Valid() && Past() == New() && this.user == user
    {
      this.user := user;
      closing, queue, offered, taken := false, [], [], [];
    }

    /** `close`. */
    method Close(code: nat)
      requires Valid()
      modifies this
      ensures Valid() && Past() == Step(old(Past()), Op.Close(code))
    {
      StepIntact(Past(), Op.Close(code));
      if !closing {
        closing := true;
        queue := queue + [CloseRequest(code)];
      }
    }

    /** `send_nowait`. */
    method SendNowait(event: E)
      requires Valid()
      modifies this
      ensures Valid() && Past() == Step(old(Past()), Send(event))
    {
      StepIntact(Past(), Send(event));
      offered := offered + [event];
      if closing {
        return;
      }
      if |queue| >= MAX_PENDING_EVENTS {
        closing := true;
        queue := queue + [CloseRequest(SLOW_CONSUMER)];
        return;
      }
      queue := queue + [Event(event)];
    }

    /** `next_event`, once there is something to take. */
    method NextEvent() returns (item: Item<E>)
      requires Valid() && queue != []
      modifies this
      ensures Valid() && Past() == Step(old(Past()), Next) && item == old(queue)[0]
    {
      StepIntact(Past(), Next);
      item := queue[0];
      taken := taken + [item];
      queue := queue[1..];
    }
  }

  class WebSocket<E(==)> {
    var sent: seq<E>
    var closed: Option<nat>

    constructor ()
      ensures sent == [] && closed == None
    {
      sent, closed := [], None;
    }
  }

  lemma {:induction false} WireAppend<E>(items: seq<Item<E>>, item: Item<E>)
    requires forall i | 0 <= i < |items| :: items[i].Event?
    ensures Wire(items + [item]) == if item.Event? then Wire(items) + [item.event] else Wire(items)
  {
    if items != [] {
      WireAppend(items[1..], item);
      assert (items + [item])[1..] == items[1..] + [item];
    }
  }

  /** After a close request has been taken, nothing waits. */
  lemma ClosesLast<E>(h: History<E>)
    requires Intact(h) && h.taken != [] && h.taken[|h.taken| - 1].CloseRequest?
    ensures h.line.closing && h.line.queue == []
    ensures Wire(h.taken) <= h.offered
  {
    IntactWire(h);
    var all := h.taken + h.line.queue;
    assert all[|h.taken| - 1].CloseRequest?;
  }

  /** A connection that is closing still has its close request to come unless it has been taken. */
  lemma OpenQueue<E>(h: History<E>)
    requires Intact(h) && h.line.queue == [] && forall i | 0 <= i < |h.taken| :: h.taken[i].Event?
    ensures !h.line.closing
  {
    assert h.taken + [] == h.taken;
  }

  /** `_writer`, until it returns or has to wait: it has put on the wire everything that was accepted,
      a prefix of what was offered, and it returns just when it has met the close request. */
  method Writer<E>(conn: Connection<E>, ws: WebSocket<E>) returns (returned: bool)
    requires conn.Valid() && ws.closed == None && ws.sent == Wire(conn.taken)
    requires forall i | 0 <= i < |conn.taken| :: conn.taken[i].Event?
    modifies conn, ws
    ensures conn.Valid() && conn.queue == []
    ensures conn.offered == old(conn.offered) && conn.closing == old(conn.closing)
    ensures conn.taken == old(conn.taken) + old(conn.queue)
    ensures ws.sent == Wire(conn.taken) && ws.sent <= conn.offered
    ensures !conn.closing ==> ws.sent == conn.offered
    ensures returned == conn.closing && ws.closed.Some? == conn.closing
    ensures conn.closing ==> conn.taken != [] && conn.taken[|conn.taken| - 1] == CloseRequest(ws.closed.value)
  {
    hide Intact, Wire;
    while conn.queue != []
      invariant conn.Valid() && ws.closed == None && ws.sent == Wire(conn.taken)
      invariant forall i | 0 <= i < |conn.taken| :: conn.taken[i].Event?
      invariant conn.offered == old(conn.offered) && conn.closing == old(conn.closing)
      invariant conn.taken + conn.queue == old(conn.taken) + old(conn.queue)
      decreases |conn.queue|
    {
      WireAppend(conn.taken, conn.queue[0]);
      assert conn.taken + [conn.queue[0]] + conn.queue[1..] == conn.taken + conn.queue;
      var item := conn.NextEvent();
      if item.CloseRequest? {
        ws.closed := Some(item.code);
        ClosesLast(conn.Past());
        return true;
      }
      ws.sent := ws.sent + [item.event];
    }
    IntactWire(conn.Past());
    OpenQueue(conn.Past());
    return false;
  }
}
