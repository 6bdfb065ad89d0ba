/** The hub object of app/realtime/hub.py: its methods are the steps of HubMachine, and its fan-out
    reaches exactly the devices of one user. */
module Hubs {
  import opened Basics
  import opened Channels
  import opened Connections
  import opened HubMachine

  const SERVER_RESTARTING := 1012

  function Devices<C>(local: map<string, set<C>>): set<C> {
    set u, c | u in local && c in local[u] :: c
  }

  function At<C>(local: map<string, set<C>>, user: string): set<C> {
    if user in local then local[user] else {}
  }

  ghost predicate Placed<E>(local: map<string, set<Connection<E>>>) {
    forall u, c | u in local && c in local[u] :: c.user == u
  }

  class Hub<E(==)> {
    const control: string
    var local: map<string, set<Connection<E>>>
    var requests: seq<Request>
    /** The pub/sub connection, as Redis sees it. */
    var link: Link
    var connected: bool

    ghost function State(): HubMachine.HubState<Connection<E>>
      reads this
    {
      HubMachine.HubState(control, local, requests, link)
    }

    /** Every device is registered under its own user, and the machine's invariant holds. */
    ghost predicate Valid()
      reads this
    {
      Inv(State()) && Placed(local) && (connected <==> link.Up? || link.Applying?)
    }

    constructor (replica: string)
      ensures Valid() && State() == Init(ControlChannel(replica))
    {
      control := ControlChannel(replica);
      local, requests, link, connected := map[], [], Down, false;
      new;
      ControlIsNoUser(replica);
    }

    /** `register`, up to its wait for the request. */
    method Register(conn: Connection<E>)
      requires Valid()
      modifies this`local, this`requests
      ensures Valid() && State() == Apply(old(State()), Action.Register(conn.user, conn))
      ensures forall u, c :: c in At(local, u) <==> c in At(old(local), u) || (u == conn.user && c == conn)
      ensures requests == old(requests) + if At(old(local), conn.user) == {} then [Subscribe(UserChannel(conn.user))] else []
    {
      hide Inv;
      StepOk(State(), Action.Register(conn.user, conn));
      var conns := At(local, conn.user);
      local := local[conn.user := conns + {conn}];
      if conns == {} {
        requests := requests + [Subscribe(UserChannel(conn.user))];
      }
    }

    /** `unregister`, up to its wait for the request. */
    method Unregister(conn: Connection<E>)
      requires Valid()
      modifies this`local, this`requests
      ensures Valid() && State() == Apply(old(State()), Action.Unregister(conn.user, conn))
      ensures forall u, c :: c in At(local, u) <==> c in At(old(local), u) && !(u == conn.user && c == conn)
      ensures requests == old(requests) + if At(old(local), conn.user) == {conn} then [Unsubscribe(UserChannel(conn.user))] else []
    {
      hide Inv;
      StepOk(State(), Action.Unregister(conn.user, conn));
      var conns := At(local, conn.user);
      if conn !in conns {
        return;
      }
      conns := conns - {conn};
      assert conns + {conn} == At(local, conn.user);
      assert conns == {} <==> At(local, conn.user) == {conn};
      local := local[conn.user := conns];
      if conns == {} {
        assert local - {conn.user} == old(local) - {conn.user};
        local := local - {conn.user};
        requests := requests + [Unsubscribe(UserChannel(conn.user))];
      }
    }

    /** Other tasks at an `await`: some of `others` register or unregister, at most `budget` times. */
    method Await(others: set<Connection<E>>, budget: nat) returns (left: nat, ghost steps: seq<Action<Connection<E>>>)
      requires Valid()
      modifies this`local, this`requests
      ensures Valid() && Reaches(old(State()), steps, State()) && left <= budget
      ensures left == budget ==> State() == old(State())
    {
      hide Inv, Reaches, Apply;
      left, steps := budget, [];
      Standing(State());
      while left > 0 && others != {}
        invariant Valid() && link == old(link) && connected == old(connected) && left <= budget
        invariant Reaches(old(State()), steps, State())
        invariant left == budget ==> State() == old(State())
      {
        var done: bool := *;
        if done {
          break;
        }
        var conn :| conn in others;
        var arrives: bool := *;
        if arrives {
          Extend(old(State()), steps, State(), Action.Register(conn.user, conn));
          steps := steps + [Action.Register(conn.user, conn)];
          Register(conn);
        } else {
          Extend(old(State()), steps, State(), Action.Unregister(conn.user, conn));
          steps := steps + [Action.Unregister(conn.user, conn)];
          Unregister(conn);
        }
        left := left - 1;
      }
    }

    /** The top of the loop in `_run`: subscribe to the control channel and to a snapshot of the local
        users' channels. Others may come and go while the SUBSCRIBE is on its way, and it may fail. */
    method Connect(others: set<Connection<E>>, budget: nat) returns (ok: bool, left: nat, ghost steps: seq<Action<Connection<E>>>)
      requires Valid() && link.Down?
      modifies this
      ensures Valid() && Reaches(old(State()), steps, State()) && left <= budget
      ensures link == if ok then Up(Wanted(old(local)) + {control}) else Connecting(Wanted(old(local)))
      ensures left == budget ==> local == old(local) && requests == old(requests)
    {
      hide Inv, Reaches, Wanted;
      Standing(State());
      StepOk(State(), Action.Connect);
      Extend(State(), [], State(), Action.Connect);
      link := Connecting(Wanted(local));
      ghost var before, first := old(State()), [] + [Action.Connect];
      left, steps := Await(others, budget);
      Joined(before, first, steps, State());
      steps := first + steps;
      var fails: bool := *;
      ok := !fails;
      if ok {
        StepOk(State(), Connected);
        Extend(before, steps, State(), Connected);
        steps := steps + [Connected];
        link := Up(link.snapshot + {control});
        connected := true;
      }
    }

    /** `_apply_requests`, with others coming and going at every `await`. Once it returns normally the queue
        is empty and the replica is subscribed to exactly what its local users need by then. Undisturbed, it
        has just replayed the queue. A failing request leaves the loop with that request in flight. */
    method ApplyRequests(others: set<Connection<E>>, budget: nat) returns (ok: bool, left: nat, ghost steps: seq<Action<Connection<E>>>)
      requires Valid() && link.Up?
      modifies this
      ensures Valid() && Reaches(old(State()), steps, State()) && left <= budget
      ensures ok ==> requests == [] && link == Up(Wanted(local) + {control})
      ensures !ok ==> link.Applying?
      ensures left == budget ==> local == old(local)
      ensures ok && left == budget ==> link == Up(Replayed(old(link).channels, old(requests)))
    {
      hide Inv, Reaches, Wanted;
      left, steps := budget, [];
      ghost var before := State();
      Standing(before);
      while requests != []
        invariant Valid() && link.Up? && left <= budget && Reaches(before, steps, State())
        invariant left == budget ==> local == old(local)
        invariant left == budget ==> Replayed(link.channels, requests) == Replayed(old(link).channels, old(requests))
        decreases left, |requests|
      {
        ReplayedConcat(link.channels, [requests[0]], requests[1..]);
        assert [requests[0]] + requests[1..] == requests;
        StepOk(State(), Take);
        Extend(before, steps, State(), Take);
        steps := steps + [Take];
        var channels, request := link.channels, requests[0];
        ReplayedOne(channels, request);
        requests := requests[1..];
        link := Applying(request, channels);
        ghost var more: seq<Action<Connection<E>>>;
        left, more := Await(others, left);
        Joined(before, steps, more, State());
        steps := steps + more;
        var fails: bool := *;
        if fails {
          return false, left, steps;
        }
        StepOk(State(), Applied);
        Extend(before, steps, State(), Applied);
        steps := steps + [Applied];
        link := Up(match request
                   case Subscribe(channel) => channels + {channel}
                   case Unsubscribe(channel) => channels - {channel});
      }
      Settled(State());
      ok := true;
    }

    /** `_release_waiters`. */
    method ReleaseWaiters()
      modifies this`requests
      ensures requests == []
    {
      while requests != [] {
        requests := requests[1..];
      }
    }

    /** The `except` branch of `_run`: every pending request is dropped. */
    method Lose()
      requires Valid() && !link.Down?
      modifies this
      ensures Valid() && State() == Apply(old(State()), Lost)
      ensures requests == [] && link == Down && !connected && local == old(local)
    {
      StepOk(State(), Lost);
      connected := false;
      ReleaseWaiters();
      link := Down;
    }

    /** `_dispatch`: the event is offered to every device of the channel's user and to no other, and a
        channel that is no user's reaches nobody. */
    method Dispatch(channel: string, event: E)
      requires Valid() && forall c | c in Devices(local) :: c.Valid()
      modifies Devices(local)
      ensures Valid() && forall c | c in Devices(local) :: c.Valid()
      ensures forall c | c in Devices(local) ::
                c.Past() == if channel == UserChannel(c.user) then Step(old(c.Past()), Send(event)) else old(c.Past())
    {
      hide Inv, Intact, Step;
      var user := UserOf(channel);
      forall c | c in Devices(local) ensures user == Some(c.user) <==> channel == UserChannel(c.user) {
        UserOfChannel(channel, c.user);
      }
      if user == None {
        return;
      }
      var conns := At(local, user.value);
      assert forall c | c in Devices(local) :: c in conns <==> c.user == user.value;
      var rest := conns;
      while rest != {}
        invariant rest <= conns <= Devices(local)
        invariant forall c | c in Devices(local) :: c.Valid()
        invariant forall c | c in Devices(local) ::
                    c.Past() == if c in conns - rest then Step(old(c.Past()), Send(event)) else old(c.Past())
      {
        var conn :| conn in rest;
        conn.SendNowait(event);
        rest := rest - {conn};
      }
    }

    /** The end of `stop`: every device is asked to close. */
    method Stop()
      requires Valid() && forall c | c in Devices(local) :: c.Valid()
      modifies Devices(local)
      ensures Valid() && forall c | c in Devices(local) :: c.Valid() && c.closing
      ensures forall c | c in Devices(local) :: c.Past() == Step(old(c.Past()), Op.Close(1012))
    {
      hide Inv, Intact;
      var rest := Devices(local);
      while rest != {}
        invariant rest <= Devices(local)
        invariant forall c | c in Devices(local) :: c.Valid()
        invariant forall c | c in Devices(local) ::
                    c.Past() == if c in rest then old(c.Past()) else Step(old(c.Past()), Op.Close(SERVER_RESTARTING))
      {
        var conn :| conn in rest;
        conn.Close(SERVER_RESTARTING);
        rest := rest - {conn};
      }
    }
  }

  lemma Settled<C>(h: HubMachine.HubState<C>)
    requires Inv(h) && h.link.Up? && h.requests == []
    ensures h.link.channels == Wanted(h.local) + {h.control}
  {
  }

  lemma Standing<C>(h: HubMachine.HubState<C>)
    ensures Reaches(h, [], h)
  {
  }

  lemma ReplayedOne(channels: set<string>, r: Request)
    ensures Replayed(channels, [r]) == Effect(channels, r)
  {
    assert [r][..0] == [];
  }

  lemma {:induction false} Joined<C>(h: HubMachine.HubState<C>, first: seq<Action<C>>, second: seq<Action<C>>, h': HubMachine.HubState<C>)
    requires exists mid :: Reaches(h, first, mid) && Reaches(mid, second, h')
    ensures Reaches(h, first + second, h')
    decreases |first|
  {
    hide Enabled, Apply;
    if first == [] {
      assert [] + second == second;
    } else {
      assert (first + second)[1..] == first[1..] + second;
      Joined(Apply(h, first[0]), first[1..], second, h');
    }
  }
}
