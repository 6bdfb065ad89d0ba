/** The registry and the pub/sub link of one replica's hub (app/realtime/hub.py) as a step machine.
    asyncio switches tasks only at an `await`, so a step is what runs between two of them. */
module HubMachine {
  import opened Channels

  datatype Request = Subscribe(channel: string) | Unsubscribe(channel: string)

  /** The Redis side of the loop in `_run`. */
  datatype Link =
    | Down                                            // not connected, or sleeping after a failure
    | Connecting(snapshot: set<string>)               // the first SUBSCRIBE is on its way
    | Up(channels: set<string>)                       // what Redis has this replica subscribed to
    | Applying(request: Request, channels: set<string>)  // awaiting one request taken from the queue

  /** `local` maps a user to the connections of that user's devices. */
  datatype HubState<!C(==)> = HubState(control: string, local: map<string, set<C>>, requests: seq<Request>, link: Link)

  datatype Action<C> =
    | Register(user: string, conn: C)
    | Unregister(user: string, conn: C)
    | Connect
    | Connected
    | Take
    | Applied
    | Lost

  function Init<C(==)>(control: string): HubState<C> {
    HubState(control, map[], [], Down)
  }

  /** The channels that the local users need. */
  function Wanted<C>(local: map<string, set<C>>): set<string> {
    set u | u in local :: UserChannel(u)
  }

  function Effect(channels: set<string>, r: Request): set<string> {
    match r
    case Subscribe(c) => channels + {c}
    case Unsubscribe(c) => channels - {c}
  }

  predicate Enabled<C(==)>(h: HubState<C>, a: Action<C>) {
    match a
    case Register(_, _) => true
    case Unregister(_, _) => true
    case Connect => h.link.Down?
    case Connected => h.link.Connecting?
    case Take => h.link.Up? && h.requests != []
    case Applied => h.link.Applying?
    case Lost => !h.link.Down?
  }

  function Apply<C(==)>(h: HubState<C>, a: Action<C>): HubState<C>
    requires Enabled(h, a)
  {
    match a
    case Register(user, conn) =>
      var conns := if user in h.local then h.local[user] else {};
      h.(local := h.local[user := conns + {conn}],
         requests := if conns == {} then h.requests + [Subscribe(UserChannel(user))] else h.requests)
    case Unregister(user, conn) =>
      if user !in h.local || conn !in h.local[user] then h
      else if h.local[user] == {conn} then
        h.(local := h.local - {user}, requests := h.requests + [Unsubscribe(UserChannel(user))])
      else h.(local := h.local[user := h.local[user] - {conn}])
    case Connect => h.(link := Connecting(Wanted(h.local)))
    case Connected => h.(link := Up(h.link.snapshot + {h.control}))
    case Take => h.(requests := h.requests[1..], link := Applying(h.requests[0], h.link.channels))
    case Applied => h.(link := Up(Effect(h.link.channels, h.link.request)))
    case Lost => h.(requests := [], link := Down)  // `_release_waiters` drops every pending request
  }

  ghost predicate Reaches<C>(h: HubState<C>, actions: seq<Action<C>>, h': HubState<C>)
    decreases |actions|
  {
    if actions == [] then h' == h
    else Enabled(h, actions[0]) && Reaches(Apply(h, actions[0]), actions[1..], h')
  }

  // ---- pending requests

  /** Requests that have not taken effect: the one in flight, then the queue. */
  function Pending<C(==)>(h: HubState<C>): seq<Request> {
    if h.link.Applying? then [h.link.request] + h.requests else h.requests
  }

  /** What the pending requests will be applied to. After a failure that is a new snapshot. */
  function Base<C(==)>(h: HubState<C>): set<string> {
    match h.link
    case Down => Wanted(h.local) + {h.control}
    case Connecting(snapshot) => snapshot + {h.control}
    case Up(channels) => channels
    case Applying(_, channels) => channels
  }

  /** All of `requests` applied in order. */
  function Replayed(channels: set<string>, requests: seq<Request>): set<string> {
    if requests == [] then channels
    else Effect(Replayed(channels, requests[..|requests| - 1]), requests[|requests| - 1])
  }

  /** The last pending request for a channel, as an index. */
  predicate LastFor(requests: seq<Request>, channel: string, k: int) {
    && 0 <= k < |requests| && requests[k].channel == channel
    && forall j | k < j < |requests| :: requests[j].channel != channel
  }

  predicate Untouched(requests: seq<Request>, channel: string) {
    forall k | 0 <= k < |requests| :: requests[k].channel != channel
  }

  /** What replaying does to one channel: its last request decides. */
  lemma {:induction false} ReplayedLast(channels: set<string>, requests: seq<Request>, channel: string, k: nat)
    requires LastFor(requests, channel, k)
    ensures channel in Replayed(channels, requests) <==> requests[k].Subscribe?
  {
    var last := |requests| - 1;
    if k < last {
      assert forall j | k < j < last :: requests[..last][j] == requests[j];
      ReplayedLast(channels, requests[..last], channel, k);
      assert requests[last].channel != channel;
    }
  }

  /** Without a request for it the channel stays as it was. */
  lemma {:induction false} ReplayedUntouched(channels: set<string>, requests: seq<Request>, channel: string)
    requires Untouched(requests, channel)
    ensures channel in Replayed(channels, requests) <==> channel in channels
  {
    if requests != [] {
      var last := |requests| - 1;
      assert forall k | 0 <= k < last :: requests[..last][k] == requests[k];
      ReplayedUntouched(channels, requests[..last], channel);
      assert requests[last].channel != channel;
    }
  }

  lemma {:induction false} ReplayedConcat(channels: set<string>, a: seq<Request>, b: seq<Request>)
    ensures Replayed(channels, a + b) == Replayed(Replayed(channels, a), b)
    decreases |b|
  {
    if b == [] {
      assert a + b == a;
    } else {
      var last := |b| - 1;
      assert (a + b)[..|a + b| - 1] == a + b[..last];
      ReplayedConcat(channels, a, b[..last]);
    }
  }

  lemma EffectAgain(channels: set<string>, q: Request, r: Request)
    ensures Effect(Effect(Effect(channels, r), q), r) == Effect(Effect(channels, q), r)
  {
  }

  /** Replaying is channel by channel, so a channel that is added first, or last, stays the only
      difference. */
  lemma {:induction false} ReplayedWith(channels: set<string>, requests: seq<Request>, r: Request)
    ensures Effect(Replayed(Effect(channels, r), requests), r) == Effect(Replayed(channels, requests), r)
  {
    if requests != [] {
      var q := requests[|requests| - 1];
      ReplayedWith(channels, requests[..|requests| - 1], r);
      EffectAgain(Replayed(channels, requests[..|requests| - 1]), q, r);
      EffectAgain(Replayed(Effect(channels, r), requests[..|requests| - 1]), q, r);
    }
  }

  // ---- the invariant

  /** Nobody is registered without connections, and replaying what is pending leads to exactly the
      channels that the local users need. */
  ghost predicate Inv<C>(h: HubState<C>) {
    && (forall u | u in h.local :: h.local[u] != {})
    && UserOf(h.control).None?
    && Replayed(Base(h), Pending(h)) == Wanted(h.local) + {h.control}
  }

  lemma WantedAdd<C>(local: map<string, set<C>>, user: string, conns: set<C>)
    ensures Wanted(local[user := conns]) == Wanted(local) + {UserChannel(user)}
  {
    assert forall u | u in local :: u in local[user := conns];
    assert user in local[user := conns];
  }

  lemma WantedRemove<C>(local: map<string, set<C>>, user: string)
    requires user in local
    ensures Wanted(local - {user}) == Wanted(local) - {UserChannel(user)}
  {
    forall c ensures c in Wanted(local - {user}) <==> c in Wanted(local) - {UserChannel(user)} {
      if c in Wanted(local) && c != UserChannel(user) {
        var u :| u in local && c == UserChannel(u);
        assert u in local - {user};
      }
      if c in Wanted(local - {user}) {
        var u :| u in local - {user} && c == UserChannel(u);
        UserOfChannel(c, u);
        UserOfChannel(c, user);
      }
    }
  }

  lemma ControlIsApart(control: string, user: string)
    requires UserOf(control).None?
    ensures UserChannel(user) != control
  {
    UserOfChannel(control, user);
  }

  /** A registration and its request, or an unregistration and its, while `base` follows. */
  lemma RequestKeepsInv<C>(h: HubState<C>, h': HubState<C>, r: Request)
    requires Inv(h) && h'.control == h.control && h'.link == h.link && h'.requests == h.requests + [r]
    requires Wanted(h'.local) + {h.control} == Effect(Wanted(h.local) + {h.control}, r)
    ensures Replayed(Base(h'), Pending(h')) == Wanted(h'.local) + {h'.control}
  {
    assert Pending(h') == Pending(h) + [r];
    assert Pending(h')[..|Pending(h')| - 1] == Pending(h);
    if h.link.Down? {
      ReplayedWith(Base(h), Pending(h), r);
    }
  }

  lemma RegisterOk<C>(h: HubState<C>, user: string, conn: C)
    requires Inv(h)
    ensures Inv(Apply(h, Register(user, conn)))
  {
    hide UserOf, UserChannel, Replayed;
    var h' := Apply(h, Register(user, conn));
    var conns := if user in h.local then h.local[user] else {};
    WantedAdd(h.local, user, conns + {conn});
    if conns == {} {
      RequestKeepsInv(h, h', Subscribe(UserChannel(user)));
    } else {
      assert Wanted(h'.local) == Wanted(h.local);
    }
  }

  lemma UnregisterOk<C>(h: HubState<C>, user: string, conn: C)
    requires Inv(h)
    ensures Inv(Apply(h, Unregister(user, conn)))
  {
    hide UserOf, UserChannel, Replayed;
    var h' := Apply(h, Unregister(user, conn));
    if user in h.local && conn in h.local[user] {
      if h.local[user] == {conn} {
        WantedRemove(h.local, user);
        ControlIsApart(h.control, user);
        RequestKeepsInv(h, h', Unsubscribe(UserChannel(user)));
      } else {
        WantedAdd(h.local, user, h.local[user] - {conn});
        assert Wanted(h'.local) == Wanted(h.local);
        assert h'.local[user] != {} by {
          assert forall c | c in h.local[user] && c != conn :: c in h'.local[user];
        }
      }
    }
  }

  lemma LinkOk<C>(h: HubState<C>, a: Action<C>)
    requires Inv(h) && Enabled(h, a) && !a.Register? && !a.Unregister?
    ensures Inv(Apply(h, a))
  {
    var h' := Apply(h, a);
    match a {
      case Take =>
        assert Pending(h') == Pending(h);
      case Applied =>
        ReplayedConcat(h.link.channels, [h.link.request], h.requests);
      case _ =>
    }
  }

  lemma StepOk<C>(h: HubState<C>, a: Action<C>)
    requires Inv(h) && Enabled(h, a)
    ensures Inv(Apply(h, a))
  {
    hide Inv;
    match a {
      case Register(u, c) => RegisterOk(h, u, c);
      case Unregister(u, c) => UnregisterOk(h, u, c);
      case _ => LinkOk(h, a);
    }
  }

  lemma {:induction false} RunOk<C>(h: HubState<C>, actions: seq<Action<C>>, h': HubState<C>)
    requires Inv(h) && Reaches(h, actions, h')
    ensures Inv(h')
    decreases |actions|
  {
    hide Inv, Enabled, Apply;
    if actions != [] {
      StepOk(h, actions[0]);
      RunOk(Apply(h, actions[0]), actions[1..], h');
    }
  }

  // ---- what follows

  lemma ReachableOk<C>(replica: string, actions: seq<Action<C>>, h: HubState<C>)
    requires Reaches(Init(ControlChannel(replica)), actions, h)
    ensures Inv(h)
  {
    ControlIsNoUser(replica);
    RunOk(Init(ControlChannel(replica)), actions, h);
  }

  /** After any interleaving of registrations, failures, snapshots and stale requests, the last
      pending request for a user's channel says whether that user is connected here; without one,
      the channel is subscribed (or will be, by the next snapshot) exactly if the user is. */
  lemma SubscriptionAgreement<C>(replica: string, actions: seq<Action<C>>, h: HubState<C>, user: string)
    requires Reaches(Init(ControlChannel(replica)), actions, h)
    ensures forall k | LastFor(Pending(h), UserChannel(user), k) :: Pending(h)[k].Subscribe? <==> user in h.local
    ensures Untouched(Pending(h), UserChannel(user)) ==> (UserChannel(user) in Base(h) <==> user in h.local)
  {
    hide UserOf, UserChannel, Replayed, Base, Pending;
    ReachableOk(replica, actions, h);
    ControlIsApart(h.control, user);
    WantedUser(h.local, user);
    forall k | LastFor(Pending(h), UserChannel(user), k) ensures Pending(h)[k].Subscribe? <==> user in h.local {
      ReplayedLast(Base(h), Pending(h), UserChannel(user), k);
    }
    if Untouched(Pending(h), UserChannel(user)) {
      ReplayedUntouched(Base(h), Pending(h), UserChannel(user));
    }
  }

  lemma WantedUser<C>(local: map<string, set<C>>, user: string)
    ensures UserChannel(user) in Wanted(local) <==> user in local
  {
    if UserChannel(user) in Wanted(local) {
      var u :| u in local && UserChannel(u) == UserChannel(user);
      UserOfChannel(UserChannel(user), u);
      UserOfChannel(UserChannel(user), user);
    }
  }

  /** Once the queue is empty and nothing is in flight, the replica is subscribed to its control
      channel and to exactly the channels of its local users. */
  lemma DrainedMeansExact<C>(replica: string, actions: seq<Action<C>>, h: HubState<C>)
    requires Reaches(Init(ControlChannel(replica)), actions, h)
    requires h.link.Up? && h.requests == []
    ensures h.link.channels == Wanted(h.local) + {h.control}
  {
    ReachableOk(replica, actions, h);
  }

  /** No request that is pending would unsubscribe the channel. */
  predicate NoUnsubscribe(requests: seq<Request>, channel: string) {
    forall k | 0 <= k < |requests| :: requests[k] != Unsubscribe(channel)
  }

  /** The connection is registered, and its user's channel is subscribed, or will be by the snapshot, with
      nothing pending that would change that. */
  predicate Steady<C(==)>(h: HubState<C>, user: string, conn: C) {
    && user in h.local && conn in h.local[user]
    && UserChannel(user) in Base(h) && NoUnsubscribe(Pending(h), UserChannel(user))
  }

  lemma SteadyStep<C>(h: HubState<C>, a: Action<C>, user: string, conn: C)
    requires Steady(h, user, conn) && Enabled(h, a) && !a.Lost? && a != Unregister(user, conn)
    ensures Steady(Apply(h, a), user, conn)
  {
    hide UserChannel, UserOf;
    var h' := Apply(h, a);
    WantedUser(h'.local, user);
    if h.link.Down? {
      WantedUser(h.local, user);
    }
    match a {
      case Register(u, _) =>
        UserOfChannel(UserChannel(u), u);
        UserOfChannel(UserChannel(u), user);
        if u == user {
          assert conn in h'.local[user];
          assert h'.requests == h.requests;
        } else {
          assert Pending(h') == Pending(h) || Pending(h') == Pending(h) + [Subscribe(UserChannel(u))];
        }
      case Unregister(u, c) =>
        UserOfChannel(UserChannel(u), u);
        UserOfChannel(UserChannel(u), user);
        if u == user {
          assert h.local[user] != {c};
          assert Pending(h') == Pending(h);
        } else {
          assert Pending(h') == Pending(h) || Pending(h') == Pending(h) + [Unsubscribe(UserChannel(u))];
        }
      case Take =>
        assert Pending(h') == Pending(h);
      case Applied =>
        assert Pending(h)[0] == h.link.request;
        forall k | 0 <= k < |h'.requests| ensures h'.requests[k] != Unsubscribe(UserChannel(user)) {
          assert Pending(h)[k + 1] == h'.requests[k];
        }
      case _ =>
    }
  }

  /** Nothing loses the link and nothing removes the connection. */
  predicate Spares<C(==)>(actions: seq<Action<C>>, user: string, conn: C) {
    forall k | 0 <= k < |actions| :: !actions[k].Lost? && actions[k] != Unregister(user, conn)
  }

  lemma {:induction false} StaysSubscribed<C>(h: HubState<C>, actions: seq<Action<C>>, h': HubState<C>, user: string, conn: C)
    requires Reaches(h, actions, h') && Steady(h, user, conn) && Spares(actions, user, conn)
    ensures Steady(h', user, conn)
    decreases |actions|
  {
    hide Enabled, Apply, Steady;
    if actions != [] {
      SteadyStep(h, actions[0], user, conn);
      StaysSubscribed(Apply(h, actions[0]), actions[1..], h', user, conn);
    }
  }

  lemma {:induction false} Extend<C>(h: HubState<C>, actions: seq<Action<C>>, mid: HubState<C>, a: Action<C>)
    requires Reaches(h, actions, mid) && Enabled(mid, a)
    ensures Reaches(h, actions + [a], Apply(mid, a))
    decreases |actions|
  {
    hide Enabled, Apply;
    if actions == [] {
      assert [] + [a] == [a] && [a][1..] == [];
      assert Reaches(Apply(h, a), [], Apply(mid, a));
    } else {
      Extend(Apply(h, actions[0]), actions[1..], mid, a);
      assert (actions + [a])[1..] == actions[1..] + [a];
    }
  }

  predicate Linked<C(==)>(h: HubState<C>) {
    h.link.Up? || h.link.Applying?
  }

  /** One request off the queue and applied. */
  lemma DrainOne<C>(h: HubState<C>, before: seq<Action<C>>, mid: HubState<C>, user: string, conn: C) returns (actions: seq<Action<C>>, h': HubState<C>)
    requires Reaches(h, before, mid) && Spares(before, user, conn) && Linked(mid) && Pending(mid) != []
    ensures Reaches(h, actions, h') && Spares(actions, user, conn) && Linked(h')
    ensures Pending(h') == Pending(mid)[1..] && Base(h') == Effect(Base(mid), Pending(mid)[0])
  {
    hide Reaches, UserChannel;
    actions, h' := before, mid;
    if h'.link.Up? {
      Extend(h, actions, h', Take);
      actions, h' := actions + [Take], Apply(h', Take);
    }
    Extend(h, actions, h', Applied);
    actions, h' := actions + [Applied], Apply(h', Applied);
  }

  /** While a request to unsubscribe is pending, draining the queue takes the channel away. */
  lemma {:induction false} DrainUntilGone<C>(h: HubState<C>, before: seq<Action<C>>, mid: HubState<C>, user: string, conn: C, channel: string)
    returns (actions: seq<Action<C>>, h': HubState<C>)
    requires Reaches(h, before, mid) && Spares(before, user, conn) && Linked(mid) && !NoUnsubscribe(Pending(mid), channel)
    ensures Reaches(h, actions, h') && Spares(actions, user, conn) && Linked(h') && channel !in Base(h')
    decreases |Pending(mid)|
  {
    hide Reaches, Spares, Base, Pending;
    actions, h' := DrainOne(h, before, mid, user, conn);
    if Pending(mid)[0] != Unsubscribe(channel) {
      var k :| 0 <= k < |Pending(mid)| && Pending(mid)[k] == Unsubscribe(channel);
      assert Pending(h')[k - 1] == Unsubscribe(channel);
      actions, h' := DrainUntilGone(h, actions, h', user, conn, channel);
    }
  }

  ghost predicate AlwaysSubscribed<C(!new)>(h: HubState<C>, user: string, conn: C) {
    forall actions, h' | Reaches(h, actions, h') && Spares(actions, user, conn) :: UserChannel(user) in Base(h')
  }

  /** When replaying is harmless. A registered connection whose user's channel is subscribed now, or is in
      the snapshot being subscribed, or will be in the next one while the link is down, keeps it through
      everything that spares the link and the connection exactly if no pending request, stale or not,
      unsubscribes that channel. */
  lemma ReplayIsHarmless<C(!new)>(h: HubState<C>, user: string, conn: C)
    requires user in h.local && conn in h.local[user] && UserChannel(user) in Base(h)
    ensures AlwaysSubscribed(h, user, conn) <==> NoUnsubscribe(Pending(h), UserChannel(user))
  {
    hide UserChannel, Reaches, Spares, Base, Pending, Enabled, Apply, NoUnsubscribe;
    if NoUnsubscribe(Pending(h), UserChannel(user)) {
      forall actions, h' | Reaches(h, actions, h') && Spares(actions, user, conn) ensures UserChannel(user) in Base(h') {
        StaysSubscribed(h, actions, h', user, conn);
      }
    } else {
      var actions, h' := LinkComplete(h, user, conn);
      actions, h' := DrainUntilGone(h, actions, h', user, conn, UserChannel(user));
    }
  }

  /** The link comes up, if it was not. */
  lemma LinkComplete<C>(h: HubState<C>, user: string, conn: C) returns (actions: seq<Action<C>>, h': HubState<C>)
    ensures Reaches(h, actions, h') && Spares(actions, user, conn) && Linked(h') && Pending(h') == Pending(h) && Base(h') == Base(h)
  {
    hide Wanted;
    actions, h' := [], h;
    if h'.link.Down? {
      Extend(h, actions, h', Connect);
      actions, h' := actions + [Connect], Apply(h', Connect);
    }
    if h'.link.Connecting? {
      Extend(h, actions, h', Connected);
      actions, h' := actions + [Connected], Apply(h', Connected);
    }
  }

  /** After a failure nothing that was pending can take a connected user's channel away: the next snapshot has
      it, and what is queued from then on leaves it there. */
  lemma FailureForgets<C(!new)>(h: HubState<C>, user: string, conn: C)
    requires !h.link.Down? && user in h.local && conn in h.local[user]
    ensures AlwaysSubscribed(Apply(h, Lost), user, conn)
  {
    hide UserChannel, AlwaysSubscribed, Wanted;
    WantedUser(h.local, user);
    ReplayIsHarmless(Apply(h, Lost), user, conn);
  }

  // ---- the registry

  predicate Registered<C(==)>(h: HubState<C>, user: string, conn: C) {
    user in h.local && conn in h.local[user]
  }

  /** The last of these actions about this connection of this user registers it. */
  ghost predicate LastRegisters<C>(actions: seq<Action<C>>, user: string, conn: C) {
    exists k :: 0 <= k < |actions| && actions[k] == Register(user, conn) && NeverUnregisters(actions[k + 1..], user, conn)
  }

  predicate NeverUnregisters<C(==)>(actions: seq<Action<C>>, user: string, conn: C) {
    forall k | 0 <= k < |actions| :: actions[k] != Unregister(user, conn)
  }

  lemma RegistryStep<C>(h: HubState<C>, a: Action<C>, user: string, conn: C)
    requires Enabled(h, a)
    ensures Registered(Apply(h, a), user, conn)
            <==> a == Register(user, conn) || (Registered(h, user, conn) && a != Unregister(user, conn))
  {
    hide UserChannel, Wanted, Effect;
  }

  lemma LastRegistersTail<C>(actions: seq<Action<C>>, user: string, conn: C)
    requires actions != []
    ensures LastRegisters(actions, user, conn)
            <==> LastRegisters(actions[1..], user, conn) || (actions[0] == Register(user, conn) && NeverUnregisters(actions[1..], user, conn))
  {
    hide NeverUnregisters;
    var rest := actions[1..];
    if k :| 0 <= k < |actions| && actions[k] == Register(user, conn) && NeverUnregisters(actions[k + 1..], user, conn) && k > 0 {
      assert rest[k - 1] == Register(user, conn) && rest[k..] == actions[k + 1..];
      assert LastRegisters(rest, user, conn);
    }
    if k :| 0 <= k < |rest| && rest[k] == Register(user, conn) && NeverUnregisters(rest[k + 1..], user, conn) {
      assert actions[k + 1] == Register(user, conn) && actions[k + 2..] == rest[k + 1..];
    }
  }

  lemma NeverUnregistersTail<C>(actions: seq<Action<C>>, user: string, conn: C)
    requires actions != []
    ensures NeverUnregisters(actions, user, conn) <==> actions[0] != Unregister(user, conn) && NeverUnregisters(actions[1..], user, conn)
  {
    forall k | 0 <= k < |actions| && NeverUnregisters(actions[1..], user, conn) && actions[0] != Unregister(user, conn)
      ensures actions[k] != Unregister(user, conn)
    {
      assert k > 0 ==> actions[1..][k - 1] == actions[k];
    }
  }

  /** Over any stretch of a run a connection is registered at the end exactly if it was registered last, or was
      there at the start and never unregistered. */
  lemma {:induction false} RegistryFollows<C>(h: HubState<C>, actions: seq<Action<C>>, h': HubState<C>, user: string, conn: C)
    requires Reaches(h, actions, h')
    ensures Registered(h', user, conn)
            <==> LastRegisters(actions, user, conn) || (Registered(h, user, conn) && NeverUnregisters(actions, user, conn))
    decreases |actions|
  {
    hide Enabled, Apply, Registered, LastRegisters, NeverUnregisters;
    if actions == [] {
      assert !LastRegisters(actions, user, conn) && NeverUnregisters(actions, user, conn) by { NoActions<C>(user, conn); }
    } else {
      RegistryStep(h, actions[0], user, conn);
      RegistryFollows(Apply(h, actions[0]), actions[1..], h', user, conn);
      LastRegistersTail(actions, user, conn);
      NeverUnregistersTail(actions, user, conn);
    }
  }

  lemma NoActions<C>(user: string, conn: C)
    ensures !LastRegisters<C>([], user, conn) && NeverUnregisters<C>([], user, conn)
  {
  }

  /** `chat_socket` pairs `register` with `unregister`: a connection that was not there before leaves
      the registry as it found it, and at most a SUBSCRIBE and an UNSUBSCRIBE that cancel out. */
  lemma UnregisterUndoesRegister<C>(h: HubState<C>, user: string, conn: C)
    requires Inv(h) && (user in h.local ==> conn !in h.local[user])
    ensures var h' := Apply(Apply(h, Register(user, conn)), Unregister(user, conn));
            && h'.local == h.local && h'.link == h.link
            && (user in h.local ==> h' == h)
            && (user !in h.local ==> h'.requests == h.requests + [Subscribe(UserChannel(user)), Unsubscribe(UserChannel(user))])
  {
    hide UserChannel, UserOf, Replayed;
    var conns := if user in h.local then h.local[user] else {};
    assert conns + {conn} - {conn} == conns;
    if user !in h.local {
      assert conns + {conn} == {conn};
    }
  }

  lemma FirstDevice<C>(control: string, requests: seq<Request>, user: string, conn: C)
    ensures Apply(HubState(control, map[], requests, Down), Register(user, conn))
         == HubState(control, map[user := {conn}], requests + [Subscribe(UserChannel(user))], Down)
  {
    assert {} + {conn} == {conn};
  }

  lemma OnlyDevice<C>(control: string, requests: seq<Request>, user: string, conn: C)
    ensures Apply(HubState(control, map[user := {conn}], requests, Down), Unregister(user, conn))
         == HubState(control, map[], requests + [Unsubscribe(UserChannel(user))], Down)
  {
    assert map[user := {conn}] - {user} == map[];
  }

  /** A user leaves and comes back while the link is down, and then it comes up. */
  lemma LeaveAndReturn<C>(control: string, user: string, a: C, b: C) returns (actions: seq<Action<C>>, h: HubState<C>)
    ensures Reaches(Init(control), actions, h)
    ensures var c := UserChannel(user);
            h == HubState(control, map[user := {b}], [Subscribe(c), Unsubscribe(c), Subscribe(c)], Up({c, control}))
  {
    hide UserChannel, Apply;
    var c := UserChannel(user);
    var s0: HubState<C> := Init(control);
    var s1: HubState<C> := HubState(control, map[user := {a}], [Subscribe(c)], Down);
    var s2: HubState<C> := HubState(control, map[], [Subscribe(c), Unsubscribe(c)], Down);
    var s3: HubState<C> := HubState(control, map[user := {b}], [Subscribe(c), Unsubscribe(c), Subscribe(c)], Down);
    assert [] + [Subscribe(c)] == s1.requests && s1.requests + [Unsubscribe(c)] == s2.requests;
    assert s2.requests + [Subscribe(c)] == s3.requests;
    FirstDevice(control, [], user, a);
    Extend(s0, [], s0, Register(user, a));
    OnlyDevice(control, s1.requests, user, a);
    Extend(s0, [] + [Register(user, a)], s1, Unregister(user, a));
    FirstDevice(control, s2.requests, user, b);
    Extend(s0, [] + [Register(user, a)] + [Unregister(user, a)], s2, Register(user, b));
    actions := [] + [Register(user, a)] + [Unregister(user, a)] + [Register(user, b)];
    actions, h := LinkUp(s0, actions, s3);
    assert Wanted(s3.local) + {control} == {c, control};
  }

  lemma LinkUp<C>(s: HubState<C>, before: seq<Action<C>>, h: HubState<C>) returns (actions: seq<Action<C>>, h': HubState<C>)
    requires Reaches(s, before, h) && h.link.Down?
    ensures Reaches(s, actions, h') && h' == h.(link := Up(Wanted(h.local) + {h.control}))
  {
    hide Wanted;
    Extend(s, before, h, Connect);
    Extend(s, before + [Connect], Apply(h, Connect), Connected);
    actions, h' := before + [Connect] + [Connected], Apply(Apply(h, Connect), Connected);
  }

  /** Replaying stale requests is not free of gaps. A user who leaves and comes back while the link is
      down is in the next snapshot, but the requests left over from then unsubscribe the channel once
      more before they subscribe it again. */
  lemma StaleReplayGap<C>(replica: string, user: string, a: C, b: C)
    returns (before: seq<Action<C>>, h: HubState<C>, h': HubState<C>)
    ensures Reaches(Init(ControlChannel(replica)), before, h) && Reaches(h, [Take, Applied, Take, Applied], h')
    ensures h.link.Up? && user in h.local && UserChannel(user) in h.link.channels
    ensures h'.link.Up? && h'.local == h.local && UserChannel(user) !in h'.link.channels
  {
    hide UserChannel;
    before, h := LeaveAndReturn(ControlChannel(replica), user, a, b);
    var c, control := UserChannel(user), h.control;
    h' := h;
    Extend(h, [], h', Take);
    h' := h'.(requests := [Unsubscribe(c), Subscribe(c)], link := Applying(Subscribe(c), {c, control}));
    Extend(h, [Take], h', Applied);
    h' := h'.(link := Up({c, control}));
    Extend(h, [Take, Applied], h', Take);
    h' := h'.(requests := [Subscribe(c)], link := Applying(Unsubscribe(c), {c, control}));
    Extend(h, [Take, Applied, Take], h', Applied);
    h' := h'.(link := Up({c, control} - {c}));
  }
}
