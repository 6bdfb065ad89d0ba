/** Sets of messages in key order: what ORDER BY (created_at, id) LIMIT n selects. */
module KeySets {
  import opened Clock
  import opened Uuids
  import opened Models

  predicate Earlier(m: Message, n: Message) {
    KeyLess(m.Key(), n.Key())
  }

  lemma KeyLessIsTransitive(a: Key, b: Key, c: Key)
    ensures KeyLess(a, b) && KeyLess(b, c) ==> KeyLess(a, c)
    ensures !KeyLess(a, a)
    ensures KeyLess(a, b) ==> !KeyLess(b, a)
  {
    hide Ordinal;
  }

  /** No two rows share an id, as in any table. */
  ghost predicate DistinctIds(ms: set<Message>) {
    forall m, n | m in ms && n in ms && m.id == n.id :: m == n
  }

  ghost predicate IsLeast(ms: set<Message>, m: Message) {
    m in ms && forall n | n in ms && n != m :: Earlier(m, n)
  }

  lemma {:induction false} LeastExists(ms: set<Message>)
    requires ms != {} && DistinctIds(ms)
    ensures exists m :: IsLeast(ms, m)
  {
    hide KeyLess;
    var x :| x in ms;
    if ms == {x} {
      assert IsLeast(ms, x);
    } else {
      var rest := ms - {x};
      LeastExists(rest);
      var y :| IsLeast(rest, y);
      KeysAreTotallyOrdered(x.Key(), y.Key());
      if Earlier(x, y) {
        forall n | n in ms && n != x ensures Earlier(x, n) {
          KeyLessIsTransitive(x.Key(), y.Key(), n.Key());
          assert n != y ==> Earlier(y, n);
        }
        assert IsLeast(ms, x);
      } else {
        assert IsLeast(ms, y);
      }
    }
  }

  ghost function Least(ms: set<Message>): (m: Message)
    requires ms != {} && DistinctIds(ms)
    ensures IsLeast(ms, m)
  {
    LeastExists(ms);
    var m :| IsLeast(ms, m);
    m
  }

  ghost predicate Ascends(s: seq<Message>) {
    forall i, j | 0 <= i < j < |s| :: Earlier(s[i], s[j])
  }

  /** ORDER BY created_at ASC, id ASC. */
  ghost function Ascending(ms: set<Message>): (s: seq<Message>)
    requires DistinctIds(ms)
    ensures |s| == |ms|
    ensures forall m :: m in s <==> m in ms
    ensures Ascends(s)
  {
    if ms == {} then []
    else
      var m := Least(ms);
      [m] + Ascending(ms - {m})
  }

  function Reversed(s: seq<Message>): (r: seq<Message>)
    ensures |r| == |s|
    ensures forall i | 0 <= i < |s| :: r[i] == s[|s| - 1 - i]
    ensures forall x :: x in r <==> x in s
  {
    if s == [] then [] else Reversed(s[1..]) + [s[0]]
  }

  /** ORDER BY created_at DESC, id DESC. */
  ghost function Descending(ms: set<Message>): (s: seq<Message>)
    requires DistinctIds(ms)
  {
    Reversed(Ascending(ms))
  }

  function Take<T>(s: seq<T>, n: nat): seq<T> {
    if n <= |s| then s[..n] else s
  }

  function Above(ms: set<Message>, k: Key): set<Message> {
    set m | m in ms && KeyLess(k, m.Key())
  }

  function Below(ms: set<Message>, k: Key): set<Message> {
    set m | m in ms && KeyLess(m.Key(), k)
  }

  /** Two ascending sequences with the same elements are the same. */
  lemma {:induction false} AscendingIsUnique(s: seq<Message>, t: seq<Message>)
    requires Ascends(s) && Ascends(t) && forall m :: m in s <==> m in t
    ensures s == t
  {
    hide KeyLess;
    if s == [] {
      if t != [] {
        SomeMember(t);
      }
    } else {
      assert s[0] in t && s[0] in s;
      assert t != [] && t[0] in s;
      SameHead(s, t);
      forall m ensures m in s[1..] <==> m in t[1..] {
        TailMembers(s, m);
        TailMembers(t, m);
      }
      AscendingIsUnique(s[1..], t[1..]);
      assert s == [s[0]] + s[1..] && t == [t[0]] + t[1..];
    }
  }

  lemma SomeMember(t: seq<Message>)
    requires t != []
    ensures exists m :: m in t
  {
    assert t[0] in t;
  }

  lemma SameHead(s: seq<Message>, t: seq<Message>)
    requires s != [] && t != [] && Ascends(s) && Ascends(t) && s[0] in t && t[0] in s
    ensures s[0] == t[0]
  {
    hide KeyLess;
    var i :| 0 <= i < |t| && t[i] == s[0];
    var j :| 0 <= j < |s| && s[j] == t[0];
    KeyLessIsTransitive(s[0].Key(), t[0].Key(), s[0].Key());
    assert i > 0 ==> Earlier(t[0], t[i]);
    assert j > 0 ==> Earlier(s[0], s[j]);
  }

  lemma TailMembers(s: seq<Message>, m: Message)
    requires s != [] && Ascends(s)
    ensures m in s[1..] <==> m in s && m != s[0]
  {
    hide KeyLess;
    KeyLessIsTransitive(s[0].Key(), s[0].Key(), s[0].Key());
    if m in s[1..] {
      var i :| 0 <= i < |s[1..]| && s[1..][i] == m;
      assert Earlier(s[0], s[i + 1]);
    }
    if m in s && m != s[0] {
      var i :| 0 <= i < |s| && s[i] == m;
      assert s[1..][i - 1] == m;
    }
  }

  /** In an ascending sequence the first `n` elements are those not above the last of them. */
  lemma PrefixByKey(s: seq<Message>, n: nat, m: Message)
    requires Ascends(s) && 0 < n <= |s| && m in s
    ensures m in s[..n] <==> !Earlier(s[n - 1], m)
  {
    hide KeyLess;
    var i :| 0 <= i < |s| && s[i] == m;
    KeyLessIsTransitive(m.Key(), s[n - 1].Key(), m.Key());
    if i < n {
      assert s[..n][i] == m;
      assert i < n - 1 ==> Earlier(s[i], s[n - 1]);
    } else {
      assert Earlier(s[n - 1], s[i]);
    }
  }

  ghost predicate Descends(s: seq<Message>) {
    forall i, j | 0 <= i < j < |s| :: Earlier(s[j], s[i])
  }

  /** Newest first, the first `n` elements are those not below the last of them. */
  lemma ReversedPrefixByKey(s: seq<Message>, n: nat, m: Message)
    requires Ascends(s) && 0 < n <= |s| && m in s
    ensures m in Reversed(s)[..n] <==> !Earlier(m, Reversed(s)[n - 1])
  {
    hide KeyLess, Earlier, Reversed;
    var r := Reversed(s);
    var i :| 0 <= i < |r| && r[i] == m;
    EarlierIsStrict(m, r[n - 1]);
    if i < n {
      assert r[..n][i] == m;
      assert i < n - 1 ==> Earlier(s[|s| - n], s[|s| - 1 - i]);
    } else {
      assert Earlier(s[|s| - 1 - i], s[|s| - n]);
    }
  }

  lemma EarlierIsStrict(m: Message, n: Message)
    ensures !(Earlier(m, n) && Earlier(n, m)) && !Earlier(m, m)
  {
    KeyLessIsTransitive(m.Key(), n.Key(), m.Key());
  }

  lemma ReversedDescends(s: seq<Message>)
    requires Ascends(s)
    ensures Descends(Reversed(s))
  {
    hide KeyLess;
    var r := Reversed(s);
    forall i, j | 0 <= i < j < |r| ensures Earlier(r[j], r[i]) {
      assert Earlier(s[|s| - 1 - j], s[|s| - 1 - i]);
    }
  }
}
