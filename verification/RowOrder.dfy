/** `ORDER BY id` over a set of outbox rows. */
module RowOrder {
  import opened RelayNet

  predicate IsMin(m: nat, s: set<nat>) {
    m in s && forall x | x in s :: m <= x
  }

  lemma {:induction false} MinExists(s: set<nat>)
    requires s != {}
    ensures exists m :: IsMin(m, s)
  {
    var y :| y in s;
    var rest := s - {y};
    assert forall x | x in s :: x == y || x in rest;
    if rest == {} {
      assert IsMin(y, s);
    } else {
      MinExists(rest);
      var z :| IsMin(z, rest);
      var m := if y < z then y else z;
      assert IsMin(m, s);
    }
  }

  function Min(s: set<nat>): (m: nat)
    requires s != {}
    ensures m in s && IsMin(m, s)
  {
    MinExists(s);
    var m :| IsMin(m, s);
    m
  }

  lemma NoElements(o: seq<nat>)
    ensures Elements(o) == {} <==> o == []
    ensures Sorted([])
  {
    if o != [] {
      assert o[0] in Elements(o);
    }
  }

  lemma ElementsOfConcat(o: seq<nat>, p: seq<nat>)
    ensures Elements(o + p) == Elements(o) + Elements(p)
  {
    assert forall i :: i in o + p <==> i in o || i in p;
  }

  lemma PrependedIsSorted(m: nat, o: seq<nat>)
    requires Sorted(o) && IsMin(m, {m} + Elements(o)) && m !in Elements(o)
    ensures Sorted([m] + o)
  {
    forall k | 0 <= k < |o| ensures m < o[k] {
      assert o[k] in Elements(o);
    }
  }

  lemma Singleton(m: nat)
    ensures Elements([m]) == {m}
  {
  }

  function Ordered(s: set<nat>): (o: seq<nat>)
    ensures |o| == |s|
    ensures Elements(o) == s
    ensures Sorted(o)
  {
    hide IsMin, Sorted, Elements;
    if s == {} then
      NoElements([]);
      []
    else
      var m := Min(s);
      var o := Ordered(s - {m});
      Singleton(m);
      ElementsOfConcat([m], o);
      assert {m} + (s - {m}) == s;
      PrependedIsSorted(m, o);
      [m] + o
  }

  lemma FirstIsMin(o: seq<nat>)
    requires Sorted(o) && o != []
    ensures IsMin(o[0], Elements(o))
    ensures Elements(o[1..]) == Elements(o) - {o[0]}
    ensures Sorted(o[1..])
  {
    assert o == [o[0]] + o[1..];
  }

  /** There is only one increasing list of given numbers. */
  lemma {:induction false} SortedIsUnique(o: seq<nat>, p: seq<nat>)
    requires Sorted(o) && Sorted(p) && Elements(o) == Elements(p)
    ensures o == p
    decreases |o|
  {
    hide Sorted, Elements;
    NoElements(o);
    NoElements(p);
    if o != [] {
      FirstIsMin(o);
      FirstIsMin(p);
      SortedIsUnique(o[1..], p[1..]);
      assert o == [o[0]] + o[1..] && p == [p[0]] + p[1..];
    }
  }

  lemma HalvesOf(o: seq<nat>, k: nat)
    requires Sorted(o) && k <= |o|
    ensures Elements(o[..k]) !! Elements(o[k..])
    ensures Sorted(o[..k]) && Sorted(o[k..])
  {
    forall i, j | i in o[..k] && j in o[k..] ensures i < j {
      var x :| 0 <= x < k && o[x] == i;
      var y :| k <= y < |o| && o[y] == j;
    }
  }

  /** What is left of an ordered list without its first `k` numbers. */
  lemma RestIsOrdered(s: set<nat>, k: nat)
    requires k <= |s|
    ensures Ordered(s - Elements(Ordered(s)[..k])) == Ordered(s)[k..]
    ensures Elements(Ordered(s)[..k]) <= s
  {
    hide Sorted, Elements, Ordered;
    var o := Ordered(s);
    assert o[..k] + o[k..] == o;
    ElementsOfConcat(o[..k], o[k..]);
    HalvesOf(o, k);
    assert s - Elements(o[..k]) == Elements(o[k..]);
    SortedIsUnique(Ordered(s - Elements(o[..k])), o[k..]);
  }
}
