/** Facts about duplicate-free sequences and about deleting members from them.
    Every kernel queue is abstracted by such a sequence. */
module Sequences {

  ghost predicate NoDup<T>(s: seq<T>) {
    forall i, j :: 0 <= i < j < |s| ==> s[i] != s[j]
  }

  ghost predicate Disjoint<T>(s: seq<T>, t: seq<T>) {
    forall i :: 0 <= i < |s| ==> s[i] !in t
  }

  ghost function Elements<T>(s: seq<T>): set<T> {
    set x | x in s
  }

  /** `s` with the members of `gone` deleted, the others in their old order. */
  ghost function Without<T>(s: seq<T>, gone: set<T>): (r: seq<T>)
    ensures forall x :: x in r ==> x in s && x !in gone
    ensures forall x :: x in s && x !in gone ==> x in r
    ensures |r| <= |s|
  {
    if s == [] then [] else
    (if s[0] in gone then [] else [s[0]]) + Without(s[1..], gone)
  }

  lemma {:induction false} WithoutNothing<T>(s: seq<T>, gone: set<T>)
    requires forall x :: x in s ==> x !in gone
    ensures Without(s, gone) == s
  {
    if s != [] {
      WithoutNothing(s[1..], gone);
    }
  }

  lemma {:induction false} WithoutTwice<T>(s: seq<T>, a: set<T>, b: set<T>)
    ensures Without(Without(s, a), b) == Without(s, a + b)
  {
    if s != [] {
      WithoutTwice(s[1..], a, b);
      var rest := Without(s[1..], a);
      if s[0] !in a {
        assert Without(s, a) == [s[0]] + rest;
        assert ([s[0]] + rest)[1..] == rest;
      } else {
        assert Without(s, a) == rest;
      }
    }
  }
  lemma WithoutHead<T>(s: seq<T>, gone: set<T>)
    requires s != []
    ensures Without(s, gone) == (if s[0] in gone then [] else [s[0]]) + Without(s[1..], gone)
  {
  }

  lemma {:induction false} WithoutAt<T>(s: seq<T>, k: nat)
    requires NoDup(s) && k < |s|
    ensures Without(s, {s[k]}) == s[..k] + s[k + 1..]
  {
    hide *;
    var rest := s[1..];
    TailNoDup(s);
    WithoutHead(s, {s[k]});
    if k == 0 {
      WithoutNothing(rest, {s[0]});
    } else {
      assert rest[k - 1] == s[k] && s[k] in rest;
      WithoutAt(rest, k - 1);
      assert [s[0]] + (rest[..k - 1] + rest[k..]) == s[..k] + s[k + 1..];
    }
  }

  lemma {:induction false} WithoutNoDup<T>(s: seq<T>, gone: set<T>)
    requires NoDup(s)
    ensures NoDup(Without(s, gone))
  {
    if s != [] {
      WithoutNoDup(s[1..], gone);
    }
  }

  /** Deleting one member that is there shortens the sequence by exactly one. */
  lemma WithoutOneLength<T>(s: seq<T>, x: T)
    requires NoDup(s)
    ensures |Without(s, {x})| == if x in s then |s| - 1 else |s|
  {
    if x in s {
      var k :| 0 <= k < |s| && s[k] == x;
      WithoutAt(s, k);
    } else {
      WithoutNothing(s, {x});
    }
  }

  lemma {:induction false} NoDupCardinality<T>(s: seq<T>)
    requires NoDup(s)
    ensures |Elements(s)| == |s|
  {
    if s == [] {
      assert Elements(s) == {};
    } else {
      NoDupCardinality(s[1..]);
      assert Elements(s) == {s[0]} + Elements(s[1..]);
      assert s[0] !in Elements(s[1..]);
    }
  }

  lemma NoDupSplit<T>(s: seq<T>, t: seq<T>)
    requires NoDup(s + t)
    ensures NoDup(s) && NoDup(t) && Disjoint(s, t)
  {
    var u := s + t;
    assert forall i :: 0 <= i < |s| ==> s[i] == u[i];
    assert forall j :: 0 <= j < |t| ==> t[j] == u[|s| + j];
    forall x | x in s ensures x !in t {
      var i :| 0 <= i < |s| && s[i] == x;
      assert u[i] == x;
    }
  }

  lemma TailNoDup<T>(s: seq<T>)
    requires NoDup(s) && s != []
    ensures NoDup(s[1..]) && s[0] !in s[1..]
  {
  }

  lemma AppendNoDup<T>(s: seq<T>, x: T)
    requires NoDup(s) && x !in s
    ensures NoDup(s + [x])
  {
  }

  lemma JoinNoDup<T>(s: seq<T>, t: seq<T>)
    requires NoDup(s) && NoDup(t) && forall x :: x in s ==> x !in t
    ensures NoDup(s + t)
  {
    var u := s + t;
    forall i, j | 0 <= i < j < |u| ensures u[i] != u[j] {
      if i < |s| <= j {
        assert u[i] in s && u[j] in t;
      }
    }
  }

  lemma EmptyNoDup<T>()
    ensures NoDup<T>([])
  {
  }
}
