/** Ordered iteration over a set of byte strings. */
module Ordered {
  import opened Octets

  ghost predicate Sorted(keys: seq<Octets>) {
    forall i, j :: 0 <= i < j < |keys| ==> Less(keys[i], keys[j])
  }

  ghost predicate IsLeast(m: Octets, s: set<Octets>) {
    m in s && forall x :: x in s ==> AtMost(m, x)
  }

  lemma {:induction false} LeastExists(s: set<Octets>)
    requires s != {}
    ensures exists m :: IsLeast(m, s)
  {
    var x :| x in s;
    if s == {x} {
      assert IsLeast(x, s);
    } else {
      var r := s - {x};
      assert r != {} by { assert s == {x} + r; }
      LeastExists(r);
      var m :| IsLeast(m, r);
      LessTotal(m, x);
      if Less(x, m) {
        forall y | y in s ensures AtMost(x, y) { if y != x { AtMostTransitive(x, m, y); } }
        assert IsLeast(x, s);
      } else {
        assert IsLeast(m, s);
      }
    }
  }

  ghost function Least(s: set<Octets>): (m: Octets)
    requires s != {}
    ensures IsLeast(m, s)
  {
    LeastExists(s);
    var m :| IsLeast(m, s);
    m
  }

  /** The elements of `s`, each once, in ascending order. */
  ghost function SortedSeq(s: set<Octets>): (keys: seq<Octets>)
    ensures Sorted(keys) && |keys| == |s|
    ensures forall k :: k in keys <==> k in s
  {
    if s == {} then []
    else
      var m := Least(s);
      var rest := SortedSeq(s - {m});
      ConsSorted(m, rest, s);
      [m] + rest
  }

  lemma ConsSorted(m: Octets, rest: seq<Octets>, s: set<Octets>)
    requires IsLeast(m, s) && Sorted(rest)
    requires forall k :: k in rest <==> k in s - {m}
    ensures Sorted([m] + rest)
    ensures forall k :: k in [m] + rest <==> k in s
  {
    forall i, j | 0 <= i < j < |[m] + rest| ensures Less(([m] + rest)[i], ([m] + rest)[j]) {
      assert rest[j - 1] in rest;
    }
  }

  /** Enumerate a set in ascending order, the least element first. */
  method SortKeys(s: set<Octets>) returns (keys: seq<Octets>)
    ensures keys == SortedSeq(s)
  {
    keys := [];
    var rem := s;
    while rem != {}
      invariant Sorted(keys) && rem <= s
      invariant forall k :: k in keys <==> k in s - rem
      invariant forall k, x :: k in keys && x in rem ==> Less(k, x)
      decreases |rem|
    {
      var m := TakeLeast(rem);
      AppendLeast(keys, rem, m);
      keys, rem := keys + [m], rem - {m};
    }
    SortedUnique(keys, SortedSeq(s));
  }

  lemma AppendLeast(keys: seq<Octets>, rem: set<Octets>, m: Octets)
    requires Sorted(keys) && IsLeast(m, rem)
    requires forall k, x :: k in keys && x in rem ==> Less(k, x)
    ensures Sorted(keys + [m])
    ensures forall k, x :: k in keys + [m] && x in rem - {m} ==> Less(k, x)
  {
    forall i, j | 0 <= i < j < |keys + [m]| ensures Less((keys + [m])[i], (keys + [m])[j]) {
      assert keys[i] in keys;
    }
  }

  method TakeLeast(s: set<Octets>) returns (m: Octets)
    requires s != {}
    ensures IsLeast(m, s)
  {
    m :| m in s;
    var todo := s - {m};
    while todo != {}
      invariant m in s && todo <= s
      invariant forall x :: x in s - todo ==> AtMost(m, x)
      decreases |todo|
    {
      var x :| x in todo;
      if Precedes(x, m) {
        forall y | y in s - todo ensures AtMost(x, y) { AtMostTransitive(x, m, y); }
        m := x;
      } else {
        LessTotal(x, m);
      }
      todo := todo - {x};
    }
  }

  /** An ordered enumeration of a set is unique. */
  lemma {:induction false} SortedUnique(a: seq<Octets>, b: seq<Octets>)
    requires Sorted(a) && Sorted(b)
    requires forall k :: k in a <==> k in b
    ensures a == b
  {
    if a != [] { assert a[0] in b; }
    if b != [] { assert b[0] in a; }
    if a != [] && b != [] {
      if a[0] != b[0] {
        LessAsymmetric(a[0], b[0]);
      }
      assert a == [a[0]] + a[1..] && b == [b[0]] + b[1..];
      forall k ensures k in a[1..] <==> k in b[1..] {
        TailMembers(a, k);
        TailMembers(b, k);
      }
      SortedUnique(a[1..], b[1..]);
    }
  }

  lemma TailMembers(a: seq<Octets>, k: Octets)
    requires Sorted(a) && a != []
    ensures k in a[1..] <==> k in a && k != a[0]
  {
    assert a == [a[0]] + a[1..];
    if k in a[1..] {
      var i :| 0 <= i < |a| - 1 && a[1..][i] == k;
      LessAsymmetric(a[0], a[i + 1]);
    }
  }
}
