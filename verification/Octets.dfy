/** Byte strings under the storage engine's order, and the successor of a prefix. */
module Octets {
  type Byte = b: int | 0 <= b < 256 witness 0
  type Octets = seq<Byte>

  /** `a` comes before `b`, and the comparison is settled at a byte both of them have. */
  ghost predicate Below(a: Octets, b: Octets) {
    exists i: nat :: DiffersAt(a, b, i)
  }

  ghost predicate DiffersAt(a: Octets, b: Octets, i: nat) {
    i < |a| && i < |b| && a[..i] == b[..i] && a[i] < b[i]
  }

  /** The order of the key space: byte by byte, a proper prefix first. */
  ghost predicate Less(a: Octets, b: Octets) {
    Below(a, b) || a < b
  }

  ghost predicate AtMost(a: Octets, b: Octets) {
    a == b || Less(a, b)
  }

  ghost predicate PrefixFree(a: Octets, b: Octets) {
    !(a <= b) && !(b <= a)
  }

  lemma BelowAt(a: Octets, b: Octets, i: nat)
    requires i < |a| && i < |b| && a[..i] == b[..i] && a[i] < b[i]
    ensures Below(a, b)
  {
    assert DiffersAt(a, b, i);
  }

  /** A settled comparison ignores whatever follows. */
  lemma BelowExtends(a: Octets, b: Octets, s: Octets, t: Octets)
    requires Below(a, b)
    ensures Below(a + s, b + t)
  {
    var i: nat :| DiffersAt(a, b, i);
    assert (a + s)[..i] == a[..i] && (b + t)[..i] == b[..i];
    BelowAt(a + s, b + t, i);
  }

  lemma BelowUnderPrefix(p: Octets, a: Octets, b: Octets)
    requires Below(a, b)
    ensures Below(p + a, p + b)
  {
    var i: nat :| DiffersAt(a, b, i);
    assert (p + a)[..|p| + i] == p + a[..i] == p + b[..i] == (p + b)[..|p| + i];
    BelowAt(p + a, p + b, |p| + i);
  }

  lemma BelowIsPrefixFree(a: Octets, b: Octets)
    requires Below(a, b)
    ensures PrefixFree(a, b) && a != b
  {
    var i: nat :| DiffersAt(a, b, i);
  }

  lemma BelowAsymmetric(a: Octets, b: Octets)
    requires Below(a, b)
    ensures !Below(b, a)
  {
    var i: nat :| DiffersAt(a, b, i);
  }

  lemma LessAsymmetric(a: Octets, b: Octets)
    requires Less(a, b)
    ensures !Less(b, a) && a != b
  {
    if Below(a, b) {
      BelowIsPrefixFree(a, b);
      BelowAsymmetric(a, b);
    } else if Below(b, a) {
      BelowIsPrefixFree(b, a);
    }
  }

  lemma {:induction false} Trichotomy(a: Octets, b: Octets)
    ensures a == b || Below(a, b) || Below(b, a) || a < b || b < a
    decreases |a|
  {
    if a != [] && b != [] && a[0] == b[0] {
      Trichotomy(a[1..], b[1..]);
      assert a == [a[0]] + a[1..] && b == [b[0]] + b[1..];
      if Below(a[1..], b[1..]) { BelowUnderPrefix([a[0]], a[1..], b[1..]); }
      if Below(b[1..], a[1..]) { BelowUnderPrefix([a[0]], b[1..], a[1..]); }
    } else if a != [] && b != [] {
      if a[0] < b[0] { BelowAt(a, b, 0); } else { BelowAt(b, a, 0); }
    }
  }

  lemma LessTotal(a: Octets, b: Octets)
    ensures a == b || Less(a, b) || Less(b, a)
  {
    Trichotomy(a, b);
  }

  /** The comparison the storage engine computes. */
  function Precedes(a: Octets, b: Octets): (r: bool)
    ensures r <==> Less(a, b)
    decreases |a|
  {
    if b == [] then
      false
    else if a == [] then
      assert a < b; true
    else if a[0] != b[0] then
      FirstByteDecides(a, b);
      a[0] < b[0]
    else
      assert a == [a[0]] + a[1..] && b == [a[0]] + b[1..];
      SharedPrefixStrips([a[0]], a[1..], b[1..]);
      Precedes(a[1..], b[1..])
  }

  lemma FirstByteDecides(a: Octets, b: Octets)
    requires a != [] && b != [] && a[0] != b[0]
    ensures Less(a, b) <==> a[0] < b[0]
  {
    if a[0] < b[0] { BelowAt(a, b, 0); }
    if a[0] > b[0] { BelowAt(b, a, 0); LessAsymmetric(b, a); }
  }

  lemma LessTransitive(a: Octets, b: Octets, c: Octets)
    requires Less(a, b) && Less(b, c)
    ensures Less(a, c)
  {
    if Below(a, b) && Below(b, c) {
      var i: nat :| DiffersAt(a, b, i);
      var j: nat :| DiffersAt(b, c, j);
      var k := if i < j then i else j;
      assert a[..k] == a[..i][..k] == b[..i][..k] == b[..k] == b[..j][..k] == c[..j][..k] == c[..k];
      if i < j { assert b[..j][i] == c[..j][i]; }
      if j < i { assert a[..i][j] == b[..i][j]; }
      BelowAt(a, c, k);
    } else if Below(a, b) {
      BelowExtends(a, b, [], c[|b|..]);
      assert a + [] == a && b + c[|b|..] == c;
    } else if Below(b, c) {
      var j: nat :| DiffersAt(b, c, j);
      if j < |a| {
        assert a[..j] == b[..|a|][..j] == b[..j];
        BelowAt(a, c, j);
      } else {
        assert a == b[..|a|] == b[..j][..|a|] == c[..j][..|a|] == c[..|a|];
      }
    }
  }

  lemma AtMostTransitive(a: Octets, b: Octets, c: Octets)
    requires AtMost(a, b) && AtMost(b, c)
    ensures AtMost(a, c)
    ensures Less(a, b) || Less(b, c) ==> Less(a, c)
  {
    if a != b && b != c { LessTransitive(a, b, c); }
  }

  /** The strings starting with `p` form an interval of the order that begins at `p`. */
  lemma PrefixIsInterval(p: Octets, a: Octets, b: Octets)
    requires p <= b && AtMost(p, a) && AtMost(a, b)
    ensures p <= a
  {
    if !(p <= a) {
      Trichotomy(p, a);
      if Below(p, a) {
        BelowExtends(p, a, b[|p|..], []);
        assert p + b[|p|..] == b && a + [] == a;
        LessAsymmetric(b, a);
      } else {
        LessAsymmetric(p, a);
      }
    }
  }

  /** Two strings under prefix-free prefixes compare as their prefixes do. */
  lemma PrefixesDecide(p: Octets, q: Octets, a: Octets, b: Octets)
    requires Less(p, q) && PrefixFree(p, q) && p <= a && q <= b
    ensures Below(a, b)
  {
    BelowExtends(p, q, a[|p|..], b[|q|..]);
    assert p + a[|p|..] == a && q + b[|q|..] == b;
  }

  lemma SharedPrefixStrips(p: Octets, a: Octets, b: Octets)
    ensures Less(p + a, p + b) <==> Less(a, b)
    ensures p + a == p + b <==> a == b
  {
    assert (p + a)[|p|..] == a && (p + b)[|p|..] == b;
    Trichotomy(a, b);
    if Below(a, b) { BelowUnderPrefix(p, a, b); }
    if Below(b, a) { BelowUnderPrefix(p, b, a); LessAsymmetric(p + b, p + a); LessAsymmetric(b, a); }
    if a < b { assert p + a < p + b; }
    if b < a { assert p + b < p + a; LessAsymmetric(p + b, p + a); LessAsymmetric(b, a); }
  }

  datatype Option<+T> = None | Some(value: T)

  /** Everything from index `i` on is 0xFF. */
  ghost predicate AllMax(s: Octets, i: nat) {
    forall k :: i <= k < |s| ==> s[k] == 255
  }

  /** The last byte that can be incremented is at `i`; the successor is cut off after it. */
  ghost predicate Bumps(p: Octets, next: Octets, i: nat) {
    i < |p| && p[i] < 255 && AllMax(p, i + 1) && next == p[..i] + [p[i] + 1]
  }

  /** `next_prefix`: increment the last byte below 0xFF and truncate after it. */
  method NextPrefix(prefix: Octets) returns (next: Option<Octets>)
    ensures next.None? <==> AllMax(prefix, 0)
    ensures next.Some? ==> exists i: nat :: Bumps(prefix, next.value, i)
  {
    var i := |prefix|;
    while i > 0
      invariant 0 <= i <= |prefix|
      invariant AllMax(prefix, i)
    {
      i := i - 1;
      if prefix[i] < 255 {
        var bumped := prefix[..i] + [prefix[i] + 1];
        assert Bumps(prefix, bumped, i);
        return Some(bumped);
      }
    }
    return None;
  }

  /**
   * The successor is the exact upper end of the interval of strings starting with `p`:
   * a string at or after `p` is under `p` iff it comes before the successor.
   */
  lemma SuccessorEndsPrefix(p: Octets, next: Octets, s: Octets)
    requires exists i: nat :: Bumps(p, next, i)
    ensures Less(p, next)
    ensures AtMost(p, s) ==> (p <= s <==> Less(s, next))
  {
    var i: nat :| Bumps(p, next, i);
    assert p[..i] == next[..i] && p[i] < next[i];
    BelowAt(p, next, i);
    if p <= s {
      assert s[..i] == p[..i] && s[i] == p[i];
      BelowAt(s, next, i);
    } else if AtMost(p, s) && Less(s, next) {
      NoStringBetween(p, next, s, i);
    }
  }

  lemma NoStringBetween(p: Octets, next: Octets, s: Octets, i: nat)
    requires Bumps(p, next, i) && Less(p, s) && Less(s, next)
    ensures p <= s
  {
  }

  /** When no byte can be incremented, nothing outside the prefix comes after it. */
  lemma NoSuccessorMeansLast(p: Octets, s: Octets)
    requires AllMax(p, 0) && AtMost(p, s)
    ensures p <= s
  {
  }
}
