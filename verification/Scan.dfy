/** Forward-only scans over temporal index keys: latest entry per group, dead groups skipped. */
module Scan {
  import opened Octets
  import opened Ordered

  /** tx_eid (8 bytes) and op (1 byte) at the end of every temporal key. */
  const TX_EID_OP_SUFFIX := 9
  const ADD: Byte := 0
  const RETRACT: Byte := 1

  function Logical(k: Octets): Octets
    requires |k| >= TX_EID_OP_SUFFIX
  {
    k[..|k| - TX_EID_OP_SUFFIX]
  }

  /** Keys are long enough, and the keys under one's logical part are exactly its group. */
  ghost predicate Grouped(keys: seq<Octets>) {
    && (forall i :: 0 <= i < |keys| ==> |keys[i]| >= TX_EID_OP_SUFFIX)
    && (forall i, j :: 0 <= i < |keys| && 0 <= j < |keys| && Logical(keys[i]) <= keys[j] ==>
          |keys[i]| == |keys[j]|)
  }

  ghost predicate Ordinary(keys: seq<Octets>) {
    Sorted(keys) && Grouped(keys)
  }

  /** `prefix` ends inside the logical part of every key under it. */
  ghost predicate Aligned(keys: seq<Octets>, prefix: Octets) {
    forall i :: 0 <= i < |keys| && prefix <= keys[i] ==> |prefix| + TX_EID_OP_SUFFIX <= |keys[i]|
  }

  /** The key at `i` is the first, hence latest, of its group. */
  ghost predicate Head(keys: seq<Octets>, i: nat)
    requires Grouped(keys) && i < |keys|
  {
    forall j :: 0 <= j < i ==> Logical(keys[j]) != Logical(keys[i])
  }

  ghost predicate LiveHead(keys: seq<Octets>, i: nat)
    requires Grouped(keys) && i < |keys|
  {
    Head(keys, i) && keys[i][|keys[i]| - 1] != RETRACT
  }

  /** What a full scan of its own would find: the first live group under `prefix`, or that there is none. */
  ghost predicate FirstLive(keys: seq<Octets>, prefix: Octets, r: Option<Octets>)
    requires Grouped(keys)
  {
    match r
    case None => forall i :: 0 <= i < |keys| && prefix <= keys[i] ==> !LiveHead(keys, i)
    case Some(k) =>
      exists i :: 0 <= i < |keys| && keys[i] == k && prefix <= k && LiveHead(keys, i) &&
                  forall j :: 0 <= j < i && prefix <= keys[j] ==> !LiveHead(keys, j)
  }

  /** No key under `prefix` lies before `pos`. */
  ghost predicate Unpassed(keys: seq<Octets>, pos: nat, prefix: Octets) {
    forall i :: 0 <= i < pos && i < |keys| ==> !(prefix <= keys[i])
  }

  /** Everything before `pos` is below `prefix` or under it. */
  ghost predicate WithinReach(keys: seq<Octets>, pos: nat, prefix: Octets) {
    forall i :: 0 <= i < pos && i < |keys| ==> Less(keys[i], prefix) || prefix <= keys[i]
  }

  /** `pos` does not split a group of keys under `prefix`. */
  ghost predicate Boundary(keys: seq<Octets>, pos: nat, prefix: Octets)
    requires Grouped(keys)
  {
    forall i, j :: 0 <= i < pos <= j < |keys| && prefix <= keys[i] && prefix <= keys[j] ==>
      Logical(keys[i]) != Logical(keys[j])
  }

  /** Every group under `prefix` before `pos` is dead. */
  ghost predicate AllDead(keys: seq<Octets>, pos: nat, prefix: Octets)
    requires Grouped(keys)
  {
    forall i :: 0 <= i < pos && i < |keys| && prefix <= keys[i] ==> !LiveHead(keys, i)
  }

  /** `SlateKeyIterator`: a cursor that only moves forward over an ordered key range. */
  class KeyIterator {
    const keys: seq<Octets>
    var pos: nat

    ghost predicate Valid()
      reads this
    {
      Sorted(keys) && pos <= |keys|
    }

    constructor (keys: seq<Octets>)
      requires Sorted(keys)
      ensures Valid() && this.keys == keys && pos == 0
    {
      this.keys := keys;
      pos := 0;
    }

    function Peek(): Option<Octets>
      requires Valid()
      reads this
    {
      if pos < |keys| then Some(keys[pos]) else None
    }

    /** Move to the first key at or after both the cursor and `target`. */
    method Seek(target: Octets)
      requires Valid()
      modifies this
      ensures Valid() && old(pos) <= pos
      ensures forall i :: old(pos) <= i < pos ==> Less(keys[i], target)
      ensures pos < |keys| ==> !Less(keys[pos], target)
    {
      while pos < |keys| && Precedes(keys[pos], target)
        invariant Valid() && old(pos) <= pos
        invariant forall i :: old(pos) <= i < pos ==> Less(keys[i], target)
      {
        pos := pos + 1;
      }
    }
  }

  /** Once a key at or after `prefix` is not under it, no later key is. */
  lemma PastPrefix(keys: seq<Octets>, prefix: Octets, p: nat, j: nat)
    requires Sorted(keys) && p <= j < |keys|
    requires !Less(keys[p], prefix) && !(prefix <= keys[p])
    ensures !(prefix <= keys[j])
  {
    LessTotal(keys[p], prefix);
    if prefix <= keys[j] && p < j {
      PrefixIsInterval(prefix, keys[p], keys[j]);
    }
  }

  /** Keys from a group head up to the successor of its logical part are exactly the rest of the group. */
  lemma SkippedAreGroup(keys: seq<Octets>, p: nat, next: Octets, i: nat)
    requires Ordinary(keys) && p <= i < |keys|
    requires exists b: nat :: Bumps(Logical(keys[p]), next, b)
    ensures Less(keys[i], next) <==> Logical(keys[i]) == Logical(keys[p])
  {
    var l := Logical(keys[p]);
    assert l <= keys[p];
    assert AtMost(l, keys[p]) by { assert l < keys[p]; }
    assert AtMost(l, keys[i]) by { if p < i { AtMostTransitive(l, keys[p], keys[i]); } }
    SuccessorEndsPrefix(l, next, keys[i]);
    assert l <= keys[i] ==> |keys[p]| == |keys[i]|;
  }

  /** Seeking past a group from its head steps over exactly that group. */
  lemma SkipGroup(keys: seq<Octets>, prefix: Octets, p: nat, next: Octets, p': nat)
    requires Ordinary(keys) && p < |keys| && p <= p' <= |keys|
    requires prefix <= keys[p] && Boundary(keys, p, prefix) && Aligned(keys, prefix)
    requires exists b: nat :: Bumps(Logical(keys[p]), next, b)
    requires forall i :: p <= i < p' ==> Less(keys[i], next)
    requires p' < |keys| ==> !Less(keys[p'], next)
    ensures p < p' && Boundary(keys, p', prefix)
    ensures forall i :: p <= i < p' ==> prefix <= keys[i]
    ensures forall i :: p < i < p' ==> !Head(keys, i)
  {
    var l := Logical(keys[p]);
    forall i | p <= i < |keys| ensures Less(keys[i], next) <==> Logical(keys[i]) == l {
      SkippedAreGroup(keys, p, next, i);
    }
    forall i | p <= i < p' ensures prefix <= keys[i] && (i > p ==> !Head(keys, i)) {
      assert Logical(keys[i]) == l;
      assert prefix <= l;
    }
    forall j | p' <= j < |keys| ensures Logical(keys[j]) != l {
      if j > p' && Less(keys[j], next) { LessTransitive(keys[p'], keys[j], next); }
    }
  }

  /** The state of a scan under `prefix`: at or past its start, everything behind settled. */
  ghost predicate Scanning(keys: seq<Octets>, pos: nat, prefix: Octets) {
    && Ordinary(keys) && Aligned(keys, prefix) && pos <= |keys|
    && (pos < |keys| ==> !Less(keys[pos], prefix))
    && Boundary(keys, pos, prefix) && WithinReach(keys, pos, prefix)
  }

  lemma StartScan(keys: seq<Octets>, from: nat, pos: nat, prefix: Octets)
    requires Ordinary(keys) && Aligned(keys, prefix) && from <= pos <= |keys|
    requires Unpassed(keys, from, prefix) && WithinReach(keys, from, prefix)
    requires forall i :: from <= i < pos ==> Less(keys[i], prefix)
    requires pos < |keys| ==> !Less(keys[pos], prefix)
    ensures Scanning(keys, pos, prefix) && Unpassed(keys, pos, prefix)
  {
    forall i | 0 <= i < pos ensures !(prefix <= keys[i]) {
      if prefix <= keys[i] { LessAsymmetric(keys[i], prefix); }
    }
  }

  lemma ScanEnds(keys: seq<Octets>, pos: nat, prefix: Octets)
    requires Scanning(keys, pos, prefix)
    requires pos < |keys| ==> !(prefix <= keys[pos])
    ensures forall j :: pos <= j < |keys| ==> !(prefix <= keys[j])
  {
    forall j | pos <= j < |keys| ensures !(prefix <= keys[j]) { PastPrefix(keys, prefix, pos, j); }
  }

  lemma ScanFinds(keys: seq<Octets>, p: nat, prefix: Octets)
    requires Scanning(keys, p, prefix) && p < |keys| && prefix <= keys[p]
    requires AllDead(keys, p, prefix) && keys[p][|keys[p]| - 1] != RETRACT
    ensures FirstLive(keys, prefix, Some(keys[p]))
  {
    HeadAtCursor(keys, p, prefix);
  }

  lemma ScanSkips(keys: seq<Octets>, prefix: Octets, p: nat, next: Octets, p': nat)
    requires Scanning(keys, p, prefix) && p < |keys| && p <= p' <= |keys|
    requires prefix <= keys[p]
    requires exists b: nat :: Bumps(Logical(keys[p]), next, b)
    requires forall i :: p <= i < p' ==> Less(keys[i], next)
    requires p' < |keys| ==> !Less(keys[p'], next)
    ensures p < p' && Scanning(keys, p', prefix)
    ensures Head(keys, p) && forall i :: p < i < p' ==> !Head(keys, i)
  {
    HeadAtCursor(keys, p, prefix);
    SkipGroup(keys, prefix, p, next, p');
    if p' < |keys| { StillPastStart(keys, prefix, p, p'); }
  }

  // The exits and the step of the search for a first live key.

  ghost predicate Searching(keys: seq<Octets>, pos: nat, prefix: Octets) {
    Scanning(keys, pos, prefix) && AllDead(keys, pos, prefix)
  }

  lemma SearchEnds(keys: seq<Octets>, pos: nat, prefix: Octets)
    requires Searching(keys, pos, prefix) && (pos < |keys| ==> !(prefix <= keys[pos]))
    ensures FirstLive(keys, prefix, None)
  {
    ScanEnds(keys, pos, prefix);
  }

  lemma SearchRunsOut(keys: seq<Octets>, p: nat, prefix: Octets)
    requires Searching(keys, p, prefix) && p < |keys| && prefix <= keys[p]
    requires keys[p][|keys[p]| - 1] == RETRACT && AllMax(Logical(keys[p]), 0)
    ensures FirstLive(keys, prefix, None)
  {
    LastGroup(keys, prefix, p);
  }

  lemma SearchSkips(keys: seq<Octets>, prefix: Octets, p: nat, next: Octets, p': nat)
    requires Searching(keys, p, prefix) && p < |keys| && p <= p' <= |keys|
    requires prefix <= keys[p] && keys[p][|keys[p]| - 1] == RETRACT
    requires exists b: nat :: Bumps(Logical(keys[p]), next, b)
    requires forall i :: p <= i < p' ==> Less(keys[i], next)
    requires p' < |keys| ==> !Less(keys[p'], next)
    ensures p < p' && Searching(keys, p', prefix)
  {
    ScanSkips(keys, prefix, p, next, p');
  }

  /** `find_live_key_under_prefix`. */
  method FindLiveKeyUnderPrefix(iter: KeyIterator, prefix: Octets) returns (r: Option<Octets>)
    requires iter.Valid() && Ordinary(iter.keys) && Aligned(iter.keys, prefix)
    requires Unpassed(iter.keys, iter.pos, prefix) && WithinReach(iter.keys, iter.pos, prefix)
    modifies iter
    ensures iter.Valid()
    ensures FirstLive(iter.keys, prefix, r)
    ensures WithinReach(iter.keys, iter.pos, prefix)
  {
    hide Ordinary, Head, LiveHead, FirstLive, Less, AtMost;
    ghost var keys, from := iter.keys, iter.pos;
    iter.Seek(prefix);
    StartScan(keys, from, iter.pos, prefix);
    while true
      invariant iter.Valid() && Searching(keys, iter.pos, prefix)
      decreases |keys| - iter.pos
    {
      ghost var p := iter.pos;
      var peeked := iter.Peek();
      if peeked.None? || !(prefix <= peeked.value) {
        SearchEnds(keys, p, prefix);
        return None;
      }
      var key := peeked.value;
      if key[|key| - 1] != RETRACT {
        ScanFinds(keys, p, prefix);
        return Some(key);
      }
      var next := NextPrefix(Logical(key));
      if next.None? {
        SearchRunsOut(keys, p, prefix);
        return None;
      }
      iter.Seek(next.value);
      SearchSkips(keys, prefix, p, next.value, iter.pos);
    }
  }

  lemma HeadAtCursor(keys: seq<Octets>, p: nat, prefix: Octets)
    requires Ordinary(keys) && p < |keys| && Aligned(keys, prefix)
    requires Boundary(keys, p, prefix) && prefix <= keys[p]
    ensures Head(keys, p)
  {
    forall i | 0 <= i < p ensures Logical(keys[i]) != Logical(keys[p]) {
      assert prefix <= Logical(keys[p]);
    }
  }

  lemma StillPastStart(keys: seq<Octets>, prefix: Octets, p: nat, p': nat)
    requires Sorted(keys) && p <= p' < |keys| && prefix <= keys[p]
    ensures !Less(keys[p'], prefix)
  {
    if Less(keys[p'], prefix) {
      assert AtMost(prefix, keys[p]);
      if p < p' { AtMostTransitive(prefix, keys[p], keys[p']); LessAsymmetric(keys[p'], prefix); }
      else { LessAsymmetric(keys[p'], prefix); }
    }
  }

  /** With no successor, everything from the cursor on belongs to the group at the cursor. */
  lemma LastGroup(keys: seq<Octets>, prefix: Octets, p: nat)
    requires Ordinary(keys) && p < |keys| && Aligned(keys, prefix) && prefix <= keys[p]
    requires AllMax(Logical(keys[p]), 0)
    ensures forall i :: p < i < |keys| ==> !Head(keys, i) && prefix <= keys[i]
  {
    var l := Logical(keys[p]);
    forall i | p < i < |keys| ensures !Head(keys, i) && prefix <= keys[i] {
      assert l <= keys[p] && l < keys[p];
      AtMostTransitive(l, keys[p], keys[i]);
      NoSuccessorMeansLast(l, keys[i]);
      assert Logical(keys[i]) == l && prefix <= l;
    }
  }

  // --- One pass over many prefixes -------------------------------------------------------

  /** Ascending prefixes, none of which extends another. */
  ghost predicate Disjoint(prefixes: seq<Octets>) {
    forall i, j :: 0 <= i < j < |prefixes| ==> Less(prefixes[i], prefixes[j]) && PrefixFree(prefixes[i], prefixes[j])
  }

  lemma NextPrefixUntouched(keys: seq<Octets>, pos: nat, p: Octets, q: Octets)
    requires WithinReach(keys, pos, p) && Less(p, q) && PrefixFree(p, q)
    ensures Unpassed(keys, pos, q) && WithinReach(keys, pos, q)
  {
    forall i | 0 <= i < pos && i < |keys| ensures !(q <= keys[i]) && Less(keys[i], q) {
      if p <= keys[i] {
        PrefixesDecide(p, q, keys[i], q);
      } else {
        LessTransitive(keys[i], p, q);
        if q <= keys[i] { LessAsymmetric(keys[i], q); }
      }
    }
  }

  /** None of the prefixes from the `n`th on has been touched. */
  ghost predicate Ahead(keys: seq<Octets>, pos: nat, prefixes: seq<Octets>, n: nat) {
    forall j :: n <= j < |prefixes| ==> Unpassed(keys, pos, prefixes[j]) && WithinReach(keys, pos, prefixes[j])
  }

  ghost predicate Answered(keys: seq<Octets>, prefixes: seq<Octets>, found: seq<Option<Octets>>)
    requires Grouped(keys)
  {
    |found| <= |prefixes| && forall i :: 0 <= i < |found| ==> FirstLive(keys, prefixes[i], found[i])
  }

  lemma AheadStep(keys: seq<Octets>, pos: nat, prefixes: seq<Octets>, n: nat)
    requires Disjoint(prefixes) && n < |prefixes| && WithinReach(keys, pos, prefixes[n])
    ensures Ahead(keys, pos, prefixes, n + 1)
  {
    forall j | n < j < |prefixes|
      ensures Unpassed(keys, pos, prefixes[j]) && WithinReach(keys, pos, prefixes[j])
    {
      NextPrefixUntouched(keys, pos, prefixes[n], prefixes[j]);
    }
  }

  /** Once the range is exhausted nothing is left under any later prefix. */
  lemma RestEmpty(keys: seq<Octets>, prefixes: seq<Octets>, found: seq<Option<Octets>>, all: seq<Option<Octets>>)
    requires Grouped(keys) && Answered(keys, prefixes, found) && Ahead(keys, |keys|, prefixes, |found|)
    requires |all| == |prefixes| && all[..|found|] == found
    requires forall j :: |found| <= j < |all| ==> all[j] == None
    ensures Answered(keys, prefixes, all)
  {
    forall i | 0 <= i < |all| ensures FirstLive(keys, prefixes[i], all[i]) {
      if i < |found| { assert all[i] == found[i]; }
    }
  }

  /**
   * The pass behind unique lookups and old-value lookups: one forward cursor, the prefixes in
   * ascending order, stopping early when the range is exhausted. Every answer is what a scan of
   * its own would give.
   */
  method BatchFind(keys: seq<Octets>, prefixes: seq<Octets>) returns (found: seq<Option<Octets>>)
    requires Ordinary(keys) && Disjoint(prefixes)
    requires forall q :: q in prefixes ==> Aligned(keys, q)
    ensures |found| == |prefixes|
    ensures forall i :: 0 <= i < |prefixes| ==> FirstLive(keys, prefixes[i], found[i])
  {
    found := [];
    var iter := new KeyIterator(keys);
    while |found| < |prefixes|
      invariant iter.Valid() && iter.keys == keys && fresh(iter)
      invariant Answered(keys, prefixes, found) && Ahead(keys, iter.pos, prefixes, |found|)
    {
      ghost var n := |found|;
      assert prefixes[n] in prefixes;
      var r := FindLiveKeyUnderPrefix(iter, prefixes[|found|]);
      AheadStep(keys, iter.pos, prefixes, n);
      found := found + [r];
      if r.None? && iter.Peek().None? {
        var all := found + seq(|prefixes| - |found|, _ => None);
        RestEmpty(keys, prefixes, found, all);
        return all;
      }
    }
  }

  // --- All live groups under many prefixes -----------------------------------------------

  /** `out` lists the live heads under `prefix` that lie before `pos`, in key order. */
  ghost predicate Collected(keys: seq<Octets>, pos: nat, prefix: Octets, out: seq<Octets>)
    requires Grouped(keys)
  {
    && Sorted(out)
    && (forall k :: k in out ==> LiveKey(keys, pos, prefix, k))
    && (forall i :: 0 <= i < pos && i < |keys| && prefix <= keys[i] && LiveHead(keys, i) ==> keys[i] in out)
  }

  /** `k` is the latest entry of a live group under `prefix`, found before `pos`. */
  ghost predicate LiveKey(keys: seq<Octets>, pos: nat, prefix: Octets, k: Octets)
    requires Grouped(keys)
  {
    exists i :: 0 <= i < pos && i < |keys| && keys[i] == k && prefix <= k && LiveHead(keys, i)
  }

  lemma SortedAppend(out: seq<Octets>, k: Octets)
    requires Sorted(out) && forall x :: x in out ==> Less(x, k)
    ensures Sorted(out + [k])
  {
    forall i, j | 0 <= i < j < |out + [k]| ensures Less((out + [k])[i], (out + [k])[j]) {
      assert out[i] in out;
    }
  }

  lemma CollectStep(keys: seq<Octets>, p: nat, p': nat, prefix: Octets, out: seq<Octets>, out': seq<Octets>)
    requires Ordinary(keys) && p < p' <= |keys| && prefix <= keys[p]
    requires Collected(keys, p, prefix, out) && Head(keys, p)
    requires forall i :: p < i < p' ==> !Head(keys, i)
    requires out' == if keys[p][|keys[p]| - 1] == RETRACT then out else out + [keys[p]]
    ensures Collected(keys, p', prefix, out')
  {
    if keys[p][|keys[p]| - 1] == RETRACT {
      CollectDead(keys, p, p', prefix, out);
    } else {
      CollectLive(keys, p, p', prefix, out);
    }
  }

  lemma CollectDead(keys: seq<Octets>, p: nat, p': nat, prefix: Octets, out: seq<Octets>)
    requires Ordinary(keys) && p < p' <= |keys| && Collected(keys, p, prefix, out)
    requires forall i :: p < i < p' ==> !Head(keys, i)
    requires keys[p][|keys[p]| - 1] == RETRACT
    ensures Collected(keys, p', prefix, out)
  {
    OlderKeys(keys, p, p', prefix, out);
    forall i | 0 <= i < p' && prefix <= keys[i] && LiveHead(keys, i) ensures keys[i] in out { assert i < p; }
  }

  lemma CollectLive(keys: seq<Octets>, p: nat, p': nat, prefix: Octets, out: seq<Octets>)
    requires Ordinary(keys) && p < p' <= |keys| && Collected(keys, p, prefix, out)
    requires forall i :: p < i < p' ==> !Head(keys, i)
    requires prefix <= keys[p] && LiveHead(keys, p)
    ensures Collected(keys, p', prefix, out + [keys[p]])
  {
    OlderKeys(keys, p, p', prefix, out);
    SortedAppend(out, keys[p]);
    forall i | 0 <= i < p' && prefix <= keys[i] && LiveHead(keys, i) ensures keys[i] in out + [keys[p]] {
      if i < p { assert keys[i] in out; } else { assert i == p; }
    }
  }

  lemma OlderKeys(keys: seq<Octets>, p: nat, p': nat, prefix: Octets, out: seq<Octets>)
    requires Ordinary(keys) && p < p' <= |keys| && Collected(keys, p, prefix, out)
    ensures forall k :: k in out ==> Less(k, keys[p]) && LiveKey(keys, p', prefix, k)
  {
    forall k | k in out ensures Less(k, keys[p]) && LiveKey(keys, p', prefix, k) {
      var i :| 0 <= i < p && keys[i] == k && prefix <= k && LiveHead(keys, i);
    }
  }

  // The exit and the step of the collection under one prefix.

  ghost predicate Collecting(keys: seq<Octets>, pos: nat, prefix: Octets, out: seq<Octets>) {
    Scanning(keys, pos, prefix) && Collected(keys, pos, prefix, out)
  }

  lemma StartCollect(keys: seq<Octets>, from: nat, pos: nat, prefix: Octets)
    requires Ordinary(keys) && Aligned(keys, prefix) && from <= pos <= |keys|
    requires Unpassed(keys, from, prefix) && WithinReach(keys, from, prefix)
    requires forall i :: from <= i < pos ==> Less(keys[i], prefix)
    requires pos < |keys| ==> !Less(keys[pos], prefix)
    ensures Collecting(keys, pos, prefix, [])
  {
    StartScan(keys, from, pos, prefix);
  }

  lemma CollectSkips(keys: seq<Octets>, prefix: Octets, p: nat, next: Octets, p': nat, out: seq<Octets>,
                     out': seq<Octets>)
    requires Collecting(keys, p, prefix, out) && p < |keys| && p <= p' <= |keys| && prefix <= keys[p]
    requires exists b: nat :: Bumps(Logical(keys[p]), next, b)
    requires forall i :: p <= i < p' ==> Less(keys[i], next)
    requires p' < |keys| ==> !Less(keys[p'], next)
    requires out' == if keys[p][|keys[p]| - 1] == RETRACT then out else out + [keys[p]]
    ensures p < p' && Collecting(keys, p', prefix, out')
  {
    ScanSkips(keys, prefix, p, next, p');
    CollectStep(keys, p, p', prefix, out, out');
  }

  lemma CollectRunsOut(keys: seq<Octets>, prefix: Octets, p: nat, out: seq<Octets>, out': seq<Octets>)
    requires Collecting(keys, p, prefix, out) && p < |keys| && prefix <= keys[p]
    requires AllMax(Logical(keys[p]), 0)
    requires out' == if keys[p][|keys[p]| - 1] == RETRACT then out else out + [keys[p]]
    ensures Collected(keys, |keys|, prefix, out')
    ensures forall i :: p <= i < |keys| ==> prefix <= keys[i]
  {
    LastGroup(keys, prefix, p);
    HeadAtCursor(keys, p, prefix);
    CollectStep(keys, p, |keys|, prefix, out, out');
  }

  lemma CollectEnds(keys: seq<Octets>, pos: nat, prefix: Octets, out: seq<Octets>)
    requires Collecting(keys, pos, prefix, out) && (pos < |keys| ==> !(prefix <= keys[pos]))
    ensures Collected(keys, |keys|, prefix, out)
  {
    ScanEnds(keys, pos, prefix);
    CollectedToEnd(keys, pos, prefix, out);
  }

  /** The inner loop of the entity scan: every live key under one prefix. */
  method CollectUnderPrefix(iter: KeyIterator, prefix: Octets) returns (out: seq<Octets>, exhausted: bool)
    requires iter.Valid() && Ordinary(iter.keys) && Aligned(iter.keys, prefix)
    requires Unpassed(iter.keys, iter.pos, prefix) && WithinReach(iter.keys, iter.pos, prefix)
    modifies iter
    ensures iter.Valid()
    ensures Collected(iter.keys, |iter.keys|, prefix, out)
    ensures WithinReach(iter.keys, iter.pos, prefix)
    ensures exhausted ==> forall i :: iter.pos <= i < |iter.keys| ==> prefix <= iter.keys[i]
  {
    hide Ordinary, Head, LiveHead, Collected, Less, AtMost;
    ghost var keys, from := iter.keys, iter.pos;
    iter.Seek(prefix);
    StartCollect(keys, from, iter.pos, prefix);
    out, exhausted := [], false;
    while iter.Peek().Some? && prefix <= iter.Peek().value
      invariant iter.Valid() && Collecting(keys, iter.pos, prefix, out)
      decreases |keys| - iter.pos
    {
      ghost var p, before := iter.pos, out;
      var key := iter.Peek().value;
      var next := NextPrefix(Logical(key));
      if key[|key| - 1] != RETRACT { out := out + [key]; }
      if next.None? {
        CollectRunsOut(keys, prefix, p, before, out);
        return out, true;
      }
      iter.Seek(next.value);
      CollectSkips(keys, prefix, p, next.value, iter.pos, before, out);
    }
    CollectEnds(keys, iter.pos, prefix, out);
  }

  lemma CollectedToEnd(keys: seq<Octets>, pos: nat, prefix: Octets, out: seq<Octets>)
    requires Grouped(keys) && Collected(keys, pos, prefix, out)
    requires forall j :: pos <= j < |keys| ==> !(prefix <= keys[j])
    ensures Collected(keys, |keys|, prefix, out)
  {
    forall k | k in out ensures LiveKey(keys, |keys|, prefix, k) {
      var i :| 0 <= i < pos && i < |keys| && keys[i] == k && prefix <= k && LiveHead(keys, i);
    }
  }

  /** `k` is the latest entry of a live group under one of the first `n` prefixes. */
  ghost predicate LiveUnderSome(keys: seq<Octets>, prefixes: seq<Octets>, n: nat, k: Octets)
    requires Grouped(keys)
  {
    exists j :: 0 <= j < n && j < |prefixes| && LiveKey(keys, |keys|, prefixes[j], k)
  }

  /**
   * `batch_lookup_active_entity_datoms`, on keys: one forward cursor over ascending entity
   * prefixes. The result is exactly the live keys under the prefixes, each once, in key order.
   */
  method BatchCollect(keys: seq<Octets>, prefixes: seq<Octets>) returns (out: seq<Octets>)
    requires Ordinary(keys) && Disjoint(prefixes)
    requires forall q :: q in prefixes ==> Aligned(keys, q)
    ensures Sorted(out)
    ensures forall k :: k in out <==> LiveUnderSome(keys, prefixes, |prefixes|, k)
  {
    out := [];
    var iter := new KeyIterator(keys);
    var n := 0;
    while n < |prefixes|
      invariant iter.Valid() && iter.keys == keys && fresh(iter)
      invariant n <= |prefixes| && Sorted(out)
      invariant forall k :: k in out <==> LiveUnderSome(keys, prefixes, n, k)
      invariant Ahead(keys, iter.pos, prefixes, n)
    {
      assert prefixes[n] in prefixes;
      var part, exhausted := CollectUnderPrefix(iter, prefixes[n]);
      AheadStep(keys, iter.pos, prefixes, n);
      JoinParts(keys, prefixes, n, out, part);
      out := out + part;
      n := n + 1;
      if exhausted {
        NothingElsewhere(keys, prefixes, n, iter.pos);
        return;
      }
    }
  }

  lemma JoinParts(keys: seq<Octets>, prefixes: seq<Octets>, n: nat, out: seq<Octets>, part: seq<Octets>)
    requires Ordinary(keys) && Disjoint(prefixes) && n < |prefixes| && Sorted(out)
    requires forall k :: k in out <==> LiveUnderSome(keys, prefixes, n, k)
    requires Collected(keys, |keys|, prefixes[n], part)
    ensures Sorted(out + part)
    ensures forall k :: k in out + part <==> LiveUnderSome(keys, prefixes, n + 1, k)
  {
    forall a, b | a in out && b in part ensures Less(a, b) {
      var j :| 0 <= j < n && LiveKey(keys, |keys|, prefixes[j], a);
      assert LiveKey(keys, |keys|, prefixes[n], b);
      PrefixesDecide(prefixes[j], prefixes[n], a, b);
    }
    forall i, j | 0 <= i < j < |out + part| ensures Less((out + part)[i], (out + part)[j]) {
      if i < |out| <= j { assert out[i] in out && part[j - |out|] in part; }
    }
    forall k ensures k in out + part <==> LiveUnderSome(keys, prefixes, n + 1, k) {
      if LiveUnderSome(keys, prefixes, n + 1, k) {
        var j :| 0 <= j < n + 1 && LiveKey(keys, |keys|, prefixes[j], k);
        if j < n { assert LiveUnderSome(keys, prefixes, n, k); }
      }
      if k in part { assert LiveKey(keys, |keys|, prefixes[n], k); }
    }
  }

  lemma NothingElsewhere(keys: seq<Octets>, prefixes: seq<Octets>, n: nat, pos: nat)
    requires Ordinary(keys) && Disjoint(prefixes) && 0 < n <= |prefixes|
    requires forall i :: pos <= i < |keys| ==> prefixes[n - 1] <= keys[i]
    requires forall j :: n <= j < |prefixes| ==> Unpassed(keys, pos, prefixes[j])
    ensures forall k :: LiveUnderSome(keys, prefixes, |prefixes|, k) <==> LiveUnderSome(keys, prefixes, n, k)
  {
    forall k | LiveUnderSome(keys, prefixes, |prefixes|, k) ensures LiveUnderSome(keys, prefixes, n, k) {
      var j :| 0 <= j < |prefixes| && LiveKey(keys, |keys|, prefixes[j], k);
      if j >= n {
        assert false;
      }
    }
  }
}
