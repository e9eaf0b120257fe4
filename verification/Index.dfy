/** Index keys of facts: layout, order, parsing, fixed-offset extraction and the batch writer. */
module Index {
  import opened Octets
  import opened Ordered
  import opened Values
  import opened Encode
  import opened Decode
  import opened Scan
  import opened Facts

  /** The temporal covering indexes; the unique-only one is last. */
  datatype Idx = EAV | AVE | AEV | VAE

  function IndexByte(x: Idx): Byte {
    match x case EAV => 0 case AVE => 1 case AEV => 2 case VAE => 5
  }

  function EncE(e: I64): (s: Octets)
    ensures |s| == 9
  {
    assert Payload(Long(e)) == EncI64(e);
    Enc(Long(e))
  }

  function OpByte(op: Op): Byte { if op.Assert? then ADD else RETRACT }

  function Suffix(tx: I64, op: Op): (s: Octets)
    ensures |s| == TX_EID_OP_SUFFIX
  {
    EncI64(tx) + [OpByte(op)]
  }

  /** The three components in index order. */
  function Body(x: Idx, e: I64, a: I64, v: DataType): Octets {
    match x
    case EAV => EncE(e) + (EncI64(a) + Enc(v))
    case AVE => EncI64(a) + (Enc(v) + EncE(e))
    case AEV => EncI64(a) + (EncE(e) + Enc(v))
    case VAE => Enc(v) + (EncI64(a) + EncE(e))
  }

  function LogicalKey(x: Idx, e: I64, a: I64, v: DataType): Octets {
    [IndexByte(x)] + Body(x, e, a, v)
  }

  function Key(x: Idx, f: Fact): (k: Octets)
    ensures |k| >= TX_EID_OP_SUFFIX && Logical(k) == LogicalKey(x, f.e, f.a, f.v)
    ensures k[|k| - 1] == OpByte(f.op) && k[0] == IndexByte(x)
  {
    LogicalKey(x, f.e, f.a, f.v) + Suffix(f.tx, f.op)
  }

  // --- Keys determine their facts --------------------------------------------------------

  lemma I64Splits(x: I64, y: I64, s: Octets, t: Octets)
    requires EncI64(x) + s == EncI64(y) + t
    ensures x == y && s == t
  {
    assert EncI64(x) == (EncI64(x) + s)[..8] && EncI64(y) == (EncI64(y) + t)[..8];
    assert s == (EncI64(x) + s)[8..] && t == (EncI64(y) + t)[8..];
    if x > y { I64Order(x, y); BelowIsPrefixFree(EncI64(x), EncI64(y)); }
    if y > x { I64Order(y, x); BelowIsPrefixFree(EncI64(y), EncI64(x)); }
  }

  lemma ThreeParts(p: Octets, q: Octets, r: Octets, s: Octets)
    ensures p + (q + r) + s == p + (q + (r + s))
  {
  }

  /** A body followed by anything is read back unambiguously. */
  lemma BodySplits(x: Idx, e: I64, a: I64, v: DataType, e': I64, a': I64, v': DataType, s: Octets, t: Octets)
    requires Body(x, e, a, v) + s == Body(x, e', a', v') + t
    ensures e == e' && a == a' && v == v' && s == t
  {
    match x
    case EAV =>
      ThreeParts(EncE(e), EncI64(a), Enc(v), s);
      ThreeParts(EncE(e'), EncI64(a'), Enc(v'), t);
      EncodingSplits(Long(e), Long(e'), EncI64(a) + (Enc(v) + s), EncI64(a') + (Enc(v') + t));
      I64Splits(a, a', Enc(v) + s, Enc(v') + t);
      EncodingSplits(v, v', s, t);
    case AVE =>
      ThreeParts(EncI64(a), Enc(v), EncE(e), s);
      ThreeParts(EncI64(a'), Enc(v'), EncE(e'), t);
      I64Splits(a, a', Enc(v) + (EncE(e) + s), Enc(v') + (EncE(e') + t));
      EncodingSplits(v, v', EncE(e) + s, EncE(e') + t);
      EncodingSplits(Long(e), Long(e'), s, t);
    case AEV =>
      ThreeParts(EncI64(a), EncE(e), Enc(v), s);
      ThreeParts(EncI64(a'), EncE(e'), Enc(v'), t);
      I64Splits(a, a', EncE(e) + (Enc(v) + s), EncE(e') + (Enc(v') + t));
      EncodingSplits(Long(e), Long(e'), Enc(v) + s, Enc(v') + t);
      EncodingSplits(v, v', s, t);
    case VAE =>
      ThreeParts(Enc(v), EncI64(a), EncE(e), s);
      ThreeParts(Enc(v'), EncI64(a'), EncE(e'), t);
      EncodingSplits(v, v', EncI64(a) + (EncE(e) + s), EncI64(a') + (EncE(e') + t));
      I64Splits(a, a', EncE(e) + s, EncE(e') + t);
      EncodingSplits(Long(e), Long(e'), s, t);
  }

  lemma LogicalSplits(x: Idx, f: Fact, g: Fact, s: Octets, t: Octets)
    requires LogicalKey(x, f.e, f.a, f.v) + s == LogicalKey(x, g.e, g.a, g.v) + t
    ensures SameTriple(f, g.e, g.a, g.v) && s == t
  {
    Peel(IndexByte(x), Body(x, f.e, f.a, f.v), s);
    Peel(IndexByte(x), Body(x, g.e, g.a, g.v), t);
    BodySplits(x, f.e, f.a, f.v, g.e, g.a, g.v, s, t);
  }

  /** One key per fact in each index. */
  lemma KeyInjective(x: Idx, f: Fact, g: Fact)
    requires Key(x, f) == Key(x, g)
    ensures f == g
  {
    LogicalSplits(x, f, g, Suffix(f.tx, f.op), Suffix(g.tx, g.op));
    I64Splits(f.tx, g.tx, [OpByte(f.op)], [OpByte(g.op)]);
  }

  /** Within one group: later transactions first, and an assert before a retract. */
  lemma SuffixOrder(tx: I64, op: Op, tx': I64, op': Op)
    requires tx > tx' || (tx == tx' && op.Assert? && op'.Retract?)
    ensures Below(Suffix(tx, op), Suffix(tx', op'))
  {
    if tx > tx' {
      I64Order(tx, tx');
      BelowExtends(EncI64(tx), EncI64(tx'), [OpByte(op)], [OpByte(op')]);
    } else {
      BelowAt([OpByte(op)], [OpByte(op')], 0);
      BelowUnderPrefix(EncI64(tx), [OpByte(op)], [OpByte(op')]);
    }
  }

  lemma GroupOrder(x: Idx, f: Fact, g: Fact)
    requires SameTriple(f, g.e, g.a, g.v)
    requires f.tx > g.tx || (f.tx == g.tx && f.op.Assert? && g.op.Retract?)
    ensures Less(Key(x, f), Key(x, g))
  {
    SuffixOrder(f.tx, f.op, g.tx, g.op);
    BelowUnderPrefix(LogicalKey(x, f.e, f.a, f.v), Suffix(f.tx, f.op), Suffix(g.tx, g.op));
  }

  // --- The stored keys of one index ------------------------------------------------------

  /** The facts an index holds: every one, or those of unique attributes. */
  ghost predicate Covers(x: Idx, unique: set<I64>, f: Fact) {
    x.VAE? ==> f.a in unique
  }

  ghost function IndexKeys(x: Idx, facts: set<Fact>, unique: set<I64>): set<Octets> {
    set f | f in facts && Covers(x, unique, f) :: Key(x, f)
  }

  /** The ordered key range a scan of index `x` runs over. */
  ghost predicate RangeOf(keys: seq<Octets>, x: Idx, facts: set<Fact>, unique: set<I64>) {
    keys == SortedSeq(IndexKeys(x, facts, unique))
  }

  lemma FactAt(keys: seq<Octets>, x: Idx, facts: set<Fact>, unique: set<I64>, i: nat) returns (f: Fact)
    requires RangeOf(keys, x, facts, unique) && i < |keys|
    ensures f in facts && Covers(x, unique, f) && keys[i] == Key(x, f)
  {
    assert keys[i] in keys;
    f :| f in facts && Covers(x, unique, f) && keys[i] == Key(x, f);
  }

  lemma PositionOf(keys: seq<Octets>, x: Idx, facts: set<Fact>, unique: set<I64>, f: Fact) returns (i: nat)
    requires RangeOf(keys, x, facts, unique) && f in facts && Covers(x, unique, f)
    ensures i < |keys| && keys[i] == Key(x, f)
  {
    assert Key(x, f) in IndexKeys(x, facts, unique);
    i :| i < |keys| && keys[i] == Key(x, f);
  }

  /** Stored ranges are sorted, and prefix-freeness makes groups contiguous. */
  lemma RangeOrdinary(keys: seq<Octets>, x: Idx, facts: set<Fact>, unique: set<I64>)
    requires RangeOf(keys, x, facts, unique)
    ensures Ordinary(keys)
  {
    hide Key, RangeOf, Covers, Sorted, Logical;
    RangeSorted(keys, x, facts, unique);
    forall i | 0 <= i < |keys| ensures |keys[i]| >= TX_EID_OP_SUFFIX {
      var f := FactAt(keys, x, facts, unique, i);
    }
    forall i, j | 0 <= i < |keys| && 0 <= j < |keys| && Logical(keys[i]) <= keys[j]
      ensures |keys[i]| == |keys[j]|
    {
      var f := FactAt(keys, x, facts, unique, i);
      var g := FactAt(keys, x, facts, unique, j);
      GroupMember(x, f, g);
    }
  }

  lemma RangeSorted(keys: seq<Octets>, x: Idx, facts: set<Fact>, unique: set<I64>)
    requires RangeOf(keys, x, facts, unique)
    ensures Sorted(keys)
  {
    hide IndexKeys, Sorted;
  }

  lemma GroupMember(x: Idx, f: Fact, g: Fact)
    requires Logical(Key(x, f)) <= Key(x, g)
    ensures SameTriple(f, g.e, g.a, g.v) && |Key(x, f)| == |Key(x, g)|
  {
    var l := LogicalKey(x, f.e, f.a, f.v);
    assert l + Key(x, g)[|l|..] == Key(x, g);
    LogicalSplits(x, f, g, Key(x, g)[|l|..], Suffix(g.tx, g.op));
  }

  /** The latest entry of its triple, asserts first. */
  ghost predicate Latest(facts: set<Fact>, f: Fact) {
    f in facts && forall g :: g in facts && SameTriple(g, f.e, f.a, f.v) ==> Outranks(f, g)
  }

  ghost predicate Outranks(f: Fact, g: Fact) {
    g.tx < f.tx || (g.tx == f.tx && (f.op.Assert? || g.op.Retract?))
  }

  /** The first key of a group is the latest entry of its triple. */
  lemma HeadIsLatest(keys: seq<Octets>, x: Idx, facts: set<Fact>, unique: set<I64>, i: nat, f: Fact)
    requires RangeOf(keys, x, facts, unique) && Ordinary(keys)
    requires i < |keys| && f in facts && keys[i] == Key(x, f) && Covers(x, unique, f)
    ensures Head(keys, i) <==> Latest(facts, f)
  {
    if Head(keys, i) {
      forall g | g in facts && SameTriple(g, f.e, f.a, f.v) ensures Outranks(f, g) {
        if !Outranks(f, g) { EarlierInGroup(keys, x, facts, unique, i, f, g); }
      }
    } else {
      NotHead(keys, x, facts, unique, i, f);
    }
  }

  lemma NotHead(keys: seq<Octets>, x: Idx, facts: set<Fact>, unique: set<I64>, i: nat, f: Fact)
    requires RangeOf(keys, x, facts, unique) && Ordinary(keys)
    requires i < |keys| && keys[i] == Key(x, f) && !Head(keys, i)
    ensures !Latest(facts, f)
  {
    var j :| 0 <= j < i && Logical(keys[j]) == Logical(keys[i]);
    var g := FactAt(keys, x, facts, unique, j);
    GroupMember(x, g, f);
    NotOutranked(x, g, f);
  }

  lemma NotOutranked(x: Idx, g: Fact, f: Fact)
    requires SameTriple(g, f.e, f.a, f.v) && Less(Key(x, g), Key(x, f))
    ensures !Outranks(f, g)
  {
    LessAsymmetric(Key(x, g), Key(x, f));
    if Outranks(f, g) && f != g { GroupOrder(x, f, g); }
  }

  lemma EarlierInGroup(keys: seq<Octets>, x: Idx, facts: set<Fact>, unique: set<I64>, i: nat, f: Fact, g: Fact)
    requires RangeOf(keys, x, facts, unique) && Ordinary(keys)
    requires i < |keys| && keys[i] == Key(x, f) && g in facts && Covers(x, unique, f)
    requires SameTriple(g, f.e, f.a, f.v) && (g.tx > f.tx || (g.tx == f.tx && g.op.Assert? && f.op.Retract?))
    ensures !Head(keys, i)
  {
    GroupOrder(x, g, f);
    var j := PositionOf(keys, x, facts, unique, g);
    LessAsymmetric(keys[j], keys[i]);
    assert j < i;
  }

  /** A live head is the key of a live triple, and every live triple has one. */
  lemma LiveHeadIsLive(keys: seq<Octets>, x: Idx, facts: set<Fact>, unique: set<I64>, i: nat, f: Fact)
    requires RangeOf(keys, x, facts, unique) && Ordinary(keys)
    requires i < |keys| && f in facts && keys[i] == Key(x, f) && Covers(x, unique, f) && LiveHead(keys, i)
    ensures f.op.Assert? && LiveAt(facts, f.e, f.a, f.v, f.tx)
  {
    HeadIsLatest(keys, x, facts, unique, i, f);
  }

  lemma LiveHasHead(keys: seq<Octets>, x: Idx, facts: set<Fact>, unique: set<I64>, e: I64, a: I64, v: DataType)
    returns (i: nat, f: Fact)
    requires RangeOf(keys, x, facts, unique) && Ordinary(keys)
    requires Live(facts, e, a, v) && (x.VAE? ==> a in unique)
    ensures i < |keys| && f in facts && keys[i] == Key(x, f) && SameTriple(f, e, a, v) && LiveHead(keys, i)
  {
    var tx: I64 :| LiveAt(facts, e, a, v, tx);
    f := Fact(e, a, v, tx, Assert);
    i := PositionOf(keys, x, facts, unique, f);
    HeadIsLatest(keys, x, facts, unique, i, f);
  }

  // --- Lookup prefixes -------------------------------------------------------------------

  function VaePrefix(a: I64, v: DataType): Octets { [IndexByte(VAE)] + (Enc(v) + EncI64(a)) }

  function EavPrefix(e: I64, a: I64): (p: Octets)
    ensures |p| == 18
  {
    [IndexByte(EAV)] + (EncE(e) + EncI64(a))
  }

  function EntityPrefix(e: I64): (p: Octets)
    ensures |p| == 10
  {
    [IndexByte(EAV)] + EncE(e)
  }

  lemma PrefixRest(p: Octets, k: Octets)
    requires p <= k
    ensures p + k[|p|..] == k
  {
  }

  lemma FourParts(b: Octets, p: Octets, q: Octets, r: Octets, s: Octets)
    ensures b + (p + (q + r)) + s == b + (p + q) + (r + s)
    ensures b + (p + (q + r)) + s == b + (p + (q + (r + s)))
    ensures b + (p + q) + s == b + (p + (q + s))
    ensures b + (p + (q + r)) + s == b + p + (q + r + s)
  {
  }

  lemma VaePrefixMeans(a: I64, v: DataType, f: Fact)
    ensures VaePrefix(a, v) <= Key(VAE, f) <==> f.a == a && f.v == v
    ensures VaePrefix(a, v) <= Key(VAE, f) ==> |VaePrefix(a, v)| + TX_EID_OP_SUFFIX <= |Key(VAE, f)|
  {
    var b, k, s := [IndexByte(VAE)], Key(VAE, f), Suffix(f.tx, f.op);
    FourParts(b, Enc(f.v), EncI64(f.a), EncE(f.e), s);
    if VaePrefix(a, v) <= k {
      var t := k[|VaePrefix(a, v)|..];
      PrefixRest(VaePrefix(a, v), k);
      FourParts(b, Enc(v), EncI64(a), [], t);
      SharedPrefixStrips(b, Enc(v) + (EncI64(a) + t), Enc(f.v) + (EncI64(f.a) + (EncE(f.e) + s)));
      EncodingSplits(v, f.v, EncI64(a) + t, EncI64(f.a) + (EncE(f.e) + s));
      I64Splits(a, f.a, t, EncE(f.e) + s);
    }
  }

  lemma EavPrefixMeans(e: I64, a: I64, f: Fact)
    ensures EavPrefix(e, a) <= Key(EAV, f) <==> f.e == e && f.a == a
    ensures EavPrefix(e, a) <= Key(EAV, f) ==> |EavPrefix(e, a)| + TX_EID_OP_SUFFIX <= |Key(EAV, f)|
  {
    var b, k, s := [IndexByte(EAV)], Key(EAV, f), Suffix(f.tx, f.op);
    FourParts(b, EncE(f.e), EncI64(f.a), Enc(f.v), s);
    if EavPrefix(e, a) <= k {
      var t := k[|EavPrefix(e, a)|..];
      PrefixRest(EavPrefix(e, a), k);
      FourParts(b, EncE(e), EncI64(a), [], t);
      SharedPrefixStrips(b, EncE(e) + (EncI64(a) + t), EncE(f.e) + (EncI64(f.a) + (Enc(f.v) + s)));
      EncodingSplits(Long(e), Long(f.e), EncI64(a) + t, EncI64(f.a) + (Enc(f.v) + s));
      I64Splits(a, f.a, t, Enc(f.v) + s);
    }
  }

  lemma EntityPrefixMeans(e: I64, f: Fact)
    ensures EntityPrefix(e) <= Key(EAV, f) <==> f.e == e
    ensures EntityPrefix(e) <= Key(EAV, f) ==> |EntityPrefix(e)| + TX_EID_OP_SUFFIX <= |Key(EAV, f)|
  {
    var b, k, s := [IndexByte(EAV)], Key(EAV, f), Suffix(f.tx, f.op);
    FourParts(b, EncE(f.e), EncI64(f.a), Enc(f.v), s);
    if EntityPrefix(e) <= k {
      var t := k[|EntityPrefix(e)|..];
      PrefixRest(EntityPrefix(e), k);
      Regroup(b, EncE(e), t);
      SharedPrefixStrips(b, EncE(e) + t, EncE(f.e) + (EncI64(f.a) + (Enc(f.v) + s)));
      EncodingSplits(Long(e), Long(f.e), t, EncI64(f.a) + (Enc(f.v) + s));
    }
  }

  lemma VaePrefixesDisjoint(a: I64, v: DataType, b: I64, w: DataType)
    requires a != b || v != w
    ensures !(VaePrefix(a, v) <= VaePrefix(b, w))
  {
    var f := Fact(0, b, w, 0, Assert);
    FourParts([IndexByte(VAE)], Enc(w), EncI64(b), EncE(0), Suffix(0, Assert));
    VaePrefixMeans(a, v, f);
    VaePrefixMeans(b, w, f);
  }

  lemma EavPrefixInjective(e: I64, a: I64, e': I64, a': I64)
    requires EavPrefix(e, a) == EavPrefix(e', a')
    ensures e == e' && a == a'
  {
    var f := Fact(e, a, Long(0), 0, Assert);
    EavPrefixMeans(e, a, f);
    EavPrefixMeans(e', a', f);
  }

  // --- What the scans mean for facts -----------------------------------------------------

  lemma FoundAt(keys: seq<Octets>, prefix: Octets, k: Octets) returns (i: nat)
    requires Ordinary(keys) && FirstLive(keys, prefix, Some(k))
    ensures i < |keys| && keys[i] == k && prefix <= k && LiveHead(keys, i)
  {
    hide LiveHead;
    i :| 0 <= i < |keys| && keys[i] == k && prefix <= k && LiveHead(keys, i);
  }

  lemma LiveOnce(facts: set<Fact>, f: Fact)
    requires LiveAt(facts, f.e, f.a, f.v, f.tx)
    ensures Live(facts, f.e, f.a, f.v)
  {
    hide LiveAt;
  }

  /** A unique lookup that finds a key found a live owner of (`a`, `v`). */
  lemma UniqueFound(keys: seq<Octets>, facts: set<Fact>, unique: set<I64>, a: I64, v: DataType, k: Octets)
    returns (f: Fact)
    requires RangeOf(keys, VAE, facts, unique) && Ordinary(keys)
    requires FirstLive(keys, VaePrefix(a, v), Some(k))
    ensures f in facts && k == Key(VAE, f) && f.a == a && f.v == v && Live(facts, f.e, a, v)
  {
    hide Key, VaePrefix, RangeOf, FirstLive, LiveHead, LiveAt, Live, Covers;
    var i := FoundAt(keys, VaePrefix(a, v), k);
    f := FactAt(keys, VAE, facts, unique, i);
    VaePrefixMeans(a, v, f);
    LiveHeadIsLive(keys, VAE, facts, unique, i, f);
    LiveOnce(facts, f);
  }

  /** A unique lookup that finds nothing proves there is no live owner. */
  lemma UniqueMissed(keys: seq<Octets>, facts: set<Fact>, unique: set<I64>, a: I64, v: DataType, e: I64)
    requires RangeOf(keys, VAE, facts, unique) && Ordinary(keys) && a in unique
    requires FirstLive(keys, VaePrefix(a, v), None)
    ensures !Live(facts, e, a, v)
  {
    if Live(facts, e, a, v) {
      var i, f := LiveHasHead(keys, VAE, facts, unique, e, a, v);
      VaePrefixMeans(a, v, f);
    }
  }

  /** An old-value lookup that finds a key found a live value of (`e`, `a`). */
  lemma OldValueFound(keys: seq<Octets>, facts: set<Fact>, unique: set<I64>, e: I64, a: I64, k: Octets)
    returns (f: Fact)
    requires RangeOf(keys, EAV, facts, unique) && Ordinary(keys)
    requires FirstLive(keys, EavPrefix(e, a), Some(k))
    ensures f in facts && k == Key(EAV, f) && f.e == e && f.a == a && Live(facts, e, a, f.v)
  {
    hide Key, EavPrefix, RangeOf, FirstLive, LiveHead, LiveAt, Live, Covers;
    var i := FoundAt(keys, EavPrefix(e, a), k);
    f := FactAt(keys, EAV, facts, unique, i);
    EavPrefixMeans(e, a, f);
    LiveHeadIsLive(keys, EAV, facts, unique, i, f);
    LiveOnce(facts, f);
  }

  lemma OldValueMissed(keys: seq<Octets>, facts: set<Fact>, unique: set<I64>, e: I64, a: I64, v: DataType)
    requires RangeOf(keys, EAV, facts, unique) && Ordinary(keys)
    requires FirstLive(keys, EavPrefix(e, a), None)
    ensures !Live(facts, e, a, v)
  {
    if Live(facts, e, a, v) {
      var i, f := LiveHasHead(keys, EAV, facts, unique, e, a, v);
      EavPrefixMeans(e, a, f);
    }
  }

  /** The keys the entity scan returns are those of the live triples of the entity. */
  lemma EntityScan(keys: seq<Octets>, facts: set<Fact>, unique: set<I64>, e: I64, k: Octets)
    requires RangeOf(keys, EAV, facts, unique) && Ordinary(keys)
    ensures LiveKey(keys, |keys|, EntityPrefix(e), k) <==>
            exists f :: f in facts && k == Key(EAV, f) && f.e == e && f.op.Assert? && LiveAt(facts, e, f.a, f.v, f.tx)
  {
    if LiveKey(keys, |keys|, EntityPrefix(e), k) {
      var i :| 0 <= i < |keys| && keys[i] == k && EntityPrefix(e) <= k && LiveHead(keys, i);
      var f := FactAt(keys, EAV, facts, unique, i);
      EntityPrefixMeans(e, f);
      LiveHeadIsLive(keys, EAV, facts, unique, i, f);
    }
    if f :| f in facts && k == Key(EAV, f) && f.e == e && f.op.Assert? && LiveAt(facts, e, f.a, f.v, f.tx) {
      var i := PositionOf(keys, EAV, facts, unique, f);
      HeadIsLatest(keys, EAV, facts, unique, i, f);
      EntityPrefixMeans(e, f);
    }
  }
}
