/** Rebuilding counters and the latest transaction from the stored keys. */
module Recovery {
  import opened Octets
  import opened Ordered
  import opened Values
  import opened Encode
  import opened Decode
  import opened Facts
  import opened Model
  import opened Index
  import opened Store
  import opened Lookup
  import opened Partition
  import opened SchemaRules
  import opened Transact
  import opened Invariant

  // --- The prefix of a partition ---------------------------------------------------------

  /** The part of the counter range the three-byte prefix can tell from other partitions. */
  const BAND: int := 0x100_0000_0000

  /** `partition_entity_prefix` behind the index byte: the long tag and three bytes of the first id. */
  function PartitionPrefix(p: nat): (s: Octets)
    requires p < PARTITION_SPAN
    ensures |s| == 5
  {
    [IndexByte(EAV), 7] + EncI64(MakeEntityId(p, 0))[..3]
  }

  /** The ids whose keys lie under the prefix. */
  predicate InBand(p: nat, e: I64) {
    p * COUNTER_SPAN <= e < p * COUNTER_SPAN + BAND
  }

  lemma {:induction false} BigEndianTop(u: nat, n: nat, m: nat)
    ensures BigEndian(u, n + m)[..n] == BigEndian(u / Pow256(m), n)
  {
    if m > 0 {
      BigEndianTop(u / 256, n, m - 1);
      DivTwice(u, Pow256(m - 1));
      assert BigEndian(u, n + m)[..n] == BigEndian(u / 256, n + m - 1)[..n];
    } else {
      assert BigEndian(u, n)[..n] == BigEndian(u, n);
    }
  }

  lemma DivTwice(u: nat, p: nat)
    requires p >= 1
    ensures 256 * p > 0 && u / 256 / p == u / (256 * p)
  {
    var q, r := u / 256 / p, u / 256 % p;
    assert u / 256 == q * p + r;
    assert u == (q * p + r) * 256 + u % 256;
    assert u == q * (256 * p) + (r * 256 + u % 256);
    assert 0 <= r * 256 + u % 256 < 256 * p;
    QuotientIs(u, 256 * p, q, r * 256 + u % 256);
  }

  lemma QuotientIs(u: nat, d: nat, q: nat, r: nat)
    requires d > 0 && u == q * d + r && r < d
    ensures u / d == q
  {
    var x := u / d - q;
    assert x * d == r - u % d;
    assert x >= 1 ==> x * d >= d;
    assert x <= -1 ==> x * d + d <= 0;
  }

  lemma Pow5()
    ensures Pow256(5) == BAND && Pow256(3) == 0x100_0000
  {
    assert Pow256(3) == 256 * (256 * 256);
    assert Pow256(5) == 256 * (256 * Pow256(3));
  }

  /** The top three bytes of an encoded id. */
  lemma TopBytes(e: I64)
    ensures EncI64(e)[..3] == BigEndian((TWO_63 - 1 - e) / BAND, 3) && (TWO_63 - 1 - e) / BAND < Pow256(3)
  {
    Pow5();
    BigEndianTop(TWO_63 - 1 - e, 3, 5);
  }

  lemma TopBytesAgree(d: I64, e: I64)
    ensures EncI64(d)[..3] == EncI64(e)[..3] <==> (TWO_63 - 1 - d) / BAND == (TWO_63 - 1 - e) / BAND
  {
    TopBytes(d);
    TopBytes(e);
    BigEndianInverse((TWO_63 - 1 - d) / BAND, 3);
    BigEndianInverse((TWO_63 - 1 - e) / BAND, 3);
  }

  lemma BandArithmetic(p: nat, e: I64)
    requires p < PARTITION_SPAN
    ensures (TWO_63 - 1 - p * COUNTER_SPAN) / BAND == (TWO_63 - 1 - e) / BAND <==> InBand(p, e)
  {
  }

  lemma EntityBytes(e: I64)
    ensures EncE(e) == [7] + EncI64(e)
  {
    assert Payload(Long(e)) == EncI64(e);
  }

  lemma KeyStart(f: Fact)
    ensures |Key(EAV, f)| >= 10 && Key(EAV, f)[0] == IndexByte(EAV) && Key(EAV, f)[1] == 7 &&
            Key(EAV, f)[2..10] == EncI64(f.e)
  {
    EntityBytes(f.e);
    KeyParts(EncI64(f.e), EncI64(f.a) + Enc(f.v), Suffix(f.tx, f.op));
  }

  lemma KeyParts(e: Octets, av: Octets, s: Octets)
    requires |e| == 8
    ensures var k := [IndexByte(EAV)] + ([7] + e + av) + s;
            |k| >= 10 && k[0] == IndexByte(EAV) && k[1] == 7 && k[2..10] == e
  {
  }

  /** A key is under the prefix exactly if its entity is in the band. */
  lemma UnderPartition(p: nat, f: Fact)
    requires p < PARTITION_SPAN
    ensures PartitionPrefix(p) <= Key(EAV, f) <==> InBand(p, f.e)
  {
    hide Key, EncI64, InBand;
    KeyStart(f);
    var k, base := Key(EAV, f), MakeEntityId(p, 0);
    assert k[..5] == [k[0], k[1]] + k[2..10][..3];
    PrefixAgrees(PartitionPrefix(p), k, EncI64(base)[..3], EncI64(f.e)[..3]);
    TopBytesAgree(base, f.e);
    BandArithmetic(p, f.e);
  }

  lemma PrefixAgrees(p: Octets, k: Octets, b: Octets, t: Octets)
    requires |b| == 3 && |t| == 3 && |k| >= 5 && p == [IndexByte(EAV), 7] + b && k[..5] == [IndexByte(EAV), 7] + t
    ensures p <= k <==> b == t
  {
    if p <= k { assert b == p[2..5] && t == k[..5][2..5] && p == k[..5]; }
    if b == t { assert p == k[..5]; }
  }

  /** Keys of later entities come first. */
  lemma EntityOrder(f: Fact, g: Fact)
    requires f.e > g.e
    ensures Less(Key(EAV, f), Key(EAV, g))
  {
    hide EncI64, Enc, Suffix;
    I64Order(f.e, g.e);
    EntityBytes(f.e);
    EntityBytes(g.e);
    var s, t := EncI64(f.a) + Enc(f.v), EncI64(g.a) + Enc(g.v);
    BelowExtends(EncI64(f.e), EncI64(g.e), s + Suffix(f.tx, f.op), t + Suffix(g.tx, g.op));
    BelowUnderPrefix([IndexByte(EAV), 7], EncI64(f.e) + (s + Suffix(f.tx, f.op)), EncI64(g.e) +
                     (t + Suffix(g.tx, g.op)));
    KeyShape(EncI64(f.e), s, Suffix(f.tx, f.op));
    KeyShape(EncI64(g.e), t, Suffix(g.tx, g.op));
  }

  lemma KeyShape(e: Octets, av: Octets, s: Octets)
    ensures [IndexByte(EAV)] + (([7] + e) + av) + s == [IndexByte(EAV), 7] + (e + (av + s))
  {
  }

  // --- Scanning the partitions -----------------------------------------------------------

  /** The keys under a prefix in order, as the storage delivers them. */
  method ScanPrefix(db: set<Octets>, prefix: Octets) returns (keys: seq<Octets>)
    ensures keys == SortedSeq(set k | k in db && prefix <= k)
  {
    keys := SortKeys(set k | k in db && prefix <= k);
  }

  /** `n` is one more than the greatest counter found in the band, or zero. */
  ghost predicate TopCounter(facts: set<Fact>, p: nat, n: nat) {
    && (forall f :: f in facts && InBand(p, f.e) ==> f.e < p * COUNTER_SPAN + n)
    && (n > 0 ==> n <= BAND && exists f :: f in facts && f.e == p * COUNTER_SPAN + n - 1)
  }

  /** The keys under a partition prefix are those of the facts in its band. */
  lemma BandKeys(db: set<Octets>, facts: set<Fact>, unique: set<I64>, p: nat, k: Octets)
    requires DbHolds(db, facts, unique) && p < PARTITION_SPAN
    ensures k in db && PartitionPrefix(p) <= k <==> exists f :: f in facts && InBand(p, f.e) && k == Key(EAV, f)
  {
    hide Key, InBand;
    assert Under(db, IndexByte(EAV)) == IndexKeys(EAV, facts, unique);
    if k in db && PartitionPrefix(p) <= k {
      assert k[0] == IndexByte(EAV);
      assert k in IndexKeys(EAV, facts, unique);
      var f :| f in facts && Covers(EAV, unique, f) && k == Key(EAV, f);
      UnderPartition(p, f);
    }
    if f :| f in facts && InBand(p, f.e) && k == Key(EAV, f) {
      assert Covers(EAV, unique, f);
      assert k in IndexKeys(EAV, facts, unique);
      UnderPartition(p, f);
    }
  }

  lemma FirstIsTop(db: set<Octets>, facts: set<Fact>, unique: set<I64>, p: nat, keys: seq<Octets>) returns (f: Fact)
    requires DbHolds(db, facts, unique) && p < PARTITION_SPAN &&
             keys == SortedSeq(set k | k in db && PartitionPrefix(p) <= k) && keys != []
    ensures f in facts && InBand(p, f.e) && keys[0] == Key(EAV, f)
    ensures forall g :: g in facts && InBand(p, g.e) ==> g.e <= f.e
  {
    hide Key, InBand, DbHolds, PartitionPrefix;
    assert keys[0] in keys;
    BandKeys(db, facts, unique, p, keys[0]);
    f :| f in facts && InBand(p, f.e) && keys[0] == Key(EAV, f);
    forall g | g in facts && InBand(p, g.e) ensures g.e <= f.e {
      BandKeys(db, facts, unique, p, Key(EAV, g));
      assert Key(EAV, g) in keys;
      if g.e > f.e {
        EntityOrder(g, f);
        var j: nat :| j < |keys| && keys[j] == Key(EAV, g);
        LessAsymmetric(keys[j], keys[0]);
      }
    }
  }

  /** The first key under the prefix of a partition has its greatest counter. */
  method ScanPartition(db: set<Octets>, p: nat, ghost facts: set<Fact>, ghost unique: set<I64>) returns (n: nat)
    requires DbHolds(db, facts, unique) && p < PARTITION_SPAN
    ensures TopCounter(facts, p, n)
  {
    hide Key, DbHolds, PartitionPrefix, EncI64, DecValue;
    n := 0;
    var keys := ScanPrefix(db, PartitionPrefix(p));
    if keys != [] {
      ghost var f := FirstIsTop(db, facts, unique, p, keys);
      DecodeEntity(f);
      var eid := DecValue(keys[0][1..10]);
      n := ExtractCounter(eid.value.i) + 1;
      BandCounter(p, f.e);
    } else {
      forall f | f in facts ensures !InBand(p, f.e) {
        BandKeys(db, facts, unique, p, Key(EAV, f));
        assert Key(EAV, f) !in keys;
      }
    }
  }

  lemma DecodeEntity(f: Fact)
    ensures |Key(EAV, f)| >= 10 && DecValue(Key(EAV, f)[1..10]) == Done(Long(f.e), [])
  {
    KeyStart(f);
    EntityBytes(f.e);
    assert Key(EAV, f)[1..10] == [7] + Key(EAV, f)[2..10];
    assert Enc(Long(f.e)) + [] == EncE(f.e);
    RoundTrip(Long(f.e), []);
  }

  lemma BandCounter(p: nat, e: I64)
    requires p < PARTITION_SPAN && InBand(p, e)
    ensures ExtractPartition(e) == p && ExtractCounter(e) == e - p * COUNTER_SPAN < BAND
  {
  }

  ghost predicate Scanned(facts: set<Fact>, pm: Counters) {
    && pm.Keys == {DB_PARTITION, TX_PARTITION, USER_PARTITION}
    && TopCounter(facts, TX_PARTITION, pm[TX_PARTITION]) && TopCounter(facts, USER_PARTITION, pm[USER_PARTITION])
    && exists n: nat :: TopCounter(facts, DB_PARTITION, n) && pm[DB_PARTITION] == if n < DB_FLOOR then DB_FLOOR else n
  }

  /** `scan_partition_counters`: each partition, then the reserved range of the schema partition. */
  method ScanPartitionCounters(db: set<Octets>, ghost facts: set<Fact>, ghost unique: set<I64>) returns (pm: Counters)
    requires DbHolds(db, facts, unique)
    ensures Scanned(facts, pm)
  {
    hide DbHolds, TopCounter;
    pm := map[];
    var parts := [DB_PARTITION, TX_PARTITION, USER_PARTITION];
    for i := 0 to |parts|
      invariant pm.Keys == set j | 0 <= j < i :: parts[j]
      invariant forall j :: 0 <= j < i ==> TopCounter(facts, parts[j], pm[parts[j]])
    {
      var n := ScanPartition(db, parts[i], facts, unique);
      pm := pm[parts[i] := n];
    }
    assert pm.Keys == {parts[0], parts[1], parts[2]};
    ghost var n := pm[DB_PARTITION];
    assert TopCounter(facts, parts[0], n) && TopCounter(facts, parts[1], pm[TX_PARTITION]) &&
           TopCounter(facts, parts[2], pm[USER_PARTITION]);
    if pm[DB_PARTITION] < DB_FLOOR { pm := pm[DB_PARTITION := DB_FLOOR]; }
  }

  // --- Recovery agrees with memory -------------------------------------------------------

  lemma CounterBelow(s: State, p: nat, f: Fact)
    requires Inv(s) && p in s.pm && p < PARTITION_SPAN && f in s.facts && InBand(p, f.e)
    ensures f.e < p * COUNTER_SPAN + s.pm[p]
  {
    assert ReferencedFact(f, s.schema, s.pm);
    BandCounter(p, f.e);
  }

  lemma CounterFound(s: State, p: nat, c: nat)
    requires Inv(s) && p in s.pm && c + 1 == s.pm[p] && (p == DB_PARTITION ==> c >= DB_FLOOR)
    ensures exists f :: f in s.facts && f.e == p * COUNTER_SPAN + c
  {
    hide Mirrors, Typed, Referenced, SingleValued, SingleOwner, HasSystem, Inverse, InTime;
    assert p in {DB_PARTITION, TX_PARTITION, USER_PARTITION};
    if p == TX_PARTITION {
      var tx := TxEid(s.latest.txId);
      assert Fact(tx, DB_TX_INSTANT, Instant(s.latest.systemTime), tx, Assert) in s.facts;
    } else {
      assert HasFact(s.facts, MakeEntityId(p, c));
    }
  }

  /** What a scan of one partition finds, against memory. */
  lemma PartitionRecovered(s: State, p: nat, n: nat)
    requires Inv(s) && p in s.pm && TopCounter(s.facts, p, n)
    ensures var m := if p == DB_PARTITION && n < DB_FLOOR then DB_FLOOR else n;
            m == s.pm[p] <==> s.pm[p] <= BAND
  {
    hide Mirrors, Typed, Referenced, SingleValued, SingleOwner, HasSystem, Inverse, InTime, AllWritten, LatestStored;
    assert p in {DB_PARTITION, TX_PARTITION, USER_PARTITION};
    var c := s.pm[p];
    if n > 0 {
      var f :| f in s.facts && f.e == p * COUNTER_SPAN + n - 1;
      CounterBelow(s, p, f);
    }
    if 0 < c <= BAND && (p == DB_PARTITION ==> c > DB_FLOOR) {
      CounterFound(s, p, c - 1);
      var f :| f in s.facts && f.e == p * COUNTER_SPAN + (c - 1);
      assert InBand(p, f.e);
    }
  }

  /**
   * A restart finds the counters of memory exactly if none has passed the range of the three-byte
   * prefixes.
   */
  lemma CountersRecovered(s: State, pm: Counters)
    requires Inv(s) && Scanned(s.facts, pm)
    ensures pm == s.pm <==> forall p :: p in s.pm ==> s.pm[p] <= BAND
  {
    hide Inv, TopCounter;
    InvCounters(s);
    PartitionRecovered(s, TX_PARTITION, pm[TX_PARTITION]);
    PartitionRecovered(s, USER_PARTITION, pm[USER_PARTITION]);
    var n: nat :| TopCounter(s.facts, DB_PARTITION, n) && pm[DB_PARTITION] == if n < DB_FLOOR then DB_FLOOR else n;
    PartitionRecovered(s, DB_PARTITION, n);
    if forall p :: p in s.pm ==> s.pm[p] <= BAND {
      assert DB_PARTITION in s.pm && TX_PARTITION in s.pm && USER_PARTITION in s.pm;
      assert pm == s.pm;
    }
  }

  lemma InvCounters(s: State)
    requires Inv(s)
    ensures CountersOk(s.pm)
  {
  }

  // --- The latest transaction ------------------------------------------------------------

  /** A stored time of an entity. */
  ghost predicate HasTime(facts: set<Fact>, e: I64, st: I64) {
    exists f :: f in facts && f.e == e && f.a == DB_TX_INSTANT && f.v == Instant(st)
  }

  /** `e` is the greatest transaction entity in the band. */
  ghost predicate TopTx(facts: set<Fact>, e: I64) {
    InBand(TX_PARTITION, e) && (exists f :: f in facts && f.e == e) && forall g ::
      g in facts && InBand(TX_PARTITION, g.e) ==> g.e <= e
  }

  /** What `latest_tx_key_from_sdb` reports; nothing stands for its two errors. */
  ghost predicate LatestFound(facts: set<Fact>, r: Option<TxKey>) {
    match r
    case Some(key) => exists e: I64 ::
      TopTx(facts, e) && key.txId == e - TX_PARTITION * COUNTER_SPAN && HasTime(facts, e, key.systemTime)
    case None => forall e: I64, st: I64 :: TopTx(facts, e) ==> !HasTime(facts, e, st)
  }

  /** The keys are those of the facts in the transaction band, in order. */
  ghost predicate TxRange(keys: seq<Octets>, facts: set<Fact>) {
    && Sorted(keys)
    && (forall i :: 0 <= i < |keys| ==> TxKeyOf(keys[i], facts))
    && (forall f :: f in facts && InBand(TX_PARTITION, f.e) ==> Key(EAV, f) in keys)
  }

  ghost predicate TxKeyOf(k: Octets, facts: set<Fact>) {
    exists f :: f in facts && InBand(TX_PARTITION, f.e) && k == Key(EAV, f)
  }

  lemma TxRangeHolds(db: set<Octets>, facts: set<Fact>, unique: set<I64>, keys: seq<Octets>)
    requires DbHolds(db, facts, unique) && keys == SortedSeq(set k | k in db && PartitionPrefix(TX_PARTITION) <= k)
    ensures TxRange(keys, facts)
  {
    hide Key, InBand, DbHolds, PartitionPrefix;
    forall i | 0 <= i < |keys| ensures TxKeyOf(keys[i], facts) {
      assert keys[i] in keys;
      BandKeys(db, facts, unique, TX_PARTITION, keys[i]);
    }
    forall f | f in facts && InBand(TX_PARTITION, f.e) ensures Key(EAV, f) in keys {
      BandKeys(db, facts, unique, TX_PARTITION, Key(EAV, f));
    }
  }

  lemma RangeFact(keys: seq<Octets>, facts: set<Fact>, i: nat) returns (f: Fact)
    requires TxRange(keys, facts) && i < |keys|
    ensures f in facts && InBand(TX_PARTITION, f.e) && keys[i] == Key(EAV, f)
  {
    assert TxKeyOf(keys[i], facts);
    f :| f in facts && InBand(TX_PARTITION, f.e) && keys[i] == Key(EAV, f);
  }

  lemma FirstIsTopTx(keys: seq<Octets>, facts: set<Fact>, f: Fact)
    requires TxRange(keys, facts) && keys != [] && f in facts && InBand(TX_PARTITION, f.e) && keys[0] == Key(EAV, f)
    ensures TopTx(facts, f.e)
  {
    hide Key, InBand;
    forall g | g in facts && InBand(TX_PARTITION, g.e) ensures g.e <= f.e {
      assert Key(EAV, g) in keys;
      if g.e > f.e {
        EntityOrder(g, f);
        var j: nat :| j < |keys| && keys[j] == Key(EAV, g);
        LessAsymmetric(keys[j], keys[0]);
      }
    }
  }

  ghost predicate Seen(keys: seq<Octets>, facts: set<Fact>, i: nat, top: I64)
    requires i <= |keys|
  {
    forall g :: g in facts && g.e == top ==> Key(EAV, g) in keys[..i]
  }

  /** Once the entity changes, all keys of the first one have been seen. */
  lemma SeenAll(keys: seq<Octets>, facts: set<Fact>, i: nat, top: I64, f: Fact)
    requires TxRange(keys, facts) && i < |keys| && f in facts && keys[i] == Key(EAV, f) && f.e < top &&
             InBand(TX_PARTITION, top)
    ensures Seen(keys, facts, i, top)
  {
    hide Key, InBand;
    forall g | g in facts && g.e == top ensures Key(EAV, g) in keys[..i] {
      EntityOrder(g, f);
      assert Key(EAV, g) in keys;
      var j: nat :| j < |keys| && keys[j] == Key(EAV, g);
      if j >= i { LessAsymmetric(keys[j], keys[i]); }
      assert keys[..i][j] == keys[j];
    }
  }

  /** What the loop knows after `i` keys of the entity `top`. */
  ghost predicate TimeSoFar(keys: seq<Octets>, facts: set<Fact>, i: nat, top: I64, st: Option<I64>)
    requires i <= |keys|
  {
    match st
    case Some(t) => HasTime(facts, top, t)
    case None => forall f ::
      f in facts && f.e == top && Key(EAV, f) in keys[..i] ==> !(f.a == DB_TX_INSTANT && f.v.Instant?)
  }

  lemma TimeStep(keys: seq<Octets>, facts: set<Fact>, i: nat, top: I64, st: Option<I64>, f: Fact)
    requires i < |keys| && TimeSoFar(keys, facts, i, top, st) && f in facts && f.e == top && keys[i] == Key(EAV, f)
    ensures TimeSoFar(keys, facts, i + 1, top, if f.a == DB_TX_INSTANT && f.v.Instant? then Some(f.v.micros) else st)
  {
    hide Key;
    assert keys[..i + 1] == keys[..i] + [keys[i]];
    forall g | g in facts && Key(EAV, g) == Key(EAV, f) ensures g == f { KeyInjective(EAV, g, f); }
  }

  method ParseKey(k: Octets, ghost facts: set<Fact>, ghost f: Fact) returns (e: I64, a: I64, v: DataType)
    requires ValidValues(facts) && f in facts && k == Key(EAV, f)
    ensures e == f.e && a == f.a && v == f.v
  {
    hide Key, KeyToParts;
    PartsInvertWriter(EAV, f);
    var parts := KeyToParts(EAV, k).value;
    e, a, v := parts.entity.i, parts.attribute, parts.value;
  }

  lemma TxPartitionFits()
    ensures TX_PARTITION < PARTITION_SPAN
  {
  }

  function TxIdOf(e: I64): I64 { ExtractCounter(e) }

  method LatestTxKey(db: set<Octets>, ghost facts: set<Fact>, ghost unique: set<I64>) returns (r: Option<TxKey>)
    requires DbHolds(db, facts, unique) && ValidValues(facts)
    ensures LatestFound(facts, r)
  {
    hide *;
    TxPartitionFits();
    var keys := ScanPrefix(db, PartitionPrefix(TX_PARTITION));
    TxRangeHolds(db, facts, unique, keys);
    if keys == [] {
      NoTx(keys, facts);
      return None;
    }
    ghost var top := RangeFact(keys, facts, 0);
    FirstIsTopTx(keys, facts, top);
    TopGreatest(facts, top.e, top);
    var first: Option<I64>, st: Option<I64> := None, None;
    var i := 0;
    TimeStart(keys, facts, top.e);
    while i < |keys|
      invariant 0 <= i <= |keys| && TimeSoFar(keys, facts, i, top.e, st)
      invariant first == if i == 0 then None else Some(top.e)
    {
      ghost var f := RangeFact(keys, facts, i);
      var eid, a, v := ParseKey(keys[i], facts, f);
      if first.None? {
        first := Some(eid);
        KeyInjective(EAV, f, top);
      } else if first.value != eid {
        TopGreatest(facts, top.e, f);
        SeenAll(keys, facts, i, top.e, f);
        break;
      }
      TimeStep(keys, facts, i, top.e, st, f);
      if a == DB_TX_INSTANT && v.Instant? { st := Some(v.micros); }
      i := i + 1;
    }
    if i == |keys| { SeenEnd(keys, facts, top.e); }
    LatestIs(keys, facts, i, top.e, st);
    if st.None? { return None; }
    return Some(TxKey(TxIdOf(first.value), st.value));
  }

  lemma NoTx(keys: seq<Octets>, facts: set<Fact>)
    requires TxRange(keys, facts) && keys == []
    ensures LatestFound(facts, None)
  {
    hide Key, InBand;
    assert forall f :: f in facts && InBand(TX_PARTITION, f.e) ==> Key(EAV, f) in keys;
    assert forall f :: f in facts ==> !InBand(TX_PARTITION, f.e);
  }

  lemma TimeStart(keys: seq<Octets>, facts: set<Fact>, top: I64)
    ensures TimeSoFar(keys, facts, 0, top, None)
  {
  }

  lemma TopGreatest(facts: set<Fact>, top: I64, f: Fact)
    requires TopTx(facts, top) && f in facts && InBand(TX_PARTITION, f.e)
    ensures f.e <= top && InBand(TX_PARTITION, top)
  {
  }

  lemma SeenEnd(keys: seq<Octets>, facts: set<Fact>, top: I64)
    requires TxRange(keys, facts) && InBand(TX_PARTITION, top)
    ensures Seen(keys, facts, |keys|, top)
  {
    hide Key, InBand;
    assert keys[..|keys|] == keys;
  }

  lemma TopIs(facts: set<Fact>, d: I64, e: I64)
    requires TopTx(facts, d) && TopTx(facts, e)
    ensures d == e
  {
  }

  lemma LatestIs(keys: seq<Octets>, facts: set<Fact>, i: nat, top: I64, st: Option<I64>)
    requires i <= |keys| && TopTx(facts, top) && Seen(keys, facts, i, top) && TimeSoFar(keys, facts, i, top, st)
    ensures st.None? ==> LatestFound(facts, None)
    ensures st.Some? ==> LatestFound(facts, Some(TxKey(TxIdOf(top), st.value)))
  {
    hide Key, TopTx;
    if st.None? {
      forall e: I64, t: I64 | TopTx(facts, e) ensures !HasTime(facts, e, t) { TopIs(facts, top, e); }
    } else {
      TopCounterIs(facts, top);
    }
  }

  lemma TopCounterIs(facts: set<Fact>, top: I64)
    requires TopTx(facts, top)
    ensures ExtractCounter(top) == top - TX_PARTITION * COUNTER_SPAN
  {
    BandCounter(TX_PARTITION, top);
  }

  /** A restart finds the latest transaction of memory exactly if its counter is within the band. */
  lemma LatestRecovered(s: State, r: Option<TxKey>)
    requires Inv(s) && LatestFound(s.facts, r)
    ensures r == Some(s.latest) <==> CounterOf(s.pm, TX_PARTITION) <= BAND
  {
    hide Mirrors, Typed, Referenced, SingleValued, SingleOwner, HasSystem, Inverse, InTime, AllWritten;
    var tx := TxEid(s.latest.txId);
    var f := Fact(tx, DB_TX_INSTANT, Instant(s.latest.systemTime), tx, Assert);
    assert f in s.facts;
    if CounterOf(s.pm, TX_PARTITION) <= BAND {
      assert InBand(TX_PARTITION, tx);
      forall g | g in s.facts && InBand(TX_PARTITION, g.e) ensures g.e <= tx { CounterBelow(s, TX_PARTITION, g); }
      assert TopTx(s.facts, tx) && HasTime(s.facts, tx, s.latest.systemTime);
      var e: I64 :| TopTx(s.facts, e) && r.value.txId == e - TX_PARTITION * COUNTER_SPAN &&
        HasTime(s.facts, e, r.value.systemTime);
      TopIs(s.facts, e, tx);
    } else if r.Some? {
      var e: I64 :| TopTx(s.facts, e) && r.value.txId == e - TX_PARTITION * COUNTER_SPAN &&
        HasTime(s.facts, e, r.value.systemTime);
      assert InBand(TX_PARTITION, e);
    }
  }
}
