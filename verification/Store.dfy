/** The stored key set: what a transaction adds, parsing keys back, and batch lookups over it. */
module Store {
  import opened Octets
  import opened Ordered
  import opened Values
  import opened Encode
  import opened Decode
  import opened Scan
  import opened Facts
  import opened Index

  // --- Parsing keys ----------------------------------------------------------------------

  /** A parsed temporal key. */
  datatype Parts = Parts(entity: DataType, attribute: I64, value: DataType, tx: I64, op: Byte)

  datatype Stripped = Stripped(data: Octets, tx: I64, op: Byte)

  function StripTemporal(key: Octets, expected: Byte): Option<Stripped> {
    if key == [] || key[0] != expected || |key| < 1 + TX_EID_OP_SUFFIX then None
    else
      var n := |key| - TX_EID_OP_SUFFIX;
      var tx := DecI64(key[n..|key| - 1]);
      if tx.Bad? then None else Some(Stripped(key[1..n], tx.value, key[|key| - 1]))
  }

  /** `*_key_to_parts`: the components in the order of the index. */
  function KeyToParts(x: Idx, key: Octets): Option<Parts> {
    var s := StripTemporal(key, IndexByte(x));
    if s.None? then None else
    match x
    case EAV =>
      var e := DecValue(s.value.data);
      if e.Bad? then None else
      var a := DecI64(e.rest);
      if a.Bad? then None else
      var v := DecValue(a.rest);
      if v.Bad? then None else Some(Parts(e.value, a.value, v.value, s.value.tx, s.value.op))
    case AVE =>
      var a := DecI64(s.value.data);
      if a.Bad? then None else
      var v := DecValue(a.rest);
      if v.Bad? then None else
      var e := DecValue(v.rest);
      if e.Bad? then None else Some(Parts(e.value, a.value, v.value, s.value.tx, s.value.op))
    case AEV =>
      var a := DecI64(s.value.data);
      if a.Bad? then None else
      var e := DecValue(a.rest);
      if e.Bad? then None else
      var v := DecValue(e.rest);
      if v.Bad? then None else Some(Parts(e.value, a.value, v.value, s.value.tx, s.value.op))
    case VAE =>
      var v := DecValue(s.value.data);
      if v.Bad? then None else
      var a := DecI64(v.rest);
      if a.Bad? then None else
      var e := DecValue(a.rest);
      if e.Bad? then None else Some(Parts(e.value, a.value, v.value, s.value.tx, s.value.op))
  }

  function PartsOf(f: Fact): Parts { Parts(Long(f.e), f.a, f.v, f.tx, OpByte(f.op)) }

  lemma StripsKey(x: Idx, f: Fact)
    ensures StripTemporal(Key(x, f), IndexByte(x)) == Some(Stripped(Body(x, f.e, f.a, f.v), f.tx, OpByte(f.op)))
  {
    var body := Body(x, f.e, f.a, f.v);
    SliceParts(IndexByte(x), body, EncI64(f.tx), OpByte(f.op));
    I64RoundTrip(f.tx, []);
    assert EncI64(f.tx) + [] == EncI64(f.tx);
  }

  lemma SliceParts(b: Byte, body: Octets, tx: Octets, op: Byte)
    requires |tx| == 8
    ensures var k := [b] + body + (tx + [op]);
            |k| == 1 + |body| + 9 && k[0] == b && k[|k| - 1] == op &&
            k[1..|k| - 9] == body && k[|k| - 9..|k| - 1] == tx
  {
  }

  /** Parsing inverts the writer of every temporal index. */
  lemma PartsInvertWriter(x: Idx, f: Fact)
    requires Valid(f.v)
    ensures KeyToParts(x, Key(x, f)) == Some(PartsOf(f))
  {
    StripsKey(x, f);
    var e, a, v := EncE(f.e), EncI64(f.a), Enc(f.v);
    assert e + [] == e && v + [] == v;
    match x
    case EAV =>
      RoundTrip(Long(f.e), a + v);
      I64RoundTrip(f.a, v);
      RoundTrip(f.v, []);
    case AVE =>
      I64RoundTrip(f.a, v + e);
      RoundTrip(f.v, e);
      RoundTrip(Long(f.e), []);
    case AEV =>
      I64RoundTrip(f.a, e + v);
      RoundTrip(Long(f.e), v);
      RoundTrip(f.v, []);
    case VAE =>
      RoundTrip(f.v, a + e);
      I64RoundTrip(f.a, e);
      RoundTrip(Long(f.e), []);
  }

  // --- Fixed-offset extraction -----------------------------------------------------------

  const CODEC_LENGTH := 1
  const ENTITY_LENGTH := 9
  const ATTRIBUTE_LENGTH := 8

  /** `make_extractor`: a component cut out by offsets from either end of the key. */
  function Extract(x: Idx, position: nat, key: Octets): Octets
    requires position < 3
    requires |key| >= CODEC_LENGTH + ENTITY_LENGTH + ATTRIBUTE_LENGTH + TX_EID_OP_SUFFIX
  {
    var n := |key|;
    match x
    case EAV =>
      if position == 0 then key[1..10] else if position == 1 then key[10..18] else key[18..n - 9]
    case AVE =>
      if position == 0 then key[1..9] else if position == 1 then key[9..n - 18] else key[n - 18..n - 9]
    case AEV =>
      if position == 0 then key[1..9] else if position == 1 then key[9..18] else key[18..n - 9]
    case VAE =>
      if position == 0 then key[1..n - 26] else if position == 1 then key[n - 26..n - 18] else key[n - 18..n - 9]
  }

  /** The component encodings in index order. */
  function Component(x: Idx, position: nat, f: Fact): Octets
    requires position < 3
  {
    match x
    case EAV => if position == 0 then EncE(f.e) else if position == 1 then EncI64(f.a) else Enc(f.v)
    case AVE => if position == 0 then EncI64(f.a) else if position == 1 then Enc(f.v) else EncE(f.e)
    case AEV => if position == 0 then EncI64(f.a) else if position == 1 then EncE(f.e) else Enc(f.v)
    case VAE => if position == 0 then Enc(f.v) else if position == 1 then EncI64(f.a) else EncE(f.e)
  }

  lemma SliceThree(b: Byte, p: Octets, q: Octets, r: Octets, s: Octets)
    ensures var k := [b] + (p + (q + r)) + s;
            var i, j := 1 + |p|, 1 + |p| + |q|;
            |k| == j + |r| + |s| && k[1..i] == p && k[i..j] == q && k[j..j + |r|] == r
  {
  }

  /** Offsets find the same components that parsing does. */
  lemma ExtractorsAgree(x: Idx, position: nat, f: Fact)
    requires position < 3
    ensures |Key(x, f)| >= CODEC_LENGTH + ENTITY_LENGTH + ATTRIBUTE_LENGTH + TX_EID_OP_SUFFIX
    ensures Extract(x, position, Key(x, f)) == Component(x, position, f)
  {
    hide Enc, EncI64, EncE, Suffix;
    var e, a, v, s := EncE(f.e), EncI64(f.a), Enc(f.v), Suffix(f.tx, f.op);
    match x
    case EAV => SliceThree(IndexByte(x), e, a, v, s);
    case AVE => SliceThree(IndexByte(x), a, v, e, s);
    case AEV => SliceThree(IndexByte(x), a, e, v, s);
    case VAE => SliceThree(IndexByte(x), v, a, e, s);
  }

  /** `prefix_extractor`: everything before a component. */
  function ExtractPrefix(x: Idx, position: nat, key: Octets): Octets
    requires position < 3
    requires |key| >= CODEC_LENGTH + ENTITY_LENGTH + ATTRIBUTE_LENGTH + TX_EID_OP_SUFFIX
  {
    var n := |key|;
    if position == 0 then key[..1]
    else
      match x
      case EAV => if position == 1 then key[..10] else key[..18]
      case AVE => if position == 1 then key[..9] else key[..n - 18]
      case AEV => if position == 1 then key[..9] else key[..18]
      case VAE => if position == 1 then key[..n - 26] else key[..n - 18]
  }

  /** The index byte and the components before a position. */
  function Leading(x: Idx, position: nat, f: Fact): Octets
    requires position < 3
  {
    if position == 0 then [IndexByte(x)] else Leading(x, position - 1, f) + Component(x, position - 1, f)
  }

  lemma PrefixThree(b: Byte, p: Octets, q: Octets, r: Octets, s: Octets)
    ensures var k := [b] + (p + (q + r)) + s;
            k[..1] == [b] && k[..1 + |p|] == [b] + p && k[..1 + |p| + |q|] == [b] + p + q
  {
  }

  /** The prefix extractors stop exactly where the component begins. */
  lemma PrefixesAgree(x: Idx, position: nat, f: Fact)
    requires position < 3
    ensures |Key(x, f)| >= CODEC_LENGTH + ENTITY_LENGTH + ATTRIBUTE_LENGTH + TX_EID_OP_SUFFIX
    ensures ExtractPrefix(x, position, Key(x, f)) == Leading(x, position, f)
  {
    hide Enc, EncI64, EncE, Suffix;
    LeadingIs(x, f);
    var e, a, v, s := EncE(f.e), EncI64(f.a), Enc(f.v), Suffix(f.tx, f.op);
    match x
    case EAV => PrefixThree(IndexByte(x), e, a, v, s);
    case AVE => PrefixThree(IndexByte(x), a, v, e, s);
    case AEV => PrefixThree(IndexByte(x), a, e, v, s);
    case VAE => PrefixThree(IndexByte(x), v, a, e, s);
  }

  lemma LeadingIs(x: Idx, f: Fact)
    ensures var b := [IndexByte(x)];
            && Leading(x, 0, f) == b && Leading(x, 1, f) == b + Component(x, 0, f)
            && Leading(x, 2, f) == b + Component(x, 0, f) + Component(x, 1, f)
  {
    hide Component, IndexByte;
  }

  // --- The atemporal indexes -------------------------------------------------------------

  const AE_BYTE: Byte := 3
  const AV_BYTE: Byte := 4

  function AeKey(a: I64, e: I64): (k: Octets) ensures k != [] && k[0] == 3 { [3] + (EncI64(a) + EncE(e)) }

  function AvKey(a: I64, v: DataType): (k: Octets) ensures k != [] && k[0] == 4 { [4] + (EncI64(a) + Enc(v)) }

  /** `ae_key_to_parts` and `av_key_to_parts`. */
  function PairToParts(key: Octets, expected: Byte): Option<(I64, DataType)> {
    if key == [] || key[0] != expected || |key| < 2 then None else
    var a := DecI64(key[1..]);
    if a.Bad? then None else
    var v := DecValue(a.rest);
    if v.Bad? then None else Some((a.value, v.value))
  }

  /** The offsets of the atemporal keys, which have no suffix. */
  function ExtractPair(position: nat, key: Octets): Octets
    requires position < 2 && |key| >= CODEC_LENGTH + ATTRIBUTE_LENGTH
  {
    if position == 0 then key[1..9] else key[9..]
  }

  lemma PairSlices(b: Byte, a: Octets, w: Octets)
    requires |a| == 8
    ensures var k := [b] + (a + w);
            |k| == 9 + |w| && k[0] == b && k[1..] == a + w && k[1..9] == a && k[9..] == w && k[..9] == [b] + a
  {
  }

  lemma PairAgrees(b: Byte, a: I64, w: DataType)
    requires Valid(w)
    ensures var k := [b] + (EncI64(a) + Enc(w));
            |k| > 9 && PairToParts(k, b) == Some((a, w)) && ExtractPair(0, k) == EncI64(a) &&
              ExtractPair(1, k) == Enc(w)
  {
    hide Enc, EncI64, DecValue, DecI64;
    PairSlices(b, EncI64(a), Enc(w));
    I64RoundTrip(a, Enc(w));
    RoundTrip(w, []);
    assert Enc(w) + [] == Enc(w);
  }

  /** Parsing and offsets agree on the atemporal indexes as well. */
  lemma AtemporalAgrees(a: I64, e: I64, v: DataType)
    requires Valid(v)
    ensures PairToParts(AeKey(a, e), AE_BYTE) == Some((a, Long(e))) && PairToParts(AvKey(a, v), AV_BYTE) == Some((a, v))
    ensures |AeKey(a, e)| > 9 && ExtractPair(0, AeKey(a, e)) == EncI64(a) && ExtractPair(1, AeKey(a, e)) == EncE(e)
    ensures |AvKey(a, v)| > 9 && ExtractPair(0, AvKey(a, v)) == EncI64(a) && ExtractPair(1, AvKey(a, v)) == Enc(v)
  {
    hide Enc, EncI64, PairToParts, ExtractPair;
    PairAgrees(AE_BYTE, a, Long(e));
    PairAgrees(AV_BYTE, a, v);
  }

  // --- The key set -----------------------------------------------------------------------

  function FactKeys(f: Fact, isUnique: bool): set<Octets> {
    {Key(EAV, f), Key(AVE, f), Key(AEV, f)} +
    (if isUnique then {Key(VAE, f)} else {}) +
    (if f.op.Assert? then {AeKey(f.a, f.e), AvKey(f.a, f.v)} else {})
  }

  ghost function AtemporalKeys(facts: set<Fact>): set<Octets> {
    (set f | f in facts && f.op.Assert? :: AeKey(f.a, f.e)) + (set f | f in facts && f.op.Assert? :: AvKey(f.a, f.v))
  }

  /** The keys of a set of facts, the unique-only index restricted to unique attributes. */
  ghost function AllKeys(facts: set<Fact>, unique: set<I64>): set<Octets> {
    IndexKeys(EAV, facts, unique) + IndexKeys(AVE, facts, unique) + IndexKeys(AEV, facts, unique) +
    IndexKeys(VAE, facts, unique) + AtemporalKeys(facts)
  }

  predicate StartsWith(k: Octets, b: Byte) { k != [] && k[0] == b }

  /** Keys of the index under byte `b`. */
  function Under(db: set<Octets>, b: Byte): set<Octets> {
    set k | k in db && StartsWith(k, b)
  }

  /** Each covering index of `db` holds exactly the facts, the unique-only one those of unique attributes. */
  ghost predicate DbHolds(db: set<Octets>, facts: set<Fact>, unique: set<I64>) {
    forall x: Idx :: Under(db, IndexByte(x)) == IndexKeys(x, facts, unique)
  }

  lemma IndexKeysStart(x: Idx, facts: set<Fact>, unique: set<I64>)
    ensures forall k :: k in IndexKeys(x, facts, unique) ==> StartsWith(k, IndexByte(x))
  {
  }

  lemma AtemporalKeysStart(facts: set<Fact>)
    ensures forall k :: k in AtemporalKeys(facts) ==> StartsWith(k, 3) || StartsWith(k, 4)
  {
  }

  /** Storing the keys of a set of facts makes every covering index hold them. */
  lemma AllKeysHold(facts: set<Fact>, unique: set<I64>)
    ensures DbHolds(AllKeys(facts, unique), facts, unique)
  {
    IndexKeysStart(EAV, facts, unique);
    IndexKeysStart(AVE, facts, unique);
    IndexKeysStart(AEV, facts, unique);
    IndexKeysStart(VAE, facts, unique);
    AtemporalKeysStart(facts);
    PartByByte(IndexKeys(EAV, facts, unique), IndexKeys(AVE, facts, unique), IndexKeys(AEV, facts, unique),
               IndexKeys(VAE, facts, unique), AtemporalKeys(facts));
    forall x: Idx ensures Under(AllKeys(facts, unique), IndexByte(x)) == IndexKeys(x, facts, unique) {
      match x case EAV => case AVE => case AEV => case VAE =>
    }
  }

  lemma PartByByte(eav: set<Octets>, ave: set<Octets>, aev: set<Octets>, vae: set<Octets>, rest: set<Octets>)
    requires forall k :: k in eav ==> StartsWith(k, 0)
    requires forall k :: k in ave ==> StartsWith(k, 1)
    requires forall k :: k in aev ==> StartsWith(k, 2)
    requires forall k :: k in vae ==> StartsWith(k, 5)
    requires forall k :: k in rest ==> StartsWith(k, 3) || StartsWith(k, 4)
    ensures Under(eav + ave + aev + vae + rest, 0) == eav
    ensures Under(eav + ave + aev + vae + rest, 1) == ave
    ensures Under(eav + ave + aev + vae + rest, 2) == aev
    ensures Under(eav + ave + aev + vae + rest, 5) == vae
  {
  }

  /** Adding one fact adds its keys. */
  lemma AllKeysStep(facts: set<Fact>, f: Fact, unique: set<I64>)
    ensures AllKeys(facts + {f}, unique) == AllKeys(facts, unique) + FactKeys(f, f.a in unique)
  {
    IndexKeysStep(EAV, facts, f, unique);
    IndexKeysStep(AVE, facts, f, unique);
    IndexKeysStep(AEV, facts, f, unique);
    IndexKeysStep(VAE, facts, f, unique);
    AtemporalKeysStep(facts, f);
    SumOfSteps(IndexKeys(EAV, facts, unique), IndexKeys(AVE, facts, unique), IndexKeys(AEV, facts, unique),
               IndexKeys(VAE, facts, unique), AtemporalKeys(facts), Key(EAV, f), Key(AVE, f), Key(AEV, f),
               if f.a in unique then {Key(VAE, f)} else {},
               if f.op.Assert? then {AeKey(f.a, f.e), AvKey(f.a, f.v)} else {});
  }

  lemma SumOfSteps(eav: set<Octets>, ave: set<Octets>, aev: set<Octets>, vae: set<Octets>, rest: set<Octets>,
                   p: Octets, q: Octets, r: Octets, s: set<Octets>, t: set<Octets>)
    ensures (eav + {p}) + (ave + {q}) + (aev + {r}) + (vae + s) + (rest + t) ==
            eav + ave + aev + vae + rest + ({p, q, r} + s + t)
  {
  }

  lemma AtemporalKeysStep(facts: set<Fact>, f: Fact)
    ensures AtemporalKeys(facts + {f}) ==
            AtemporalKeys(facts) + (if f.op.Assert? then {AeKey(f.a, f.e), AvKey(f.a, f.v)} else {})
  {
  }

  lemma IndexKeysStep(x: Idx, facts: set<Fact>, f: Fact, unique: set<I64>)
    ensures IndexKeys(x, facts + {f}, unique) ==
            IndexKeys(x, facts, unique) + (if Covers(x, unique, f) then {Key(x, f)} else {})
  {
  }

  lemma HoldsUnion(db: set<Octets>, facts: set<Fact>, keys: set<Octets>, added: set<Fact>, unique: set<I64>)
    requires DbHolds(db, facts, unique) && DbHolds(keys, added, unique)
    ensures DbHolds(db + keys, facts + added, unique)
  {
    forall x: Idx ensures Under(db + keys, IndexByte(x)) == IndexKeys(x, facts + added, unique) {
      assert Under(db + keys, IndexByte(x)) == Under(db, IndexByte(x)) + Under(keys, IndexByte(x));
      assert IndexKeys(x, facts + added, unique) == IndexKeys(x, facts, unique) + IndexKeys(x, added, unique);
    }
  }

  /** The facts an index spells out when its keys are parsed. */
  ghost predicate Spells(db: set<Octets>, x: Idx, f: Fact) {
    exists k :: k in Under(db, IndexByte(x)) && KeyToParts(x, k) == Some(PartsOf(f))
  }

  /** The covering indexes agree on the facts they spell out, and the unique index on those of unique attributes. */
  lemma IndexesAgree(db: set<Octets>, facts: set<Fact>, unique: set<I64>, x: Idx, f: Fact)
    requires DbHolds(db, facts, unique) && forall g :: g in facts ==> Valid(g.v)
    ensures Spells(db, x, f) <==> f in facts && Covers(x, unique, f)
  {
    hide Key, KeyToParts, PartsOf, Valid, Under;
    assert Under(db, IndexByte(x)) == IndexKeys(x, facts, unique);
    if f in facts && Covers(x, unique, f) {
      PartsInvertWriter(x, f);
      assert Key(x, f) in Under(db, IndexByte(x));
    }
    if Spells(db, x, f) {
      var k :| k in IndexKeys(x, facts, unique) && KeyToParts(x, k) == Some(PartsOf(f));
      var g :| g in facts && Covers(x, unique, g) && k == Key(x, g);
      PartsInvertWriter(x, g);
      SameParts(f, g);
    }
  }

  lemma SameParts(f: Fact, g: Fact)
    requires PartsOf(f) == PartsOf(g)
    ensures f == g
  {
    assert Long(f.e) == Long(g.e);
    assert f == Fact(f.e, f.a, f.v, f.tx, f.op) && g == Fact(g.e, g.a, g.v, g.tx, g.op);
  }

  /** The ordered range of one index, as `scan_prefix` delivers it. */
  method ScanIndex(db: set<Octets>, x: Idx, ghost facts: set<Fact>, ghost unique: set<I64>) returns (keys: seq<Octets>)
    requires DbHolds(db, facts, unique)
    ensures RangeOf(keys, x, facts, unique) && Ordinary(keys)
  {
    keys := SortKeys(Under(db, IndexByte(x)));
    RangeOrdinary(keys, x, facts, unique);
  }
}
