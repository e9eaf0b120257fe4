/** The order-preserving encoding of values, as functions and as the buffer-filling loops. */
module Encode {
  import opened Octets
  import opened Values

  // --- Big-endian integers ---------------------------------------------------------------

  function Pow256(n: nat): (p: nat)
    ensures p >= 1
  {
    if n == 0 then 1 else 256 * Pow256(n - 1)
  }

  function BigEndian(u: nat, n: nat): (s: Octets)
    ensures |s| == n
  {
    if n == 0 then [] else BigEndian(u / 256, n - 1) + [u % 256]
  }

  function FromBigEndian(s: Octets): (u: nat)
    ensures u < Pow256(|s|)
  {
    if s == [] then 0 else FromBigEndian(s[..|s| - 1]) * 256 + s[|s| - 1]
  }

  lemma Pow256Values()
    ensures Pow256(4) == 2 * TWO_31 && Pow256(8) == 2 * TWO_63 && Pow256(16) == 2 * TWO_127
  {
    assert Pow256(4) == 256 * (256 * (256 * 256));
    assert Pow256(8) == 256 * (256 * (256 * (256 * Pow256(4))));
    assert Pow256(12) == 256 * (256 * (256 * (256 * Pow256(8))));
    assert Pow256(16) == 256 * (256 * (256 * (256 * Pow256(12))));
  }

  lemma {:induction false} BigEndianInverse(u: nat, n: nat)
    requires u < Pow256(n)
    ensures FromBigEndian(BigEndian(u, n)) == u
  {
    if n != 0 {
      DropByte(u, Pow256(n - 1));
      BigEndianInverse(u / 256, n - 1);
      assert BigEndian(u, n)[..n - 1] == BigEndian(u / 256, n - 1);
    }
  }

  lemma DropByte(u: nat, p: nat)
    requires u < 256 * p
    ensures u / 256 < p && u == u / 256 * 256 + u % 256
  {
  }

  lemma {:induction false} BigEndianOrder(u: nat, w: nat, n: nat)
    requires u < w < Pow256(n)
    ensures Below(BigEndian(u, n), BigEndian(w, n))
  {
    DropByte(w, Pow256(n - 1));
    if u / 256 < w / 256 {
      BigEndianOrder(u / 256, w / 256, n - 1);
      BelowExtends(BigEndian(u / 256, n - 1), BigEndian(w / 256, n - 1), [u % 256], [w % 256]);
    } else {
      var p := BigEndian(u / 256, n - 1);
      BelowAt([u % 256], [w % 256], 0);
      BelowUnderPrefix(p, [u % 256], [w % 256]);
    }
  }

  // --- Scalars ---------------------------------------------------------------------------

  /** `(value ^ i64::MAX).to_be_bytes()`: as an unsigned number, i64::MAX - value. */
  function EncI64(v: I64): (s: Octets)
    ensures |s| == 8
  {
    BigEndian(TWO_63 - 1 - v, 8)
  }

  function EncI128(v: I128): (s: Octets)
    ensures |s| == 16
  {
    BigEndian(TWO_127 - 1 - v, 16)
  }

  /** All bits flipped for a set sign bit, else the sign bit set. */
  function Sortable(f: Format, bits: nat): int {
    if Negative(f, bits) then 2 * f.half - 1 - bits else bits + f.half
  }

  function EncF64(bits: U64): (s: Octets)
    ensures |s| == 8
  {
    BigEndian(Sortable(F64, bits), 8)
  }

  function EncF32(bits: U32): (s: Octets)
    ensures |s| == 4
  {
    BigEndian(Sortable(F32, bits), 4)
  }

  lemma I64Order(x: I64, y: I64)
    requires x > y
    ensures Below(EncI64(x), EncI64(y))
  {
    Pow256Values();
    BigEndianOrder(TWO_63 - 1 - x, TWO_63 - 1 - y, 8);
  }

  lemma {:induction false} Pow2Monotone(a: nat, b: nat)
    requires a <= b
    ensures Pow2(a) <= Pow2(b)
  {
    if a < b { Pow2Monotone(a, b - 1); }
  }

  /** A larger magnitude pattern denotes a larger absolute value. */
  lemma ScaledMonotone(f: Format, m: nat, k: nat)
    requires f.frac > 0 && m < k
    ensures Scaled(f, m) < Scaled(f, k)
  {
    var q, r := m / f.frac, k / f.frac;
    QuotientMonotone(m, k, f.frac);
    if q == r {
      if q > 0 { Widen(f.frac + m % f.frac, f.frac + k % f.frac, Pow2(q - 1)); }
    } else if q == 0 {
      WidenWeak(1, Pow2(r - 1), f.frac + k % f.frac);
    } else {
      NextBinade(f.frac, m % f.frac, k % f.frac, q, r);
    }
  }

  lemma NextBinade(w: nat, a: nat, b: nat, q: nat, r: nat)
    requires a < w && 0 < q < r
    ensures (w + a) * Pow2(q - 1) < (w + b) * Pow2(r - 1)
  {
    Pow2Monotone(q, r - 1);
    Widen(w + a, 2 * w, Pow2(q - 1));
    assert 2 * w * Pow2(q - 1) == w * Pow2(q) by { assert Pow2(q) == 2 * Pow2(q - 1); }
    WidenWeak(Pow2(q), Pow2(r - 1), w);
    WidenWeak(w, w + b, Pow2(r - 1));
  }

  lemma QuotientMonotone(m: nat, k: nat, d: nat)
    requires d > 0 && m < k
    ensures 0 <= m / d <= k / d
    ensures m == m / d * d + m % d && k == k / d * d + k % d
    ensures 0 <= m % d < d && 0 <= k % d < d
    ensures m / d == k / d ==> m % d < k % d
    ensures m / d == 0 ==> m < d
  {
    if m / d > k / d {
      WidenWeak(k / d + 1, m / d, d);
      assert false;
    }
  }

  lemma Widen(a: nat, b: nat, p: nat)
    requires a < b && p >= 1
    ensures a * p < b * p
  {
    assert b * p - a * p == (b - a) * p;
    WidenWeak(1, b - a, p);
  }

  lemma {:induction false} WidenWeak(a: nat, b: nat, p: nat)
    requires a <= b
    ensures a * p <= b * p && p * a <= p * b
  {
    assert b * p - a * p == (b - a) * p >= 0;
  }

  /** The sortable form orders bit patterns exactly by totalOrder. */
  lemma SortableOrder(f: Format, x: nat, y: nat)
    requires f == F64 || f == F32
    requires x < 2 * f.half && y < 2 * f.half
    ensures TotalLess(f, x, y) <==> Sortable(f, x) < Sortable(f, y)
  {
    var m, k := Magnitude(f, x), Magnitude(f, y);
    if m < k { ScaledMonotone(f, m, k); }
    if k < m { ScaledMonotone(f, k, m); }
    if m > 0 { ScaledMonotone(f, 0, m); }
    if k > 0 { ScaledMonotone(f, 0, k); }
  }

  // --- Variable-length byte strings ------------------------------------------------------

  function Escape(b: Byte): Octets {
    if b == 0 then [1, 1] else if b == 1 then [1, 2] else [b]
  }

  function EncBytes(s: Octets): Octets {
    if s == [] then [0] else Escape(s[0]) + EncBytes(s[1..])
  }

  /** Escaping and the terminator keep the order of byte strings, whatever follows. */
  lemma {:induction false} BytesOrder(a: Octets, b: Octets)
    requires Less(a, b)
    ensures Below(EncBytes(a), EncBytes(b))
    decreases |a|
  {
    if a == [] {
      BelowAt(EncBytes(a), EncBytes(b), 0);
    } else if a[0] == b[0] {
      assert a == [a[0]] + a[1..] && b == [a[0]] + b[1..];
      SharedPrefixStrips([a[0]], a[1..], b[1..]);
      BytesOrder(a[1..], b[1..]);
      BelowUnderPrefix(Escape(a[0]), EncBytes(a[1..]), EncBytes(b[1..]));
    } else {
      FirstByteDecides(a, b);
      BelowAt(Escape(a[0]), Escape(b[0]), if a[0] == 0 && b[0] == 1 then 1 else 0);
      BelowExtends(Escape(a[0]), Escape(b[0]), EncBytes(a[1..]), EncBytes(b[1..]));
    }
  }

  function EncKeyword(k: Keyword): Octets {
    EncBytes(k.ns) + EncBytes(k.name)
  }

  // --- Tagged values ---------------------------------------------------------------------

  function Enc(v: DataType): (s: Octets)
    ensures s != [] && s[0] == Tag(v)
    decreases v, 2
  {
    [Tag(v)] + Payload(v)
  }

  function Payload(v: DataType): Octets
    decreases v, 1
  {
    match v
    case BigInt(x) => EncI128(x)
    case Boolean(x) => [if x then 1 else 0]
    case Bytes(x) => EncBytes(x)
    case Double(x) => EncF64(x)
    case Float(x) => EncF32(x)
    case Instant(x) => EncI64(x)
    case Keyword(x) => EncKeyword(x)
    case Long(x) => EncI64(x)
    case String(x) => EncBytes(x)
    case Uuid(x) => BigEndian(x, 16)
    case Vector(xs) => EncAll(xs)
    case Map(es) => EncEntries(es)
  }

  function EncAll(xs: seq<DataType>): Octets
    decreases xs, 0
  {
    if xs == [] then [0] else Enc(xs[0]) + EncAll(xs[1..])
  }

  const TAG_STRING: Byte := 9

  function EncEntries(es: seq<Entry>): Octets
    decreases es, 0
  {
    if es == [] then [0] else EncEntry(es[0]) + EncEntries(es[1..])
  }

  function EncEntry(e: Entry): (s: Octets)
    ensures s != [] && s[0] == TAG_STRING
    decreases e, 0
  {
    [TAG_STRING] + EncBytes(e.key) + Enc(e.val)
  }

  // --- Order of the encoding -------------------------------------------------------------

  /**
   * The order theorem: a smaller value has an encoding that is below, decided before either
   * encoding ends. Prefix-freeness, injectivity and order preservation all follow from it.
   */
  lemma {:induction false} EncodingOrder(x: DataType, y: DataType)
    requires ValueLess(x, y)
    ensures Below(Enc(x), Enc(y))
    decreases x, 1
  {
    if Tag(x) != Tag(y) {
      BelowAt([Tag(x)], [Tag(y)], 0);
      BelowExtends([Tag(x)], [Tag(y)], Payload(x), Payload(y));
    } else {
      PayloadOrder(x, y);
      BelowUnderPrefix([Tag(x)], Payload(x), Payload(y));
    }
  }

  lemma {:induction false} PayloadOrder(x: DataType, y: DataType)
    requires Tag(x) == Tag(y) && ValueLess(x, y)
    ensures Below(Payload(x), Payload(y))
    decreases x, 0
  {
    match x
    case Vector(xs) => VectorOrder(xs, y.elems);
    case Map(es) => EntriesOrder(es, y.entries);
    case Bytes(a) => BytesOrder(a, y.bytes);
    case String(a) => BytesOrder(a, y.s);
    case Keyword(a) => KeywordOrder(a, y.kw);
    case Boolean(a) => BelowAt(Payload(x), Payload(y), 0);
    case _ => ScalarOrder(x, y);
  }

  lemma ScalarOrder(x: DataType, y: DataType)
    requires Tag(x) == Tag(y) && ValueLess(x, y)
    requires x.BigInt? || x.Double? || x.Float? || x.Instant? || x.Long? || x.Uuid?
    ensures Below(Payload(x), Payload(y))
  {
    Pow256Values();
    match x
    case BigInt(a) => BigEndianOrder(TWO_127 - 1 - a, TWO_127 - 1 - y.big, 16);
    case Double(a) =>
      SortableOrder(F64, a, y.f64);
      BigEndianOrder(Sortable(F64, a), Sortable(F64, y.f64), 8);
    case Float(a) =>
      SortableOrder(F32, a, y.f32);
      BigEndianOrder(Sortable(F32, a), Sortable(F32, y.f32), 4);
    case Instant(a) => I64Order(a, y.micros);
    case Long(a) => I64Order(a, y.i);
    case Uuid(a) => BigEndianOrder(a, y.uuid, 16);
  }

  lemma KeywordOrder(a: Keyword, b: Keyword)
    requires Less(a.ns, b.ns) || (a.ns == b.ns && Less(a.name, b.name))
    ensures Below(EncKeyword(a), EncKeyword(b))
  {
    if Less(a.ns, b.ns) {
      BytesOrder(a.ns, b.ns);
      BelowExtends(EncBytes(a.ns), EncBytes(b.ns), EncBytes(a.name), EncBytes(b.name));
    } else {
      BytesOrder(a.name, b.name);
      BelowUnderPrefix(EncBytes(a.ns), EncBytes(a.name), EncBytes(b.name));
    }
  }

  lemma {:induction false} VectorOrder(xs: seq<DataType>, ys: seq<DataType>)
    requires VectorLess(xs, ys)
    ensures Below(EncAll(xs), EncAll(ys))
    decreases xs, 2
  {
    if xs == [] {
      BelowAt(EncAll(xs), EncAll(ys), 0);
    } else if ValueLess(xs[0], ys[0]) {
      EncodingOrder(xs[0], ys[0]);
      BelowExtends(Enc(xs[0]), Enc(ys[0]), EncAll(xs[1..]), EncAll(ys[1..]));
    } else {
      VectorOrder(xs[1..], ys[1..]);
      BelowUnderPrefix(Enc(xs[0]), EncAll(xs[1..]), EncAll(ys[1..]));
    }
  }

  lemma {:induction false} EntriesOrder(xs: seq<Entry>, ys: seq<Entry>)
    requires EntriesLess(xs, ys)
    ensures Below(EncEntries(xs), EncEntries(ys))
    decreases xs, 2
  {
    if xs == [] {
      BelowAt(EncEntries(xs), EncEntries(ys), 0);
    } else if xs[0] == ys[0] {
      EntryNotLess(xs, ys);
      EntriesOrder(xs[1..], ys[1..]);
      BelowUnderPrefix(EncEntry(xs[0]), EncEntries(xs[1..]), EncEntries(ys[1..]));
    } else {
      EntryOrder(xs[0], ys[0]);
      BelowExtends(EncEntry(xs[0]), EncEntry(ys[0]), EncEntries(xs[1..]), EncEntries(ys[1..]));
    }
  }

  lemma EntryNotLess(xs: seq<Entry>, ys: seq<Entry>)
    requires EntriesLess(xs, ys) && xs != [] && xs[0] == ys[0]
    ensures EntriesLess(xs[1..], ys[1..])
  {
    if Less(xs[0].key, ys[0].key) { LessAsymmetric(xs[0].key, ys[0].key); }
    if ValueLess(xs[0].val, xs[0].val) { Irreflexive(xs[0].val); }
  }

  lemma EntryOrder(a: Entry, b: Entry)
    requires Less(a.key, b.key) || (a.key == b.key && ValueLess(a.val, b.val))
    ensures Below(EncEntry(a), EncEntry(b))
    decreases a, 2
  {
    if Less(a.key, b.key) {
      BytesOrder(a.key, b.key);
      BelowUnderPrefix([TAG_STRING], EncBytes(a.key), EncBytes(b.key));
      BelowExtends([TAG_STRING] + EncBytes(a.key), [TAG_STRING] + EncBytes(b.key), Enc(a.val), Enc(b.val));
    } else {
      EncodingOrder(a.val, b.val);
      BelowUnderPrefix([TAG_STRING] + EncBytes(a.key), Enc(a.val), Enc(b.val));
    }
  }

  lemma {:induction false} Irreflexive(x: DataType)
    ensures !ValueLess(x, x)
    decreases x, 1
  {
    match x
    case Vector(xs) => VectorIrreflexive(xs);
    case Map(es) => EntriesIrreflexive(es);
    case Bytes(a) => if Less(a, a) { LessAsymmetric(a, a); }
    case String(a) => if Less(a, a) { LessAsymmetric(a, a); }
    case Keyword(k) =>
      if Less(k.ns, k.ns) { LessAsymmetric(k.ns, k.ns); }
      if Less(k.name, k.name) { LessAsymmetric(k.name, k.name); }
    case _ =>
  }

  lemma {:induction false} VectorIrreflexive(xs: seq<DataType>)
    ensures !VectorLess(xs, xs)
    decreases xs, 0
  {
    if xs != [] {
      Irreflexive(xs[0]);
      VectorIrreflexive(xs[1..]);
    }
  }

  lemma {:induction false} EntriesIrreflexive(es: seq<Entry>)
    ensures !EntriesLess(es, es)
    decreases es, 0
  {
    if es != [] {
      if Less(es[0].key, es[0].key) { LessAsymmetric(es[0].key, es[0].key); }
      Irreflexive(es[0].val);
      EntriesIrreflexive(es[1..]);
    }
  }

  /** Any two different values are ordered. */
  lemma {:induction false} ValueTotal(x: DataType, y: DataType)
    ensures x == y || ValueLess(x, y) || ValueLess(y, x)
    decreases x, 1
  {
    if Tag(x) == Tag(y) {
      match x
      case Vector(xs) => VectorTotal(xs, y.elems);
      case Map(es) => EntriesTotal(es, y.entries);
      case Bytes(a) => LessTotal(a, y.bytes);
      case String(a) => LessTotal(a, y.s);
      case Keyword(a) =>
        LessTotal(a.ns, y.kw.ns);
        LessTotal(a.name, y.kw.name);
      case Double(a) =>
        SortableOrder(F64, a, y.f64);
        SortableOrder(F64, y.f64, a);
      case Float(a) =>
        SortableOrder(F32, a, y.f32);
        SortableOrder(F32, y.f32, a);
      case _ =>
    }
  }

  lemma {:induction false} VectorTotal(xs: seq<DataType>, ys: seq<DataType>)
    ensures xs == ys || VectorLess(xs, ys) || VectorLess(ys, xs)
    decreases xs, 0
  {
    if xs != [] && ys != [] {
      ValueTotal(xs[0], ys[0]);
      VectorTotal(xs[1..], ys[1..]);
      assert xs == [xs[0]] + xs[1..] && ys == [ys[0]] + ys[1..];
    }
  }

  lemma {:induction false} EntriesTotal(xs: seq<Entry>, ys: seq<Entry>)
    ensures xs == ys || EntriesLess(xs, ys) || EntriesLess(ys, xs)
    decreases xs, 0
  {
    if xs != [] && ys != [] {
      LessTotal(xs[0].key, ys[0].key);
      ValueTotal(xs[0].val, ys[0].val);
      EntriesTotal(xs[1..], ys[1..]);
      assert xs == [xs[0]] + xs[1..] && ys == [ys[0]] + ys[1..];
    }
  }

  /** Byte order is value order, in both directions, with anything appended to either side. */
  lemma ByteOrderIsValueOrder(x: DataType, y: DataType, s: Octets, t: Octets)
    requires x != y
    ensures Less(Enc(x) + s, Enc(y) + t) <==> ValueLess(x, y)
    ensures PrefixFree(Enc(x), Enc(y))
  {
    ValueTotal(x, y);
    if ValueLess(x, y) {
      EncodingOrder(x, y);
      BelowIsPrefixFree(Enc(x), Enc(y));
      BelowExtends(Enc(x), Enc(y), s, t);
    }
    if ValueLess(y, x) {
      EncodingOrder(y, x);
      BelowIsPrefixFree(Enc(y), Enc(x));
      BelowExtends(Enc(y), Enc(x), t, s);
      LessAsymmetric(Enc(y) + t, Enc(x) + s);
    }
  }

  /** Two concatenations that start with an encoded value agree only if value and rest agree. */
  lemma EncodingSplits(x: DataType, y: DataType, s: Octets, t: Octets)
    requires Enc(x) + s == Enc(y) + t
    ensures x == y && s == t
  {
    if x != y {
      ByteOrderIsValueOrder(x, y, s, t);
    }
    assert (Enc(x) + s)[|Enc(x)|..] == s && (Enc(y) + t)[|Enc(y)|..] == t;
  }

  // --- The encoders that fill a buffer ---------------------------------------------------

  lemma Regroup(a: Octets, b: Octets, c: Octets)
    ensures a + b + c == a + (b + c)
  {
  }

  method EncodeBytes(value: Octets, buf: Octets) returns (out: Octets)
    ensures out == buf + EncBytes(value)
  {
    out := buf;
    var i := 0;
    assert value[0..] == value;
    while i < |value|
      invariant 0 <= i <= |value|
      invariant out + EncBytes(value[i..]) == buf + EncBytes(value)
    {
      assert value[i..][1..] == value[i + 1..];
      ghost var before, rest := out, EncBytes(value[i + 1..]);
      match value[i] {
        case 0 => out := out + [1, 1];
        case 1 => out := out + [1, 2];
        case b => out := out + [b];
      }
      assert out == before + Escape(value[i]);
      Regroup(before, Escape(value[i]), rest);
      i := i + 1;
    }
    out := out + [0];
  }

  method EncodeDatatype(value: DataType, buf: Octets) returns (out: Octets)
    ensures out == buf + Enc(value)
    decreases value, 3
  {
    out := EncodePayload(value, buf + [Tag(value)]);
    assert buf + [Tag(value)] + Payload(value) == buf + ([Tag(value)] + Payload(value));
  }

  method EncodePayload(value: DataType, buf: Octets) returns (out: Octets)
    ensures out == buf + Payload(value)
    decreases value, 2
  {
    match value {
      case BigInt(v) => out := buf + EncI128(v);
      case Boolean(v) => out := buf + [if v then 1 else 0];
      case Bytes(v) => out := EncodeBytes(v, buf);
      case Double(v) => out := buf + EncF64(v);
      case Float(v) => out := buf + EncF32(v);
      case Instant(v) => out := buf + EncI64(v);
      case Keyword(v) =>
        out := EncodeBytes(v.ns, buf);
        out := EncodeBytes(v.name, out);
        Regroup(buf, EncBytes(v.ns), EncBytes(v.name));
      case Long(v) => out := buf + EncI64(v);
      case String(v) => out := EncodeBytes(v, buf);
      case Uuid(v) => out := buf + BigEndian(v, 16);
      case Vector(v) => out := EncodeComposite(v, buf);
      case Map(v) => out := EncodeMap(v, buf);
    }
  }

  method EncodeComposite(elements: seq<DataType>, buf: Octets) returns (out: Octets)
    ensures out == buf + EncAll(elements)
    decreases elements, 1
  {
    out := buf;
    var i := 0;
    assert elements[0..] == elements;
    while i < |elements|
      invariant 0 <= i <= |elements|
      invariant out + EncAll(elements[i..]) == buf + EncAll(elements)
    {
      assert elements[i..][1..] == elements[i + 1..];
      ghost var before := out;
      out := EncodeDatatype(elements[i], out);
      Regroup(before, Enc(elements[i]), EncAll(elements[i + 1..]));
      i := i + 1;
    }
    out := out + [0];
  }

  method EncodeMap(entries: seq<Entry>, buf: Octets) returns (out: Octets)
    ensures out == buf + EncEntries(entries)
    decreases entries, 1
  {
    out := buf;
    var i := 0;
    assert entries[0..] == entries;
    while i < |entries|
      invariant 0 <= i <= |entries|
      invariant out + EncEntries(entries[i..]) == buf + EncEntries(entries)
    {
      assert entries[i..][1..] == entries[i + 1..];
      ghost var before := out;
      out := EncodeEntry(entries[i], out);
      Regroup(before, EncEntry(entries[i]), EncEntries(entries[i + 1..]));
      i := i + 1;
    }
    out := out + [0];
  }

  method EncodeEntry(entry: Entry, buf: Octets) returns (out: Octets)
    ensures out == buf + EncEntry(entry)
    decreases entry, 1
  {
    out := EncodeBytes(entry.key, buf + [TAG_STRING]);
    out := EncodeDatatype(entry.val, out);
    assert buf + [TAG_STRING] + EncBytes(entry.key) + Enc(entry.val) == buf + EncEntry(entry);
  }
}
