/** Decoding and skipping encoded values: the cursor functions and the loops that run them. */
module Decode {
  import opened Octets
  import opened Values
  import opened Encode

  /** The value read and the rest of the input, or a malformed input. */
  datatype Parse<+T> = Done(value: T, rest: Octets) | Bad

  // --- What the decoders compute ---------------------------------------------------------

  function DecNat(c: Octets, n: nat): (r: Parse<nat>)
    ensures r.Done? ==> |r.rest| == |c| - n && r.value < Pow256(n)
  {
    if |c| < n then Bad else Done(FromBigEndian(c[..n]), c[n..])
  }

  function DecI64(c: Octets): (r: Parse<I64>)
    ensures r.Done? ==> |r.rest| == |c| - 8
  {
    var p := DecNat(c, 8);
    Pow256Values();
    if p.Bad? then Bad else Done(TWO_63 - 1 - p.value, p.rest)
  }

  /** The inverse of `Sortable`. */
  function Unsortable(f: Format, u: nat): int {
    if u >= f.half then u - f.half else 2 * f.half - 1 - u
  }

  function DecBytes(c: Octets): (r: Parse<Octets>)
    ensures r.Done? ==> |r.rest| < |c|
    decreases |c|
  {
    if c == [] then Bad
    else if c[0] == 0 then Done([], c[1..])
    else if c[0] == 1 then
      if |c| < 2 || !(1 <= c[1] <= 2) then Bad
      else Cons(c[1] - 1, DecBytes(c[2..]))
    else Cons(c[0], DecBytes(c[1..]))
  }

  function Cons(b: Byte, p: Parse<Octets>): Parse<Octets> {
    if p.Bad? then Bad else Done([b] + p.value, p.rest)
  }

  function DecKeyword(c: Octets): (r: Parse<DataType>)
    ensures r.Done? ==> |r.rest| < |c|
  {
    var ns := DecBytes(c);
    if ns.Bad? then Bad else
    var name := DecBytes(ns.rest);
    if name.Bad? then Bad else Done(DataType.Keyword(Kw(ns.value, name.value)), name.rest)
  }

  function DecValue(c: Octets): (r: Parse<DataType>)
    ensures r.Done? ==> |r.rest| < |c|
    decreases |c|, 1
  {
    if c == [] then Bad else DecPayload(c[0], c[1..])
  }

  function DecBigInt(c: Octets): (r: Parse<DataType>)
    ensures r.Done? ==> |r.rest| <= |c|
  {
    var p := DecNat(c, 16);
    Pow256Values();
    if p.Bad? then Bad else Done(BigInt(TWO_127 - 1 - p.value), p.rest)
  }

  function DecDouble(c: Octets): (r: Parse<DataType>)
    ensures r.Done? ==> |r.rest| <= |c|
  {
    var p := DecNat(c, 8);
    Pow256Values();
    if p.Bad? then Bad else Done(Double(Unsortable(F64, p.value)), p.rest)
  }

  function DecFloat(c: Octets): (r: Parse<DataType>)
    ensures r.Done? ==> |r.rest| <= |c|
  {
    var p := DecNat(c, 4);
    Pow256Values();
    if p.Bad? then Bad else Done(Float(Unsortable(F32, p.value)), p.rest)
  }

  function DecUuid(c: Octets): (r: Parse<DataType>)
    ensures r.Done? ==> |r.rest| <= |c|
  {
    var p := DecNat(c, 16);
    Pow256Values();
    if p.Bad? then Bad else Done(Uuid(p.value), p.rest)
  }

  function DecPayload(tag: Byte, c: Octets): (r: Parse<DataType>)
    ensures r.Done? ==> |r.rest| <= |c|
    decreases |c|, 3
  {
    match tag
    case 1 => DecBigInt(c)
    case 2 => if c == [] || c[0] > 1 then Bad else Done(Boolean(c[0] == 1), c[1..])
    case 3 => var p := DecBytes(c); if p.Bad? then Bad else Done(Bytes(p.value), p.rest)
    case 4 => DecDouble(c)
    case 5 => DecFloat(c)
    case 6 => var p := DecI64(c); if p.Bad? then Bad else Done(Instant(p.value), p.rest)
    case 13 => DecKeyword(c)
    case 7 => var p := DecI64(c); if p.Bad? then Bad else Done(Long(p.value), p.rest)
    case 9 => var p := DecBytes(c); if p.Bad? then Bad else Done(String(p.value), p.rest)
    case 10 => DecUuid(c)
    case 11 => var p := DecAll(c); if p.Bad? then Bad else Done(Vector(p.value), p.rest)
    case 12 => var p := DecEntries(c, []); if p.Bad? then Bad else Done(DataType.Map(p.value), p.rest)
    case _ => Bad
  }

  function DecAll(c: Octets): (r: Parse<seq<DataType>>)
    ensures r.Done? ==> |r.rest| < |c|
    decreases |c|, 2
  {
    if c == [] then Bad
    else if c[0] == 0 then Done([], c[1..])
    else
      var x := DecValue(c);
      if x.Bad? then Bad else
      var xs := DecAll(x.rest);
      if xs.Bad? then Bad else Done([x.value] + xs.value, xs.rest)
  }

  /** A sorted map insertion: a present key keeps its place and gets the new value. */
  function Insert(m: seq<Entry>, e: Entry): seq<Entry> {
    if m == [] || Precedes(e.key, m[0].key) then [e] + m
    else if e.key == m[0].key then [e] + m[1..]
    else [m[0]] + Insert(m[1..], e)
  }

  function DecEntries(c: Octets, m: seq<Entry>): (r: Parse<seq<Entry>>)
    ensures r.Done? ==> |r.rest| < |c|
    decreases |c|, 2
  {
    if c == [] then Bad
    else if c[0] == 0 then Done(m, c[1..])
    else if c[0] != TAG_STRING then Bad
    else
      var k := DecBytes(c[1..]);
      if k.Bad? then Bad else
      var v := DecValue(k.rest);
      if v.Bad? then Bad else DecEntries(v.rest, Insert(m, Entry(k.value, v.value)))
  }

  // --- What the skippers compute ---------------------------------------------------------

  function SkipN(c: Octets, n: nat): Option<Octets> {
    if |c| < n then None else Some(c[n..])
  }

  function SkipTerminated(c: Octets): (r: Option<Octets>)
    ensures r.Some? ==> |r.value| < |c|
    decreases |c|
  {
    if c == [] then None
    else if c[0] == 0 then Some(c[1..])
    else if c[0] == 1 then if |c| < 2 then None else SkipTerminated(c[2..])
    else SkipTerminated(c[1..])
  }

  function Skip(c: Octets): (r: Option<Octets>)
    ensures r.Some? ==> |r.value| < |c|
    decreases |c|, 1
  {
    if c == [] then None
    else
      var d := c[1..];
      match c[0]
      case 1 => SkipN(d, 16)
      case 2 => SkipN(d, 1)
      case 3 => SkipTerminated(d)
      case 4 => SkipN(d, 8)
      case 5 => SkipN(d, 4)
      case 6 => SkipN(d, 8)
      case 13 => var ns := SkipTerminated(d); if ns.None? then None else SkipTerminated(ns.value)
      case 7 => SkipN(d, 8)
      case 9 => SkipTerminated(d)
      case 10 => SkipN(d, 16)
      case 11 => SkipAll(d)
      case 12 => SkipEntries(d)
      case _ => None
  }

  function SkipAll(c: Octets): (r: Option<Octets>)
    ensures r.Some? ==> |r.value| < |c|
    decreases |c|, 2
  {
    if c == [] then None
    else if c[0] == 0 then Some(c[1..])
    else var x := Skip(c); if x.None? then None else SkipAll(x.value)
  }

  function SkipEntries(c: Octets): (r: Option<Octets>)
    ensures r.Some? ==> |r.value| < |c|
    decreases |c|, 2
  {
    if c == [] then None
    else if c[0] == 0 then Some(c[1..])
    else
      var k := Skip(c);
      if k.None? then None else
      var v := Skip(k.value);
      if v.None? then None else SkipEntries(v.value)
  }

  // --- Round trip ------------------------------------------------------------------------

  lemma NatRoundTrip(u: nat, n: nat, t: Octets)
    requires u < Pow256(n)
    ensures DecNat(BigEndian(u, n) + t, n) == Done(u, t)
  {
    BigEndianInverse(u, n);
    assert (BigEndian(u, n) + t)[..n] == BigEndian(u, n) && (BigEndian(u, n) + t)[n..] == t;
  }

  lemma I64RoundTrip(v: I64, t: Octets)
    ensures DecI64(EncI64(v) + t) == Done(v, t)
  {
    Pow256Values();
    NatRoundTrip(TWO_63 - 1 - v, 8, t);
  }

  lemma {:induction false} BytesRoundTrip(s: Octets, t: Octets)
    ensures DecBytes(EncBytes(s) + t) == Done(s, t)
  {
    var c := EncBytes(s) + t;
    if s == [] {
      assert c[1..] == t;
    } else {
      BytesRoundTrip(s[1..], t);
      assert c == Escape(s[0]) + (EncBytes(s[1..]) + t);
      assert c[|Escape(s[0])|..] == EncBytes(s[1..]) + t;
      assert s == [s[0]] + s[1..];
    }
  }

  /** Decoding an encoded value followed by anything gives back the value and that tail. */
  lemma {:induction false} RoundTrip(v: DataType, t: Octets)
    requires Valid(v)
    ensures DecValue(Enc(v) + t) == Done(v, t)
    decreases v, 1
  {
    PayloadRoundTrip(v, t);
    Peel(Tag(v), Payload(v), t);
  }

  lemma Peel(tag: Byte, p: Octets, t: Octets)
    ensures ([tag] + p + t)[0] == tag && ([tag] + p + t)[1..] == p + t
  {
  }

  lemma {:induction false} PayloadRoundTrip(v: DataType, t: Octets)
    requires Valid(v)
    ensures DecPayload(Tag(v), Payload(v) + t) == Done(v, t)
    decreases v, 0
  {
    hide DecBytes, DecKeyword, DecAll, DecEntries, DecBigInt, DecDouble, DecFloat, DecUuid, DecI64, EncAll, EncEntries,
         EncBytes, EncKeyword, EncI64, EncI128, EncF64, EncF32, BigEndian;
    match v
    case Vector(xs) => AllRoundTrip(xs, t);
    case Map(es) => WholeMapRoundTrip(es, t);
    case Bytes(x) => BytesRoundTrip(x, t);
    case String(x) => BytesRoundTrip(x, t);
    case Keyword(k) => KeywordRoundTrip(k, t);
    case _ => FixedRoundTrip(v, t);
  }

  lemma FixedRoundTrip(v: DataType, t: Octets)
    requires !v.Vector? && !v.Map? && !v.Bytes? && !v.String? && !v.Keyword?
    ensures DecPayload(Tag(v), Payload(v) + t) == Done(v, t)
  {
    hide DecBytes, DecKeyword, DecAll, DecEntries, DecBigInt, DecDouble, DecFloat, DecUuid, DecI64, EncI64, EncI128,
         EncF64, EncF32, BigEndian;
    match v
    case Boolean(x) => Peel(if x then 1 else 0, [], t);
    case Instant(x) => I64RoundTrip(x, t);
    case Long(x) => I64RoundTrip(x, t);
    case BigInt(x) => BigIntRoundTrip(x, t);
    case Double(x) => DoubleRoundTrip(x, t);
    case Float(x) => FloatRoundTrip(x, t);
    case Uuid(x) => UuidRoundTrip(x, t);
  }

  lemma BigIntRoundTrip(x: I128, t: Octets)
    ensures DecBigInt(EncI128(x) + t) == Done(BigInt(x), t)
  {
    Pow256Values();
    NatRoundTrip(TWO_127 - 1 - x, 16, t);
  }

  lemma DoubleRoundTrip(x: U64, t: Octets)
    ensures DecDouble(EncF64(x) + t) == Done(Double(x), t)
  {
    Pow256Values();
    NatRoundTrip(Sortable(F64, x), 8, t);
  }

  lemma FloatRoundTrip(x: U32, t: Octets)
    ensures DecFloat(EncF32(x) + t) == Done(Float(x), t)
  {
    Pow256Values();
    NatRoundTrip(Sortable(F32, x), 4, t);
  }

  lemma UuidRoundTrip(x: U128, t: Octets)
    ensures DecUuid(BigEndian(x, 16) + t) == Done(Uuid(x), t)
  {
    Pow256Values();
    NatRoundTrip(x, 16, t);
  }

  /** `a` decodes to `s` whatever follows it. */
  ghost predicate BytesForm(a: Octets, s: Octets) {
    forall t :: DecBytes(a + t) == Done(s, t)
  }

  lemma EncodedBytesForm(s: Octets)
    ensures BytesForm(EncBytes(s), s)
  {
    forall t ensures DecBytes(EncBytes(s) + t) == Done(s, t) { BytesRoundTrip(s, t); }
  }

  lemma KeywordRoundTrip(k: Keyword, t: Octets)
    ensures DecKeyword(EncKeyword(k) + t) == Done(DataType.Keyword(k), t)
  {
    EncodedBytesForm(k.ns);
    EncodedBytesForm(k.name);
    KeywordDecodes(k, EncBytes(k.ns), EncBytes(k.name), t);
  }

  lemma KeywordDecodes(k: Keyword, a: Octets, b: Octets, t: Octets)
    requires BytesForm(a, k.ns) && BytesForm(b, k.name)
    ensures DecKeyword(a + b + t) == Done(DataType.Keyword(k), t)
  {
    assert a + b + t == a + (b + t);
    assert DecBytes(a + (b + t)) == Done(k.ns, b + t);
    assert DecBytes(b + t) == Done(k.name, t);
  }

  lemma WholeMapRoundTrip(es: seq<Entry>, t: Octets)
    requires EntriesValid(es) && Ascending(es)
    ensures DecEntries(EncEntries(es) + t, []) == Done(es, t)
    decreases es, 3
  {
    assert [] + es == es;
    EntriesRoundTrip([], es, t);
  }

  lemma {:induction false} AllRoundTrip(xs: seq<DataType>, t: Octets)
    requires AllValid(xs)
    ensures DecAll(EncAll(xs) + t) == Done(xs, t)
    decreases xs, 2
  {
    if xs == [] {
      assert (EncAll(xs) + t)[1..] == t;
    } else {
      RoundTrip(xs[0], EncAll(xs[1..]) + t);
      AllRoundTrip(xs[1..], t);
      assert EncAll(xs) + t == Enc(xs[0]) + (EncAll(xs[1..]) + t);
      assert xs == [xs[0]] + xs[1..];
    }
  }

  lemma {:induction false} InsertLast(m: seq<Entry>, e: Entry)
    requires forall i :: 0 <= i < |m| ==> Less(m[i].key, e.key)
    ensures Insert(m, e) == m + [e]
  {
    if m != [] {
      LessAsymmetric(m[0].key, e.key);
      InsertLast(m[1..], e);
      assert m == [m[0]] + m[1..];
    }
  }

  lemma {:induction false} EntriesRoundTrip(done: seq<Entry>, es: seq<Entry>, t: Octets)
    requires EntriesValid(es) && Ascending(done + es)
    ensures DecEntries(EncEntries(es) + t, done) == Done(done + es, t)
    decreases es, 2
  {
    if es == [] {
      assert (EncEntries(es) + t)[1..] == t && done + es == done;
    } else {
      var e, rest := es[0], EncEntries(es[1..]) + t;
      Regroup(EncEntry(e), EncEntries(es[1..]), t);
      EntryDecodes(e, done, rest);
      ExtendsAscending(done, es);
      InsertLast(done, e);
      EntriesRoundTrip(done + [e], es[1..], t);
    }
  }

  lemma ExtendsAscending(done: seq<Entry>, es: seq<Entry>)
    requires es != [] && Ascending(done + es)
    ensures forall i :: 0 <= i < |done| ==> Less(done[i].key, es[0].key)
    ensures done + [es[0]] + es[1..] == done + es
  {
    forall i | 0 <= i < |done| ensures Less(done[i].key, es[0].key) {
      assert (done + es)[i] == done[i] && (done + es)[|done|] == es[0];
    }
  }

  lemma EntryDecodes(e: Entry, m: seq<Entry>, rest: Octets)
    requires Valid(e.val)
    ensures DecEntries(EncEntry(e) + rest, m) == DecEntries(rest, Insert(m, e))
    decreases e, 0
  {
    EncodedBytesForm(e.key);
    RoundTrip(e.val, rest);
    EntryStep(e, m, EncBytes(e.key), Enc(e.val), rest);
  }

  lemma EntryStep(e: Entry, m: seq<Entry>, a: Octets, b: Octets, rest: Octets)
    requires BytesForm(a, e.key) && DecValue(b + rest) == Done(e.val, rest)
    ensures DecEntries([TAG_STRING] + a + b + rest, m) == DecEntries(rest, Insert(m, e))
  {
    var c := [TAG_STRING] + a + b + rest;
    Peel(TAG_STRING, a, b + rest);
    assert c == [TAG_STRING] + a + (b + rest);
    assert DecBytes(a + (b + rest)) == Done(e.key, b + rest);
    EntryUnfolds(c, m, e, b + rest, rest);
  }

  lemma EntryUnfolds(c: Octets, m: seq<Entry>, e: Entry, mid: Octets, rest: Octets)
    requires c != [] && c[0] == TAG_STRING
    requires DecBytes(c[1..]) == Done(e.key, mid) && DecValue(mid) == Done(e.val, rest)
    ensures DecEntries(c, m) == DecEntries(rest, Insert(m, e))
  {
    assert Entry(e.key, e.val) == e;
  }

  // --- Skipping agrees with decoding -----------------------------------------------------

  lemma {:induction false} SkipTerminatedAgrees(c: Octets)
    requires DecBytes(c).Done?
    ensures SkipTerminated(c) == Some(DecBytes(c).rest)
    decreases |c|
  {
    if c[0] == 1 {
      SkipTerminatedAgrees(c[2..]);
    } else if c[0] != 0 {
      SkipTerminatedAgrees(c[1..]);
    }
  }

  /** Wherever decoding succeeds, skipping succeeds and stops at the same byte. */
  lemma {:induction false} SkipAgrees(c: Octets)
    requires DecValue(c).Done?
    ensures Skip(c) == Some(DecValue(c).rest)
    decreases |c|, 1
  {
    var d := c[1..];
    match c[0]
    case 3 => SkipTerminatedAgrees(d);
    case 9 => SkipTerminatedAgrees(d);
    case 13 =>
      SkipTerminatedAgrees(d);
      SkipTerminatedAgrees(DecBytes(d).rest);
    case 11 => SkipAllAgrees(d);
    case 12 => SkipEntriesAgrees(d, []);
    case _ =>
  }

  lemma {:induction false} SkipAllAgrees(c: Octets)
    requires DecAll(c).Done?
    ensures SkipAll(c) == Some(DecAll(c).rest)
    decreases |c|, 2
  {
    if c[0] != 0 {
      SkipAgrees(c);
      SkipAllAgrees(DecValue(c).rest);
    }
  }

  lemma {:induction false} SkipEntriesAgrees(c: Octets, m: seq<Entry>)
    requires DecEntries(c, m).Done?
    ensures SkipEntries(c) == Some(DecEntries(c, m).rest)
    decreases |c|, 2
  {
    if c[0] != 0 {
      var k := DecBytes(c[1..]);
      SkipTerminatedAgrees(c[1..]);
      SkipAgrees(k.rest);
      var v := DecValue(k.rest);
      SkipEntriesAgrees(v.rest, Insert(m, Entry(k.value, v.value)));
    }
  }

  /** Skipping an encoded value lands exactly on what follows it. */
  lemma SkipPastEncoded(v: DataType, t: Octets)
    requires Valid(v)
    ensures Skip(Enc(v) + t) == Some(t)
  {
    RoundTrip(v, t);
    SkipAgrees(Enc(v) + t);
  }

  // --- The decoders that move a cursor ---------------------------------------------------

  method DecodeBytes(cursor: Octets) returns (r: Parse<Octets>)
    ensures r == DecBytes(cursor)
  {
    var c, result := cursor, [];
    assert DecBytes(c).Done? ==> [] + DecBytes(c).value == DecBytes(c).value;
    while true
      invariant DecBytes(cursor) == (var p := DecBytes(c); if p.Bad? then Bad else Done(result + p.value, p.rest))
      decreases |c|
    {
      if c == [] { return Bad; }
      var b := c[0];
      ghost var here := c;
      c := c[1..];
      if b == 0 {
        assert result + [] == result;
        return Done(result, c);
      } else if b == 1 {
        if c == [] { return Bad; }
        var next := c[0];
        c := c[1..];
        assert c == here[2..];
        match next {
          case 1 => Append(result, 0, DecBytes(c)); result := result + [0];
          case 2 => Append(result, 1, DecBytes(c)); result := result + [1];
          case _ => return Bad;
        }
      } else {
        Append(result, b, DecBytes(c));
        result := result + [b];
      }
    }
  }

  lemma Append(result: Octets, b: Byte, p: Parse<Octets>)
    ensures p.Done? ==> result + ([b] + p.value) == result + [b] + p.value
  {
  }

  method DecodeDatatype(cursor: Octets) returns (r: Parse<DataType>)
    ensures r == DecValue(cursor)
    decreases |cursor|, 1
  {
    if cursor == [] { return Bad; }
    var tag, c := cursor[0], cursor[1..];
    match tag {
      case 3 =>
        var p := DecodeBytes(c);
        r := if p.Bad? then Bad else Done(Bytes(p.value), p.rest);
      case 9 =>
        var p := DecodeBytes(c);
        r := if p.Bad? then Bad else Done(String(p.value), p.rest);
      case 13 =>
        var ns := DecodeBytes(c);
        if ns.Bad? { return Bad; }
        var name := DecodeBytes(ns.rest);
        r := if name.Bad? then Bad else Done(DataType.Keyword(Kw(ns.value, name.value)), name.rest);
      case 11 =>
        var p := DecodeComposite(c);
        r := if p.Bad? then Bad else Done(Vector(p.value), p.rest);
      case 12 =>
        var p := DecodeMap(c);
        r := if p.Bad? then Bad else Done(DataType.Map(p.value), p.rest);
      case _ => r := DecPayload(tag, c);
    }
  }

  method DecodeComposite(cursor: Octets) returns (r: Parse<seq<DataType>>)
    ensures r == DecAll(cursor)
    decreases |cursor|, 2
  {
    var c, elements := cursor, [];
    assert DecAll(c).Done? ==> [] + DecAll(c).value == DecAll(c).value;
    while true
      invariant |c| <= |cursor|
      invariant DecAll(cursor) == (var p := DecAll(c); if p.Bad? then Bad else Done(elements + p.value, p.rest))
      decreases |c|
    {
      if c == [] { return Bad; }
      if c[0] == 0 {
        assert elements + [] == elements;
        return Done(elements, c[1..]);
      }
      var x := DecodeDatatype(c);
      if x.Bad? { return Bad; }
      ghost var p := DecAll(x.rest);
      assert p.Done? ==> elements + ([x.value] + p.value) == elements + [x.value] + p.value;
      elements := elements + [x.value];
      c := x.rest;
    }
  }

  method DecodeMap(cursor: Octets) returns (r: Parse<seq<Entry>>)
    ensures r == DecEntries(cursor, [])
    decreases |cursor|, 2
  {
    var c, m := cursor, [];
    while true
      invariant |c| <= |cursor|
      invariant DecEntries(cursor, []) == DecEntries(c, m)
      decreases |c|
    {
      if c == [] { return Bad; }
      if c[0] == 0 { return Done(m, c[1..]); }
      if c[0] != TAG_STRING { return Bad; }
      var k := DecodeBytes(c[1..]);
      if k.Bad? { return Bad; }
      var v := DecodeDatatype(k.rest);
      if v.Bad? { return Bad; }
      m := Insert(m, Entry(k.value, v.value));
      c := v.rest;
    }
  }

  method SkipTerminatedBytes(cursor: Octets) returns (r: Option<Octets>)
    ensures r == SkipTerminated(cursor)
  {
    var c := cursor;
    while true
      invariant SkipTerminated(cursor) == SkipTerminated(c)
      decreases |c|
    {
      if c == [] { return None; }
      var b := c[0];
      ghost var here := c;
      c := c[1..];
      if b == 0 { return Some(c); }
      if b == 1 {
        if c == [] { return None; }
        c := c[1..];
        assert c == here[2..];
      }
    }
  }

  method SkipDatatype(cursor: Octets) returns (r: Option<Octets>)
    ensures r == Skip(cursor)
    decreases |cursor|, 1
  {
    if cursor == [] { return None; }
    var c := cursor[1..];
    match cursor[0] {
      case 3 => r := SkipTerminatedBytes(c);
      case 9 => r := SkipTerminatedBytes(c);
      case 13 =>
        r := SkipTerminatedBytes(c);
        if r.Some? { r := SkipTerminatedBytes(r.value); }
      case 11 => r := SkipComposite(c);
      case 12 => r := SkipMap(c);
      case 1 => r := SkipN(c, 16);
      case 10 => r := SkipN(c, 16);
      case 2 => r := SkipN(c, 1);
      case 5 => r := SkipN(c, 4);
      case 4 => r := SkipN(c, 8);
      case 6 => r := SkipN(c, 8);
      case 7 => r := SkipN(c, 8);
      case _ => r := None;
    }
  }

  method SkipComposite(cursor: Octets) returns (r: Option<Octets>)
    ensures r == SkipAll(cursor)
    decreases |cursor|, 2
  {
    var c := cursor;
    while true
      invariant |c| <= |cursor|
      invariant SkipAll(cursor) == SkipAll(c)
      decreases |c|
    {
      if c == [] { return None; }
      if c[0] == 0 { return Some(c[1..]); }
      var x := SkipDatatype(c);
      if x.None? { return None; }
      c := x.value;
    }
  }

  method SkipMap(cursor: Octets) returns (r: Option<Octets>)
    ensures r == SkipEntries(cursor)
    decreases |cursor|, 2
  {
    var c := cursor;
    while true
      invariant |c| <= |cursor|
      invariant SkipEntries(cursor) == SkipEntries(c)
      decreases |c|
    {
      if c == [] { return None; }
      if c[0] == 0 { return Some(c[1..]); }
      var k := SkipDatatype(c);
      if k.None? { return None; }
      var v := SkipDatatype(k.value);
      if v.None? { return None; }
      c := v.value;
    }
  }
}
