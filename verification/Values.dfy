/** Stored values: fixed-width integers, float bit patterns, keywords and nested composites. */
module Values {
  import opened Octets

  const TWO_31: int := 0x8000_0000
  const TWO_63: int := 0x8000_0000_0000_0000
  const TWO_127: int := 0x8000_0000_0000_0000_0000_0000_0000_0000

  type I64 = x: int | -TWO_63 <= x < TWO_63 witness 0
  type I128 = x: int | -TWO_127 <= x < TWO_127 witness 0
  type U32 = x: int | 0 <= x < 2 * TWO_31 witness 0
  type U64 = x: int | 0 <= x < 2 * TWO_63 witness 0
  type U128 = x: int | 0 <= x < 2 * TWO_127 witness 0

  /** A keyword; an empty namespace stands for a plain keyword. */
  datatype Keyword = Kw(ns: Octets, name: Octets)

  /**
   * Floats are their bit patterns, instants microseconds, strings their bytes, a map its
   * entries in ascending key order.
   */
  datatype DataType =
    | BigInt(big: I128)
    | Boolean(b: bool)
    | Bytes(bytes: Octets)
    | Double(f64: U64)
    | Float(f32: U32)
    | Instant(micros: I64)
    | Keyword(kw: Keyword)
    | Long(i: I64)
    | String(s: Octets)
    | Uuid(uuid: U128)
    | Vector(elems: seq<DataType>)
    | Map(entries: seq<Entry>)

  datatype Entry = Entry(key: Octets, val: DataType)

  /** Every map inside `v` lists its keys in strictly ascending order. */
  ghost predicate Valid(v: DataType)
    decreases v, 1
  {
    match v
    case Vector(xs) => AllValid(xs)
    case Map(es) => EntriesValid(es) && Ascending(es)
    case _ => true
  }

  ghost predicate AllValid(xs: seq<DataType>)
    decreases xs, 0
  {
    xs == [] || (Valid(xs[0]) && AllValid(xs[1..]))
  }

  ghost predicate EntriesValid(es: seq<Entry>)
    decreases es, 0
  {
    es == [] || (Valid(es[0].val) && EntriesValid(es[1..]))
  }

  ghost predicate Ascending(es: seq<Entry>) {
    forall i, j :: 0 <= i < j < |es| ==> Less(es[i].key, es[j].key)
  }

  // --- Float classes and numeric order ---------------------------------------------------

  /** A float format: `half` is the weight of the sign bit, `frac` one more than the largest fraction. */
  datatype Format = Format(half: nat, frac: nat)

  const F64: Format := Format(TWO_63, 0x10_0000_0000_0000)
  const F32: Format := Format(TWO_31, 0x80_0000)

  function Negative(f: Format, bits: nat): bool { bits >= f.half }

  function Magnitude(f: Format, bits: nat): nat { if bits >= f.half then bits - f.half else bits }

  /** The magnitude of infinity: every exponent bit set, no fraction bit. */
  function Infinity(f: Format): nat
    requires f == F64 || f == F32
  {
    f.half - f.frac
  }

  function IsNaN(f: Format, bits: nat): bool
    requires f == F64 || f == F32
  {
    Magnitude(f, bits) > Infinity(f)
  }

  /** The absolute value, counted in units of the smallest subnormal; infinity is past every finite one. */
  function Scaled(f: Format, m: nat): int
    requires f.frac > 0
  {
    var e := m / f.frac;
    if e <= 0 then m else (f.frac + m % f.frac) * Pow2(e - 1)
  }

  function Pow2(n: nat): (p: nat)
    ensures p >= 1
  {
    if n == 0 then 1 else 2 * Pow2(n - 1)
  }

  function Numeric(f: Format, bits: nat): int
    requires f.frac > 0
  {
    var m := Scaled(f, Magnitude(f, bits));
    if Negative(f, bits) then -m else m
  }

  /**
   * The totalOrder predicate of section 5.10 of IEEE 754-2019, strict form: numeric order, then
   * negative zero before positive zero, negative NaNs below and positive NaNs above every number,
   * NaNs of one sign by payload.
   */
  predicate TotalLess(f: Format, x: nat, y: nat)
    requires f == F64 || f == F32
  {
    if IsNaN(f, x) || IsNaN(f, y) then
      if IsNaN(f, x) && IsNaN(f, y) && Negative(f, x) == Negative(f, y) then
        if Negative(f, x) then Magnitude(f, x) > Magnitude(f, y) else Magnitude(f, x) < Magnitude(f, y)
      else
        (IsNaN(f, x) && Negative(f, x)) || (IsNaN(f, y) && !Negative(f, y))
    else
      Numeric(f, x) < Numeric(f, y) ||
      (Numeric(f, x) == Numeric(f, y) && Negative(f, x) && !Negative(f, y))
  }

  // --- The intended order of values ------------------------------------------------------

  function Tag(v: DataType): (t: Byte)
    ensures 1 <= t <= 13
  {
    match v
    case BigInt(_) => 1
    case Boolean(_) => 2
    case Bytes(_) => 3
    case Double(_) => 4
    case Float(_) => 5
    case Instant(_) => 6
    case Long(_) => 7
    case String(_) => 9
    case Uuid(_) => 10
    case Vector(_) => 11
    case Map(_) => 12
    case Keyword(_) => 13
  }

  /** Values by type tag; integers descending, floats by totalOrder, byte strings ascending. */
  ghost predicate ValueLess(x: DataType, y: DataType)
    decreases x, 1
  {
    if Tag(x) != Tag(y) then Tag(x) < Tag(y)
    else
      match x
      case BigInt(a) => a > y.big
      case Boolean(a) => !a && y.b
      case Bytes(a) => Less(a, y.bytes)
      case Double(a) => TotalLess(F64, a, y.f64)
      case Float(a) => TotalLess(F32, a, y.f32)
      case Instant(a) => a > y.micros
      case Keyword(a) => Less(a.ns, y.kw.ns) || (a.ns == y.kw.ns && Less(a.name, y.kw.name))
      case Long(a) => a > y.i
      case String(a) => Less(a, y.s)
      case Uuid(a) => a < y.uuid
      case Vector(a) => VectorLess(a, y.elems)
      case Map(a) => EntriesLess(a, y.entries)
  }

  /** Element by element, a proper prefix first. */
  ghost predicate VectorLess(xs: seq<DataType>, ys: seq<DataType>)
    decreases xs, 0
  {
    ys != [] && (xs == [] || ValueLess(xs[0], ys[0]) || (xs[0] == ys[0] && VectorLess(xs[1..], ys[1..])))
  }

  ghost predicate EntriesLess(xs: seq<Entry>, ys: seq<Entry>)
    decreases xs, 0
  {
    ys != [] &&
    (xs == [] || Less(xs[0].key, ys[0].key) ||
     (xs[0].key == ys[0].key &&
      (ValueLess(xs[0].val, ys[0].val) || (xs[0].val == ys[0].val && EntriesLess(xs[1..], ys[1..])))))
  }

  // --- Equality as the maps of the program see it ----------------------------------------

  /** `v == v` under float equality: no NaN anywhere inside. */
  predicate Reflexive(v: DataType)
    decreases v, 1
  {
    match v
    case Double(x) => !IsNaN(F64, x)
    case Float(x) => !IsNaN(F32, x)
    case Vector(xs) => AllReflexive(xs)
    case Map(es) => EntriesReflexive(es)
    case _ => true
  }

  predicate AllReflexive(xs: seq<DataType>)
    decreases xs, 0
  {
    xs == [] || (Reflexive(xs[0]) && AllReflexive(xs[1..]))
  }

  predicate EntriesReflexive(es: seq<Entry>)
    decreases es, 0
  {
    es == [] || (Reflexive(es[0].val) && EntriesReflexive(es[1..]))
  }

  /** A hash lookup of `w` finds the key `v`: the same bits, and equal to itself. */
  predicate SameKey(v: DataType, w: DataType) {
    v == w && Reflexive(v)
  }

  /** The `==` of values: floats compare as numbers, so the two zeros are equal and no NaN is. */
  predicate ValueEq(v: DataType, w: DataType)
    decreases v, 1
  {
    match v
    case Double(x) => w.Double? && FloatEq(F64, x, w.f64)
    case Float(x) => w.Float? && FloatEq(F32, x, w.f32)
    case Vector(xs) => w.Vector? && AllEq(xs, w.elems)
    case Map(es) => w.Map? && EntriesEq(es, w.entries)
    case _ => v == w
  }

  predicate FloatEq(f: Format, x: nat, y: nat)
    requires f == F64 || f == F32
  {
    !IsNaN(f, x) && !IsNaN(f, y) && (x == y || (Magnitude(f, x) == 0 && Magnitude(f, y) == 0))
  }

  predicate AllEq(xs: seq<DataType>, ys: seq<DataType>)
    decreases xs, 0
  {
    |xs| == |ys| && (xs == [] || (ValueEq(xs[0], ys[0]) && AllEq(xs[1..], ys[1..])))
  }

  predicate EntriesEq(xs: seq<Entry>, ys: seq<Entry>)
    decreases xs, 0
  {
    |xs| == |ys| &&
    (xs == [] || (xs[0].key == ys[0].key && ValueEq(xs[0].val, ys[0].val) && EntriesEq(xs[1..], ys[1..])))
  }
}
