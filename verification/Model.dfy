/** Datoms, transactions and the schema they are checked against. */
module Model {
  import opened Octets
  import opened Values
  import opened Facts

  /** A semantic error aborts the transaction; `halt` marks a panic that stops the indexer. */
  datatype Result<+T> = Ok(value: T) | Err(halt: bool) {
    predicate IsFailure() { Err? }
    function PropagateFailure<U>(): Result<U>
      requires Err?
    {
      Err(halt)
    }
    function Extract(): T
      requires Ok?
    {
      value
    }
  }

  type TempId = Octets

  datatype EntityT = Id(id: I64) | Temp(t: TempId)
  datatype ValueT = Data(v: DataType) | TempRef(t: TempId)

  /** A datom whose entity or value may still be a tempid. */
  datatype TDatom = TDatom(e: EntityT, a: Keyword, v: ValueT, op: Op)

  datatype Datom = Datom(e: I64, a: Keyword, v: DataType, op: Op)

  datatype TxKey = TxKey(txId: I64, systemTime: I64)

  // --- Schema ----------------------------------------------------------------------------

  datatype ValueType =
    | VtKeyword | VtString | VtLong | VtRef | VtBoolean | VtDouble | VtFloat
    | VtInstant | VtUuid | VtBytes | VtBigInt | VtVector | VtMap

  datatype Unique = UniqueValue | UniqueIdentity

  datatype Attribute = Attribute(valueType: ValueType, multival: bool, unique: Option<Unique>)

  /** Both directions of the ident table, and the attributes by entity. */
  datatype Schema = Schema(entids: map<I64, Keyword>, idents: map<Keyword, I64>, attrs: map<I64, Attribute>)

  datatype AttrEntry = AttrEntry(id: I64, attr: Attribute)

  /** Ident to entity, then entity to attribute. */
  function GetAttribute(s: Schema, k: Keyword): Option<AttrEntry> {
    if k in s.idents && s.idents[k] in s.attrs then Some(AttrEntry(s.idents[k], s.attrs[s.idents[k]])) else None
  }

  /** The ident tables are inverse to each other. */
  ghost predicate Inverse(s: Schema) {
    && (forall k :: k in s.idents ==> s.idents[k] in s.entids && s.entids[s.idents[k]] == k)
    && (forall e :: e in s.entids ==> s.entids[e] in s.idents && s.idents[s.entids[e]] == e)
  }

  predicate IsIdentity(attr: Attribute) { attr.unique == Some(UniqueIdentity) }

  /** The attributes the unique index covers. */
  function UniqueAttrs(s: Schema): set<I64> {
    set a | a in s.attrs && s.attrs[a].unique.Some?
  }

  function ValueTypeOf(v: DataType): ValueType {
    match v
    case BigInt(_) => VtBigInt
    case Boolean(_) => VtBoolean
    case Bytes(_) => VtBytes
    case Double(_) => VtDouble
    case Float(_) => VtFloat
    case Instant(_) => VtInstant
    case Keyword(_) => VtKeyword
    case Long(_) => VtLong
    case String(_) => VtString
    case Uuid(_) => VtUuid
    case Vector(_) => VtVector
    case Map(_) => VtMap
  }

  /** Refs are stored as longs. */
  predicate Matches(t: ValueType, v: DataType) {
    if t.VtRef? then ValueTypeOf(v).VtLong? else t == ValueTypeOf(v)
  }

  // --- Tempids of datoms -----------------------------------------------------------------

  ghost function TempIdsOf(d: TDatom): set<TempId> {
    (if d.e.Temp? then {d.e.t} else {}) + (if d.v.TempRef? then {d.v.t} else {})
  }

  ghost function AllTempIds(ds: seq<TDatom>): set<TempId> {
    set d, t | d in ds && t in TempIdsOf(d) :: t
  }

  // --- Keywords of the system ------------------------------------------------------------

  /** The bytes of an ASCII name. */
  function Ascii(s: string): (r: Octets)
    ensures |r| == |s|
  {
    seq(|s|, i requires 0 <= i < |s| => s[i] as int % 256)
  }

  function Db(name: string): Keyword { Kw(Ascii("db"), Ascii(name)) }

  const KW_IDENT: Keyword := Db("ident")
  const KW_VALUE_TYPE: Keyword := Db("valueType")
  const KW_CARDINALITY: Keyword := Db("cardinality")
  const KW_UNIQUE: Keyword := Db("unique")
  const KW_TX_INSTANT: Keyword := Db("txInstant")
  const KW_TX_ID: Keyword := Db("txId")
  const KW_TX_RESULT: Keyword := Db("txResult")
  const KW_TX_ERROR: Keyword := Db("txError")
}
