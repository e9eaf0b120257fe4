/** Validation of datoms against the schema, and how schema datoms change it. */
module SchemaRules {
  import opened Octets
  import opened Values
  import opened Facts
  import opened Model

  // --- Reserved entities -----------------------------------------------------------------

  const DB_IDENT: I64 := 1
  const DB_VALUE_TYPE: I64 := 2
  const DB_CARDINALITY: I64 := 3
  const DB_UNIQUE: I64 := 4
  const CARDINALITY_ONE: I64 := 30
  const CARDINALITY_MANY: I64 := 31
  const UNIQUE_VALUE: I64 := 32
  const UNIQUE_IDENTITY: I64 := 33
  const DB_TX_INSTANT: I64 := 40
  const DB_TX_ID: I64 := 41
  const DB_TX_RESULT: I64 := 42
  const DB_TX_ERROR: I64 := 43
  const TX_COMMITTED: I64 := 50
  const TX_ABORTED: I64 := 51

  function TypeId(t: ValueType): (id: I64)
    ensures TypeFromId(id) == Some(t)
  {
    match t
    case VtKeyword => 10
    case VtString => 11
    case VtLong => 12
    case VtRef => 13
    case VtBoolean => 14
    case VtDouble => 15
    case VtFloat => 16
    case VtInstant => 17
    case VtUuid => 18
    case VtBytes => 19
    case VtBigInt => 20
    case VtVector => 21
    case VtMap => 22
  }

  function TypeFromId(id: I64): Option<ValueType> {
    if id == 10 then Some(VtKeyword)
    else if id == 11 then Some(VtString)
    else if id == 12 then Some(VtLong)
    else if id == 13 then Some(VtRef)
    else if id == 14 then Some(VtBoolean)
    else if id == 15 then Some(VtDouble)
    else if id == 16 then Some(VtFloat)
    else if id == 17 then Some(VtInstant)
    else if id == 18 then Some(VtUuid)
    else if id == 19 then Some(VtBytes)
    else if id == 20 then Some(VtBigInt)
    else if id == 21 then Some(VtVector)
    else if id == 22 then Some(VtMap)
    else None
  }

  lemma TypeIdsExact(id: I64, t: ValueType)
    ensures TypeFromId(id) == Some(t) <==> id == TypeId(t)
  {
  }

  /** Whether a cardinality entity means many. */
  function ManyFromId(id: I64): Option<bool> {
    if id == CARDINALITY_ONE then Some(false) else if id == CARDINALITY_MANY then Some(true) else None
  }

  function CardinalityId(many: bool): I64 { if many then CARDINALITY_MANY else CARDINALITY_ONE }

  function UniqueFromId(id: I64): Option<Unique> {
    if id == UNIQUE_VALUE then Some(UniqueValue) else if id == UNIQUE_IDENTITY then Some(UniqueIdentity) else None
  }

  function UniqueId(u: Unique): I64 { if u.UniqueValue? then UNIQUE_VALUE else UNIQUE_IDENTITY }

  predicate IsSchemaAttr(k: Keyword) {
    k == KW_IDENT || k == KW_VALUE_TYPE || k == KW_CARDINALITY || k == KW_UNIQUE
  }

  // --- Validation ------------------------------------------------------------------------

  /** The datom is about attribute `a` of entity `e`. */
  predicate About(d: Datom, schema: Schema, a: I64, e: I64) {
    GetAttribute(schema, d.a).Some? && GetAttribute(schema, d.a).value.id == a && d.e == e
  }

  predicate WellTyped(d: Datom, schema: Schema) {
    GetAttribute(schema, d.a).Some? && Matches(GetAttribute(schema, d.a).value.attr.valueType, d.v)
  }

  /** Two datoms of one entity and one single-valued attribute that no transaction may hold together. */
  predicate Conflict(d: Datom, f: Datom, schema: Schema) {
    && GetAttribute(schema, d.a).Some? && !GetAttribute(schema, d.a).value.attr.multival
    && About(f, schema, GetAttribute(schema, d.a).value.id, d.e)
    && (if d.op == f.op then d.op.Assert? && !SameKey(d.v, f.v) else SameKey(d.v, f.v))
  }

  ghost predicate Validates(ds: seq<Datom>, schema: Schema) {
    && (forall i :: 0 <= i < |ds| ==> WellTyped(ds[i], schema))
    && (forall i, j :: 0 <= i < j < |ds| ==> !Conflict(ds[i], ds[j], schema))
  }

  ghost predicate ChangesSchema(ds: seq<Datom>) {
    exists d :: d in ds && IsSchemaAttr(d.a)
  }

  // --- Schema updates --------------------------------------------------------------------

  datatype SchemaUpdate = SchemaUpdate(idents: map<I64, Keyword>, attributes: map<I64, Attribute>)

  /** The value has the shape its schema attribute needs. */
  predicate ProperValue(d: Datom) {
    if d.a == KW_IDENT then d.v.Keyword?
    else if d.a == KW_VALUE_TYPE then d.v.Long? && TypeFromId(d.v.i).Some?
    else if d.a == KW_CARDINALITY then d.v.Long? && ManyFromId(d.v.i).Some?
    else d.v.Long? && UniqueFromId(d.v.i).Some?
  }

  predicate Installable(d: Datom, schema: Schema) {
    d.e !in schema.attrs && d.op.Assert? && ProperValue(d)
  }

  /** The value `ds` assert for an attribute of `e`. */
  ghost function AssertedIn(ds: set<Datom>, e: I64, k: Keyword): (r: Option<DataType>)
    ensures r.Some? ==> Datom(e, k, r.value, Assert) in ds
    ensures r.None? ==> forall v :: Datom(e, k, v, Assert) !in ds
  {
    if v :| Datom(e, k, v, Assert) in ds then Some(v) else None
  }

  /** Some datom starts a definition of an attribute at `e`. */
  ghost predicate Defines(ds: set<Datom>, e: I64) {
    || AssertedIn(ds, e, KW_VALUE_TYPE).Some?
    || AssertedIn(ds, e, KW_CARDINALITY).Some?
    || AssertedIn(ds, e, KW_UNIQUE).Some?
  }

  ghost predicate Complete(ds: set<Datom>, e: I64) {
    AssertedIn(ds, e, KW_VALUE_TYPE).Some? && AssertedIn(ds, e, KW_CARDINALITY).Some?
  }

  /** When `prepare_schema_update` accepts. */
  ghost predicate Preparable(ds: set<Datom>, schema: Schema) {
    && (forall d :: d in ds && IsSchemaAttr(d.a) ==> Installable(d, schema))
    && (forall d :: d in ds && Defines(ds, d.e) ==> Complete(ds, d.e))
  }

  ghost function BuiltAttribute(ds: set<Datom>, e: I64): Attribute {
    var vt, card, u := AssertedIn(ds, e, KW_VALUE_TYPE), AssertedIn(ds, e, KW_CARDINALITY),
      AssertedIn(ds, e, KW_UNIQUE);
    Attribute(if vt.Some? && vt.value.Long? && TypeFromId(vt.value.i).Some? then TypeFromId(vt.value.i).value
      else VtLong,
              card.Some? && card.value == Long(CARDINALITY_MANY),
              if u.Some? && u.value.Long? then UniqueFromId(u.value.i) else None)
  }

  ghost function Prepared(ds: set<Datom>): SchemaUpdate {
    var named := set d | d in ds && AssertedIn(ds, d.e, KW_IDENT).Some? &&
      AssertedIn(ds, d.e, KW_IDENT).value.Keyword? :: d.e;
    var defined := set d | d in ds && Defines(ds, d.e) :: d.e;
    SchemaUpdate(map e | e in named ::
      AssertedIn(ds, e, KW_IDENT).value.kw, map e | e in defined :: BuiltAttribute(ds, e))
  }

  lemma UpdateIdents(final: set<Datom>, e: I64)
    ensures var a := AssertedIn(final, e, KW_IDENT);
            && (e in Prepared(final).idents <==> a.Some? && a.value.Keyword?)
            && (e in Prepared(final).idents ==> Prepared(final).idents[e] == a.value.kw)
  {
    var a := AssertedIn(final, e, KW_IDENT);
    if a.Some? { assert Datom(e, KW_IDENT, a.value, Assert) in final; }
  }

  lemma UpdateAttributes(final: set<Datom>, e: I64)
    ensures e in Prepared(final).attributes <==> Defines(final, e)
    ensures e in Prepared(final).attributes ==> Prepared(final).attributes[e] == BuiltAttribute(final, e)
  {
    var vt, card, u := AssertedIn(final, e, KW_VALUE_TYPE), AssertedIn(final, e, KW_CARDINALITY),
      AssertedIn(final, e, KW_UNIQUE);
    if vt.Some? { assert Datom(e, KW_VALUE_TYPE, vt.value, Assert) in final; }
    if card.Some? { assert Datom(e, KW_CARDINALITY, card.value, Assert) in final; }
    if u.Some? { assert Datom(e, KW_UNIQUE, u.value, Assert) in final; }
  }

  lemma NamesDistinct()
    ensures KW_VALUE_TYPE != KW_IDENT && KW_CARDINALITY != KW_IDENT && KW_UNIQUE != KW_IDENT
    ensures KW_CARDINALITY != KW_VALUE_TYPE && KW_UNIQUE != KW_VALUE_TYPE && KW_UNIQUE != KW_CARDINALITY
  {
    assert |KW_IDENT.name| == 5 && |KW_VALUE_TYPE.name| == 9 && |KW_CARDINALITY.name| == 11 && |KW_UNIQUE.name| == 6;
  }

  ghost function Backwards(idents: map<I64, Keyword>): (r: map<Keyword, I64>)
    ensures forall k :: k in r ==> r[k] in idents && idents[r[k]] == k
    ensures forall e :: e in idents ==> idents[e] in r
  {
    map k | k in idents.Values :: (var e :| e in idents && idents[e] == k; e)
  }

  ghost function Applied(schema: Schema, u: SchemaUpdate): Schema {
    Schema(schema.entids + u.idents, schema.idents + Backwards(u.idents), schema.attrs + u.attributes)
  }

  /** New names keep the two ident tables inverse if they are new and different. */
  lemma AppliedInverse(schema: Schema, u: SchemaUpdate)
    requires Inverse(schema)
    requires forall e :: e in u.idents ==> e !in schema.entids && u.idents[e] !in schema.idents
    requires forall d, e :: d in u.idents && e in u.idents && u.idents[d] == u.idents[e] ==> d == e
    ensures Inverse(Applied(schema, u))
  {
    var s := Applied(schema, u);
    forall k | k in s.idents ensures s.idents[k] in s.entids && s.entids[s.idents[k]] == k {}
    forall e | e in s.entids ensures s.entids[e] in s.idents && s.idents[s.entids[e]] == e {
      if e in u.idents { assert Backwards(u.idents)[u.idents[e]] == e; }
    }
  }
}
