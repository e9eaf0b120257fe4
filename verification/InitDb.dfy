/** The bootstrap transaction, and a fresh database built by running it. */
module InitDb {
  import opened Octets
  import opened Values
  import opened Facts
  import opened Model
  import opened Store
  import opened Lookup
  import opened Partition
  import opened SchemaRules
  import opened Expand
  import opened Expander
  import opened Tempids
  import opened Resolver
  import opened Transact
  import opened Validate
  import opened Stages
  import opened Invariant
  import opened SchemaKept
  import opened Runs
  import opened Asserting
  import opened Bootstrap
  import opened Recovery
  import opened Indexer

  // --- The operations --------------------------------------------------------------------

  /** Attributes first, then the entities that only have a name. */
  const BOOT_LIST: seq<I64> := [
    DB_IDENT, DB_VALUE_TYPE, DB_CARDINALITY, DB_UNIQUE, DB_TX_INSTANT, DB_TX_ID, DB_TX_RESULT, DB_TX_ERROR,
    10, 11, 12, 13, 14, 15, 16, 17, 18, 19, 20, 21, 22,
    CARDINALITY_ONE, CARDINALITY_MANY, UNIQUE_VALUE, UNIQUE_IDENTITY, TX_COMMITTED, TX_ABORTED]

  /** A reference is written as the ident of its target. */
  function FieldFor(schema: Schema, e: I64, a: I64, k: Keyword): seq<Field> {
    var v := SchemaValue(schema, e, a);
    if v.Some? && v.value.Long? then [Field(k, Keyword(BootName(v.value.i)))] else []
  }

  function BootOp(schema: Schema, e: I64): TxOp {
    if e in SYSTEM_IDS then
      Put(FieldFor(schema, e, DB_CARDINALITY, KW_CARDINALITY) + PutFields(schema, e))
    else Add(RefId(e), KW_IDENT, Keyword(BootName(e)))
  }

  /** `bootstrap_schema_tx`. */
  function BootOps(schema: Schema, es: seq<I64>): seq<TxOp> {
    if es == [] then [] else [BootOp(schema, es[0])] + BootOps(schema, es[1..])
  }

  /** What the tables say about an entity, as one datom or none per schema attribute. */
  function DatomFor(schema: Schema, e: I64, a: I64, k: Keyword): (r: seq<TDatom>)
    ensures forall i :: 0 <= i < |r| ==> r[i].e.Id? && r[i].v.Data?
  {
    var v := SchemaValue(schema, e, a);
    if v.Some? then [TDatom(Id(e), k, Data(v.value), Assert)] else []
  }

  function DatomsFor(schema: Schema, e: I64): (r: seq<TDatom>)
    ensures forall i :: 0 <= i < |r| ==> r[i].e.Id? && r[i].v.Data?
  {
    DatomFor(schema, e, DB_CARDINALITY, KW_CARDINALITY) + (DatomFor(schema, e, DB_IDENT, KW_IDENT) +
      (DatomFor(schema, e, DB_UNIQUE, KW_UNIQUE) + DatomFor(schema, e, DB_VALUE_TYPE, KW_VALUE_TYPE)))
  }

  function BootInput(schema: Schema, es: seq<I64>): (r: seq<TDatom>)
    ensures forall i :: 0 <= i < |r| ==> r[i].e.Id? && r[i].v.Data?
  {
    if es == [] then [] else DatomsFor(schema, es[0]) + BootInput(schema, es[1..])
  }

  function AsX(ds: seq<TDatom>): (r: seq<DatomX>)
    requires forall i :: 0 <= i < |ds| ==> ds[i].e.Id? && ds[i].v.Data?
    ensures |r| == |ds| && forall i ::
            0 <= i < |ds| ==> r[i] == DatomX(XId(ds[i].e.id), ds[i].a, XData(ds[i].v.v), ds[i].op)
  {
    seq(|ds|, i requires 0 <= i < |ds| => DatomX(XId(ds[i].e.id), ds[i].a, XData(ds[i].v.v), ds[i].op))
  }

  // --- Expansion -------------------------------------------------------------------------

  lemma BootIdent(e: I64)
    requires e in BOOT_IDS
    ensures Ident(BootName(e), BOOT_SCHEMA) == Ok(e)
  {
    BootEntry(e);
    BootInverse();
    hide BOOT_SCHEMA, BootName, BOOT_IDS;
  }

  lemma BootRefs()
    ensures !IsRef(KW_IDENT, BOOT_SCHEMA) && IsRef(KW_VALUE_TYPE, BOOT_SCHEMA) && IsRef(KW_CARDINALITY, BOOT_SCHEMA) &&
            IsRef(KW_UNIQUE, BOOT_SCHEMA)
  {
    BootInverse();
    BootSystem();
    hide BOOT_SCHEMA, GetAttribute, Inverse, HasSystem;
    SystemEntry(BOOT_SCHEMA, DB_IDENT);
    SystemEntry(BOOT_SCHEMA, DB_VALUE_TYPE);
    SystemEntry(BOOT_SCHEMA, DB_CARDINALITY);
    SystemEntry(BOOT_SCHEMA, DB_UNIQUE);
  }

  /** References of the tables point at bootstrap entities. */
  lemma RefKnown(schema: Schema, e: I64, a: I64)
    requires DB_VALUE_TYPE <= a <= DB_UNIQUE && SchemaValue(schema, e, a).Some?
    ensures SchemaValue(schema, e, a).value.Long? && SchemaValue(schema, e, a).value.i in BOOT_IDS
  {
    hide BOOT_IDS, TypeId, CardinalityId, UniqueId;
    var attr := schema.attrs[e];
    TypeIdKnown(attr.valueType);
    EnumIdsKnown(attr.multival, if attr.unique.Some? then attr.unique.value else UniqueValue);
  }

  lemma TypeIdKnown(t: ValueType)
    ensures TypeId(t) in BOOT_IDS
  {
    hide SYSTEM_IDS, ENUM_IDS;
  }

  lemma EnumIdsKnown(many: bool, u: Unique)
    ensures CardinalityId(many) in BOOT_IDS && UniqueId(u) in BOOT_IDS
  {
    hide SYSTEM_IDS, TYPE_IDS;
  }

  // --- One operation ---------------------------------------------------------------------

  /** The fields of a put, without the entity id, become the datoms of the tables. */
  lemma FieldExpands(e: I64, a: I64, k: Keyword, rest: seq<Field>)
    requires DB_VALUE_TYPE <= a <= DB_UNIQUE && k == SchemaName(a) && ExpandFields(XId(e), rest, BOOT_SCHEMA).Ok?
    ensures ExpandFields(XId(e), FieldFor(BOOT_SCHEMA, e, a, k) + rest, BOOT_SCHEMA) ==
            Ok(AsX(DatomFor(BOOT_SCHEMA, e, a, k)) + ExpandFields(XId(e), rest, BOOT_SCHEMA).value)
  {
    hide BOOT_SCHEMA, BOOT_IDS, SchemaValue, ExpandFields, IsRef, SystemAttribute, BootName, SchemaName;
    BootRefOf(a);
    var v := SchemaValue(BOOT_SCHEMA, e, a);
    var tail := ExpandFields(XId(e), rest, BOOT_SCHEMA).value;
    if v.Some? {
      RefKnown(BOOT_SCHEMA, e, a);
      BootIdent(v.value.i);
      RefField(e, k, v.value.i, rest);
      assert AsX(DatomFor(BOOT_SCHEMA, e, a, k)) == [DatomX(XId(e), k, XData(v.value), Assert)];
    } else {
      assert FieldFor(BOOT_SCHEMA, e, a, k) + rest == rest && AsX([]) + tail == tail;
    }
  }

  lemma BootRefOf(a: I64)
    requires DB_VALUE_TYPE <= a <= DB_UNIQUE
    ensures IsRef(SchemaName(a), BOOT_SCHEMA) && SchemaName(a) != KW_DB_ID
  {
    SchemaNameIs(a);
    hide *;
    BootRefs();
    NotDbId();
  }

  lemma SchemaNameIs(a: I64)
    requires DB_VALUE_TYPE <= a <= DB_UNIQUE
    ensures SchemaName(a) == KW_VALUE_TYPE || SchemaName(a) == KW_CARDINALITY || SchemaName(a) == KW_UNIQUE
  {
    hide KW_IDENT, KW_VALUE_TYPE, KW_CARDINALITY, KW_UNIQUE, KW_TX_INSTANT, KW_TX_ID, KW_TX_RESULT, KW_TX_ERROR;
  }

  lemma RefField(e: I64, k: Keyword, target: I64, rest: seq<Field>)
    requires IsRef(k, BOOT_SCHEMA) && k != KW_DB_ID && Ident(BootName(target), BOOT_SCHEMA) == Ok(target)
    requires ExpandFields(XId(e), rest, BOOT_SCHEMA).Ok?
    ensures ExpandFields(XId(e), [Field(k, Keyword(BootName(target)))] + rest, BOOT_SCHEMA) ==
            Ok([DatomX(XId(e), k, XData(Long(target)), Assert)] + ExpandFields(XId(e), rest, BOOT_SCHEMA).value)
  {
    hide BOOT_SCHEMA, BootName, IsRef, Ident;
    var f := [Field(k, Keyword(BootName(target)))] + rest;
    assert f[1..] == rest && f[0] == Field(k, Keyword(BootName(target)));
  }

  lemma NotDbId()
    ensures KW_IDENT != KW_DB_ID && KW_VALUE_TYPE != KW_DB_ID && KW_CARDINALITY != KW_DB_ID && KW_UNIQUE != KW_DB_ID
  {
    assert |KW_DB_ID.name| == 2 && |KW_IDENT.name| == 5 && |KW_VALUE_TYPE.name| == 9 && |KW_CARDINALITY.name| == 11 &&
           |KW_UNIQUE.name| == 6;
  }

  lemma NamedTables(e: I64)
    requires e in BOOT_IDS
    ensures SchemaValue(BOOT_SCHEMA, e, DB_IDENT) == Some(Keyword(BootName(e)))
    ensures e !in SYSTEM_IDS ==> forall a :: DB_VALUE_TYPE <= a <= DB_UNIQUE ==> SchemaValue(BOOT_SCHEMA, e, a).None?
    ensures e in SYSTEM_IDS ==> SchemaValue(BOOT_SCHEMA, e, DB_CARDINALITY).Some?
  {
    BootEntry(e);
    hide BOOT_SCHEMA, BOOT_IDS, SYSTEM_IDS, BootName;
  }

  lemma IdentField(e: I64, rest: seq<Field>)
    requires ExpandFields(XId(e), rest, BOOT_SCHEMA).Ok?
    ensures ExpandFields(XId(e), [Field(KW_IDENT, Keyword(BootName(e)))] + rest, BOOT_SCHEMA) ==
            Ok([DatomX(XId(e), KW_IDENT, XData(Keyword(BootName(e))), Assert)] +
              ExpandFields(XId(e), rest, BOOT_SCHEMA).value)
  {
    hide BOOT_SCHEMA, BootName, IsRef, KW_IDENT, KW_DB_ID;
    BootRefs();
    NotDbId();
    var f := [Field(KW_IDENT, Keyword(BootName(e)))] + rest;
    assert f[1..] == rest && f[0] == Field(KW_IDENT, Keyword(BootName(e)));
  }

  lemma DbIdField(e: I64, x: EntityX, rest: seq<Field>)
    ensures ExpandFields(x, [Field(KW_DB_ID, Long(e))] + rest, BOOT_SCHEMA) == ExpandFields(x, rest, BOOT_SCHEMA)
    ensures DbId([Field(KW_DB_ID, Long(e))] + rest) == Some(Long(e))
  {
    hide BOOT_SCHEMA, KW_DB_ID;
    var f := [Field(KW_DB_ID, Long(e))] + rest;
    assert f[1..] == rest && f[0] == Field(KW_DB_ID, Long(e));
  }

  lemma DbIdSkips(f: Field, rest: seq<Field>)
    requires f.a != KW_DB_ID
    ensures DbId([f] + rest) == DbId(rest)
  {
    hide KW_DB_ID;
    assert ([f] + rest)[1..] == rest && ([f] + rest)[0] == f;
  }

  function PutFields(schema: Schema, e: I64): seq<Field> {
    [Field(KW_DB_ID, Long(e))] + ([Field(KW_IDENT, Keyword(BootName(e)))] +
      (FieldFor(schema, e, DB_UNIQUE, KW_UNIQUE) + FieldFor(schema, e, DB_VALUE_TYPE, KW_VALUE_TYPE)))
  }

  lemma SchemaNamesAre()
    ensures SchemaName(DB_VALUE_TYPE) == KW_VALUE_TYPE && SchemaName(DB_CARDINALITY) == KW_CARDINALITY &&
            SchemaName(DB_UNIQUE) == KW_UNIQUE
    ensures SchemaName(DB_IDENT) == KW_IDENT
  {
    hide KW_IDENT, KW_VALUE_TYPE, KW_CARDINALITY, KW_UNIQUE, KW_TX_INSTANT, KW_TX_ID, KW_TX_RESULT, KW_TX_ERROR;
  }

  /** The fields of a put expand to the datoms of the tables. */
  lemma PutExpands(e: I64)
    requires e in SYSTEM_IDS && e in BOOT_IDS
    ensures ExpandFields(XId(e), FieldFor(BOOT_SCHEMA, e, DB_CARDINALITY, KW_CARDINALITY) + PutFields(BOOT_SCHEMA, e),
            BOOT_SCHEMA) == Ok(AsX(DatomsFor(BOOT_SCHEMA, e)))
  {
    hide BOOT_SCHEMA, BOOT_IDS, SYSTEM_IDS, SchemaValue, ExpandFields, BootName, SchemaName, FieldFor, DatomFor;
    SchemaNamesAre();
    var u, t := FieldFor(BOOT_SCHEMA, e, DB_UNIQUE, KW_UNIQUE), FieldFor(BOOT_SCHEMA, e, DB_VALUE_TYPE, KW_VALUE_TYPE);
    NoFields(e);
    assert t + [] == t;
    FieldExpands(e, DB_VALUE_TYPE, KW_VALUE_TYPE, []);
    FieldExpands(e, DB_UNIQUE, KW_UNIQUE, t);
    IdentField(e, u + t);
    DbIdField(e, XId(e), [Field(KW_IDENT, Keyword(BootName(e)))] + (u + t));
    FieldExpands(e, DB_CARDINALITY, KW_CARDINALITY, PutFields(BOOT_SCHEMA, e));
    JoinedX(e);
  }

  lemma NoFields(e: I64)
    ensures ExpandFields(XId(e), [], BOOT_SCHEMA) == Ok([])
  {
    hide BOOT_SCHEMA;
  }

  lemma JoinedX(e: I64)
    requires e in BOOT_IDS
    ensures AsX(DatomsFor(BOOT_SCHEMA, e)) ==
            AsX(DatomFor(BOOT_SCHEMA, e, DB_CARDINALITY, KW_CARDINALITY)) +
              ([DatomX(XId(e), KW_IDENT, XData(Keyword(BootName(e))), Assert)] +
              (AsX(DatomFor(BOOT_SCHEMA, e, DB_UNIQUE, KW_UNIQUE)) +
                (AsX(DatomFor(BOOT_SCHEMA, e, DB_VALUE_TYPE, KW_VALUE_TYPE)) + [])))
  {
    hide BOOT_SCHEMA, BOOT_IDS, SYSTEM_IDS, SchemaValue, BootName;
    NamedTables(e);
    assert DatomFor(BOOT_SCHEMA, e, DB_IDENT, KW_IDENT) ==
           [TDatom(Id(e), KW_IDENT, Data(Keyword(BootName(e))), Assert)];
  }

  lemma OpExpands(e: I64, x: Expanded)
    requires e in BOOT_IDS
    ensures ExpandOp(BootOp(BOOT_SCHEMA, e), BOOT_SCHEMA, x) ==
            Ok(x.(datoms := x.datoms + AsX(DatomsFor(BOOT_SCHEMA, e))))
  {
    hide BOOT_SCHEMA, BOOT_IDS, SYSTEM_IDS, SchemaValue, ExpandFields, BootName, FieldFor, DatomsFor, ResolveValue,
         DbId;
    if e in SYSTEM_IDS {
      PutExpands(e);
      PutId(e);
    } else {
      EnumExpands(e);
    }
  }

  lemma PutId(e: I64)
    requires e in SYSTEM_IDS && e in BOOT_IDS
    ensures DbId(FieldFor(BOOT_SCHEMA, e, DB_CARDINALITY, KW_CARDINALITY) + PutFields(BOOT_SCHEMA, e)) == Some(Long(e))
  {
    hide BOOT_SCHEMA, BOOT_IDS, SYSTEM_IDS, SchemaValue, BootName, DbId;
    NamedTables(e);
    RefKnown(BOOT_SCHEMA, e, DB_CARDINALITY);
    NotDbId();
    DbIdSkips(FieldFor(BOOT_SCHEMA, e, DB_CARDINALITY, KW_CARDINALITY)[0], PutFields(BOOT_SCHEMA, e));
    DbIdField(e, XId(e), [Field(KW_IDENT, Keyword(BootName(e)))] +
              (FieldFor(BOOT_SCHEMA, e, DB_UNIQUE, KW_UNIQUE) +
              FieldFor(BOOT_SCHEMA, e, DB_VALUE_TYPE, KW_VALUE_TYPE)));
  }

  lemma EnumExpands(e: I64)
    requires e in BOOT_IDS && e !in SYSTEM_IDS
    ensures ResolveValue(Keyword(BootName(e)), KW_IDENT, BOOT_SCHEMA) == Ok(XData(Keyword(BootName(e))))
    ensures AsX(DatomsFor(BOOT_SCHEMA, e)) == [DatomX(XId(e), KW_IDENT, XData(Keyword(BootName(e))), Assert)]
  {
    hide BOOT_SCHEMA, BOOT_IDS, SYSTEM_IDS, SchemaValue, BootName, IsRef;
    NamedTables(e);
    BootRefs();
    assert DatomsFor(BOOT_SCHEMA, e) == [TDatom(Id(e), KW_IDENT, Data(Keyword(BootName(e))), Assert)];
  }

  /** The whole transaction expands to what the tables say about its entities. */
  lemma {:induction false} OpsExpand(es: seq<I64>, x: Expanded)
    requires forall e :: e in es ==> e in BOOT_IDS
    ensures ExpandOps(BootOps(BOOT_SCHEMA, es), BOOT_SCHEMA, x) ==
            Ok(x.(datoms := x.datoms + AsX(BootInput(BOOT_SCHEMA, es))))
  {
    hide BOOT_SCHEMA, BOOT_IDS, BootOp, DatomsFor, ExpandOp;
    if es == [] {
      assert x.datoms + AsX([]) == x.datoms;
    } else {
      assert es[0] in es;
      OpExpands(es[0], x);
      var y := x.(datoms := x.datoms + AsX(DatomsFor(BOOT_SCHEMA, es[0])));
      OpsExpand(es[1..], y);
      var ops := BootOps(BOOT_SCHEMA, es);
      assert ops[0] == BootOp(BOOT_SCHEMA, es[0]) && ops[1..] == BootOps(BOOT_SCHEMA, es[1..]);
      JoinX(x.datoms, DatomsFor(BOOT_SCHEMA, es[0]), BootInput(BOOT_SCHEMA, es[1..]));
    }
  }

  lemma JoinX(before: seq<DatomX>, a: seq<TDatom>, b: seq<TDatom>)
    requires forall i :: 0 <= i < |a| ==> a[i].e.Id? && a[i].v.Data?
    requires forall i :: 0 <= i < |b| ==> b[i].e.Id? && b[i].v.Data?
    ensures before + AsX(a) + AsX(b) == before + AsX(a + b)
  {
  }

  // --- Resolution ------------------------------------------------------------------------

  lemma {:induction false} PlainXs(ds: seq<TDatom>, schema: Schema, facts: set<Fact>)
    requires forall i :: 0 <= i < |ds| ==> ds[i].e.Id? && ds[i].v.Data?
    ensures ResolveXs(AsX(ds), schema, facts) == Ok(ds)
  {
    if ds != [] {
      assert AsX(ds)[1..] == AsX(ds[1..]);
      PlainXs(ds[1..], schema, facts);
      assert ds == [ds[0]] + ds[1..];
    }
  }

  /** A table entry of one of the listed entities. */
  ghost predicate TableDatom(schema: Schema, es: seq<I64>, d: TDatom) {
    exists a: I64 :: DB_IDENT <= a <= DB_UNIQUE && IsEntry(schema, es, d, a)
  }

  ghost predicate IsEntry(schema: Schema, es: seq<I64>, d: TDatom, a: I64)
    requires DB_IDENT <= a <= DB_UNIQUE
  {
    d.e.Id? && d.e.id in es && d.v.Data? && d.op.Assert? && d.a == SchemaName(a) &&
      SchemaValue(schema, d.e.id, a) == Some(d.v.v)
  }

  lemma EntityEntries(schema: Schema, e: I64, d: TDatom)
    ensures d in DatomsFor(schema, e) <==> TableDatom(schema, [e], d)
  {
    SchemaNamesAre();
    hide SchemaValue, SchemaName, KW_IDENT, KW_VALUE_TYPE, KW_CARDINALITY, KW_UNIQUE;
    if d in DatomsFor(schema, e) {
      var a := if d in DatomFor(schema, e, DB_IDENT, KW_IDENT) then DB_IDENT
               else if d in DatomFor(schema, e, DB_VALUE_TYPE, KW_VALUE_TYPE) then DB_VALUE_TYPE
               else if d in DatomFor(schema, e, DB_CARDINALITY, KW_CARDINALITY) then DB_CARDINALITY else DB_UNIQUE;
      assert IsEntry(schema, [e], d, a);
    }
  }

  lemma {:induction false} InputEntries(schema: Schema, es: seq<I64>, d: TDatom)
    ensures d in BootInput(schema, es) <==> TableDatom(schema, es, d)
  {
    hide DatomsFor, SchemaValue, SchemaName;
    if es != [] {
      InputEntries(schema, es[1..], d);
      EntityEntries(schema, es[0], d);
      assert es == [es[0]] + es[1..];
      forall a: I64 | DB_IDENT <= a <= DB_UNIQUE
        ensures IsEntry(schema, es, d, a) <==> IsEntry(schema, [es[0]], d, a) || IsEntry(schema, es[1..], d, a) {}
    }
  }

  lemma BootListIds(e: I64)
    ensures e in BOOT_LIST <==> e in BOOT_IDS
  {
  }

  const INPUT: seq<TDatom> := BootInput(BOOT_SCHEMA, BOOT_LIST)

  lemma InputPlain()
    ensures Plain(INPUT, BOOT_SCHEMA)
  {
    BootInverse();
    BootSystem();
    hide BOOT_SCHEMA, BOOT_LIST, GetAttribute, Inverse, HasSystem, SchemaName, SchemaValue;
    forall i | 0 <= i < |INPUT|
      ensures INPUT[i].e.Id? && INPUT[i].v.Data? && GetAttribute(BOOT_SCHEMA, INPUT[i].a).Some?
    {
      assert INPUT[i] in INPUT;
      InputEntries(BOOT_SCHEMA, BOOT_LIST, INPUT[i]);
      var a: I64 :| DB_IDENT <= a <= DB_UNIQUE && IsEntry(BOOT_SCHEMA, BOOT_LIST, INPUT[i], a);
      SystemEntry(BOOT_SCHEMA, a);
    }
  }

  /** The datoms the bootstrap writes. */
  const BOOT_DATOMS: seq<Datom> := TABLE_DATOMS + TxDatoms(BOOT_TX, BOOT_KEY, None)

  const TABLE_DATOMS: seq<Datom> := PlainDatoms(INPUT)

  // --- The facts written -----------------------------------------------------------------

  lemma TableDatomIff(d: Datom)
    ensures d in TABLE_DATOMS <==>
            d.op.Assert? && d.e in BOOT_IDS && exists a: I64 ::
              DB_IDENT <= a <= DB_UNIQUE && TableValueIs(BOOT_SCHEMA, d, a)
  {
    hide *;
    InputIs();
    PlainMember(INPUT, d);
    InputEntries(BOOT_SCHEMA, BOOT_LIST, TDatom(Id(d.e), d.a, Data(d.v), d.op));
    EntriesAre(BOOT_SCHEMA, BOOT_LIST, d);
    BootListIds(d.e);
  }

  ghost predicate TableValueIs(schema: Schema, d: Datom, a: I64)
    requires DB_IDENT <= a <= DB_UNIQUE
  {
    d.a == SchemaName(a) && SchemaValue(schema, d.e, a) == Some(d.v)
  }

  lemma EntriesAre(schema: Schema, es: seq<I64>, d: Datom)
    ensures TableDatom(schema, es, TDatom(Id(d.e), d.a, Data(d.v), d.op)) <==>
            d.op.Assert? && d.e in es && exists a: I64 :: DB_IDENT <= a <= DB_UNIQUE && TableValueIs(schema, d, a)
  {
    hide SchemaName, SchemaValue;
    var t := TDatom(Id(d.e), d.a, Data(d.v), d.op);
    forall a: I64 | DB_IDENT <= a <= DB_UNIQUE
      ensures IsEntry(schema, es, t, a) <==> d.op.Assert? && d.e in es && TableValueIs(schema, d, a) {}
  }

  lemma InputIs()
    ensures INPUT == BootInput(BOOT_SCHEMA, BOOT_LIST) && TABLE_DATOMS == PlainDatoms(INPUT)
    ensures forall i :: 0 <= i < |INPUT| ==> INPUT[i].e.Id? && INPUT[i].v.Data?
  {
    hide BOOT_SCHEMA, BOOT_LIST;
  }

  lemma PlainMember(ds: seq<TDatom>, d: Datom)
    requires forall i :: 0 <= i < |ds| ==> ds[i].e.Id? && ds[i].v.Data?
    ensures d in PlainDatoms(ds) <==> TDatom(Id(d.e), d.a, Data(d.v), d.op) in ds
  {
    var t := TDatom(Id(d.e), d.a, Data(d.v), d.op);
    if t in ds {
      var i: nat :| i < |ds| && ds[i] == t;
      assert PlainDatoms(ds)[i] == d;
    }
    if d in PlainDatoms(ds) {
      var i: nat :| i < |ds| && PlainDatoms(ds)[i] == d;
      assert ds[i] == t;
    }
  }

  lemma SchemaId(a: I64, d: Datom)
    requires DB_IDENT <= a <= DB_UNIQUE && d.a == SchemaName(a)
    ensures AttrId(d, BOOT_SCHEMA) == a && GetAttribute(BOOT_SCHEMA, d.a) == Some(AttrEntry(a, SystemDefinition(a)))
  {
    hide BOOT_SCHEMA, Inverse, HasSystem, GetAttribute, SystemAttribute, SchemaName;
    BootInverse();
    BootSystem();
    SystemEntry(BOOT_SCHEMA, a);
    SystemKnown(a);
    SchemaIdRange(a);
  }

  lemma TxDatomCases(tx: I64, key: TxKey, d: Datom)
    requires d in TxDatoms(tx, key, None)
    ensures d.e == tx && d.op.Assert?
    ensures || (d.a == KW_TX_INSTANT && d.v == Instant(key.systemTime)) || (d.a == KW_TX_ID && d.v == Long(key.txId))
            || (d.a == KW_TX_RESULT && d.v == Long(TX_COMMITTED))
  {
    hide KW_TX_INSTANT, KW_TX_ID, KW_TX_RESULT, KW_TX_ERROR;
  }

  lemma TxFactsAre(d: Datom)
    requires d in TxDatoms(BOOT_TX, BOOT_KEY, None)
    ensures Fact(d.e, AttrId(d, BOOT_SCHEMA), d.v, BOOT_TX, d.op) in BOOT.facts && d.op.Assert?
  {
    hide BOOT_SCHEMA, BOOT, SCHEMA_FACTS, Inverse, HasSystem, GetAttribute, BOOT_TX, KW_TX_INSTANT, KW_TX_ID,
         KW_TX_RESULT, KW_TX_ERROR, TxDatoms;
    BootInverse();
    BootSystem();
    TxEntries(BOOT_SCHEMA);
    TxDatomCases(BOOT_TX, BOOT_KEY, d);
    BootParts();
    var f := Fact(d.e, AttrId(d, BOOT_SCHEMA), d.v, BOOT_TX, d.op);
    assert f in TX_FACTS;
  }

  lemma DatomWrites(d: Datom)
    requires d in BOOT_DATOMS
    ensures Fact(d.e, AttrId(d, BOOT_SCHEMA), d.v, BOOT_TX, d.op) in BOOT.facts && d.op.Assert?
  {
    hide BOOT_SCHEMA, BOOT, BOOT_TX, AttrId, SchemaValue, SchemaName, TxDatoms, BOOT_IDS, TABLE_DATOMS, TX_FACTS,
         SCHEMA_FACTS;
    if d in TABLE_DATOMS {
      TableDatomIff(d);
      var a: I64 :| DB_IDENT <= a <= DB_UNIQUE && TableValueIs(BOOT_SCHEMA, d, a);
      SchemaId(a, d);
      SchemaIdRange(a);
      SchemaFactIff(d.e, a, d.v);
    } else {
      TxFactsAre(d);
    }
  }

  lemma FactWritten(f: Fact)
    requires f in BOOT.facts
    ensures f in FactsOf(Elements(BOOT_DATOMS), BOOT_SCHEMA, BOOT_TX)
  {
    hide BOOT, BOOT_SCHEMA, BOOT_TX, BOOT_IDS, SCHEMA_IDS, SchemaValue, BOOT_DATOMS, FactsOf;
    BootFactCases(f);
    SchemaIdRange(f.a);
    if f.a in SCHEMA_IDS { SchemaFactWritten(f); } else { TxFactWritten(f); }
  }

  lemma SchemaFactWritten(f: Fact)
    requires f.a in SCHEMA_IDS && f.e in BOOT_IDS && SchemaValue(BOOT_SCHEMA, f.e, f.a) == Some(f.v) &&
             f.tx == BOOT_TX && f.op == Assert
    ensures f in FactsOf(Elements(BOOT_DATOMS), BOOT_SCHEMA, BOOT_TX)
  {
    hide BOOT_SCHEMA, BOOT_TX, AttrId, SchemaValue, SchemaName, TxDatoms, BOOT_IDS, SCHEMA_IDS, TABLE_DATOMS;
    SchemaIdRange(f.a);
    var d := Datom(f.e, SchemaName(f.a), f.v, Assert);
    assert TableValueIs(BOOT_SCHEMA, d, f.a);
    TableDatomIff(d);
    SchemaId(f.a, d);
    assert d in Elements(BOOT_DATOMS);
  }

  lemma TxFactWritten(f: Fact)
    requires f.e == BOOT_TX && f.tx == BOOT_TX && f.op == Assert
    requires || (f.a == DB_TX_INSTANT && f.v == Instant(0)) || (f.a == DB_TX_ID && f.v == Long(0)) ||
             (f.a == DB_TX_RESULT && f.v == Long(TX_COMMITTED))
    ensures f in FactsOf(Elements(BOOT_DATOMS), BOOT_SCHEMA, BOOT_TX)
  {
    hide BOOT_SCHEMA, Inverse, HasSystem, GetAttribute, BOOT_TX, KW_TX_INSTANT, KW_TX_ID, KW_TX_RESULT, KW_TX_ERROR,
         TABLE_DATOMS;
    BootInverse();
    BootSystem();
    TxEntries(BOOT_SCHEMA);
    var d := Datom(BOOT_TX, if f.a == DB_TX_INSTANT then KW_TX_INSTANT else if f.a == DB_TX_ID then KW_TX_ID
      else KW_TX_RESULT, f.v, Assert);
    TxDatomsHave(BOOT_TX, BOOT_KEY, d);
    hide TxDatoms;
    assert d in Elements(BOOT_DATOMS);
    assert f == Fact(d.e, AttrId(d, BOOT_SCHEMA), d.v, BOOT_TX, d.op);
  }

  lemma TxDatomsHave(tx: I64, key: TxKey, d: Datom)
    requires d.e == tx && d.op.Assert?
    requires || (d.a == KW_TX_INSTANT && d.v == Instant(key.systemTime)) || (d.a == KW_TX_ID && d.v == Long(key.txId))
             || (d.a == KW_TX_RESULT && d.v == Long(TX_COMMITTED))
    ensures d in TxDatoms(tx, key, None)
  {
    hide KW_TX_INSTANT, KW_TX_ID, KW_TX_RESULT, KW_TX_ERROR;
    var ds := TxDatoms(tx, key, None);
    assert ds[0] in ds && ds[1] in ds && ds[2] in ds;
  }

  /** Running the bootstrap transaction writes exactly the bootstrap facts. */
  lemma BootstrapWrites()
    ensures FactsOf(Elements(BOOT_DATOMS), BOOT_SCHEMA, BOOT_TX) == BOOT.facts
  {
    hide BOOT_SCHEMA, BOOT, BOOT_TX, AttrId, BOOT_DATOMS;
    forall f ensures f in FactsOf(Elements(BOOT_DATOMS), BOOT_SCHEMA, BOOT_TX) <==> f in BOOT.facts {
      if f in FactsOf(Elements(BOOT_DATOMS), BOOT_SCHEMA, BOOT_TX) {
        var d :| d in Elements(BOOT_DATOMS) && f == Fact(d.e, AttrId(d, BOOT_SCHEMA), d.v, BOOT_TX, d.op);
        DatomWrites(d);
      }
      if f in BOOT.facts { FactWritten(f); }
    }
  }

  // --- Its checks pass -------------------------------------------------------------------

  lemma TableTyped(d: Datom)
    requires d in TABLE_DATOMS
    ensures WellTyped(d, BOOT_SCHEMA) && Reflexive(d.v)
  {
    hide BOOT_SCHEMA, AttrId, SchemaValue, SchemaName, BOOT_IDS, TABLE_DATOMS, GetAttribute, BootName, Valid,
         SystemAttribute, SystemDefinition, Reflexive, Matches;
    TableDatomIff(d);
    var a: I64 :| DB_IDENT <= a <= DB_UNIQUE && TableValueIs(BOOT_SCHEMA, d, a);
    SchemaId(a, d);
    BootValueShape(d.e, a);
    ShapeMatches(a, d.v);
  }

  lemma ShapeMatches(a: I64, v: DataType)
    requires DB_IDENT <= a <= DB_UNIQUE && (a == DB_IDENT ==> v.Keyword?) && (a != DB_IDENT ==> v.Long?)
    ensures Matches(SystemDefinition(a).valueType, v) && Reflexive(v)
  {
  }

  lemma TxTyped(d: Datom)
    requires d in TxDatoms(BOOT_TX, BOOT_KEY, None)
    ensures WellTyped(d, BOOT_SCHEMA) && Reflexive(d.v)
  {
    hide *;
    BootHolds();
    BootCounters();
    BootParts();
    BootContains(BOOT_TX);
    TxDatomsSound(BOOT, BOOT_KEY, BOOT_TX, BOOT.pm, None, d);
    TxReflexive(BOOT_TX, BOOT_KEY, d);
  }

  lemma TxReflexive(tx: I64, key: TxKey, d: Datom)
    requires d in TxDatoms(tx, key, None)
    ensures Reflexive(d.v)
  {
    TxDatomCases(tx, key, d);
    hide TxDatoms;
  }

  lemma DatomTyped(d: Datom)
    requires d in BOOT_DATOMS
    ensures WellTyped(d, BOOT_SCHEMA) && Reflexive(d.v)
  {
    hide BOOT_SCHEMA, BOOT_TX, TABLE_DATOMS, TxDatoms, WellTyped, Reflexive;
    if d in TABLE_DATOMS { TableTyped(d); } else { TxTyped(d); }
  }

  lemma SameValue(d: Datom, f: Datom)
    requires d in BOOT_DATOMS && f in BOOT_DATOMS && d.e == f.e && AttrId(d, BOOT_SCHEMA) == AttrId(f, BOOT_SCHEMA)
    ensures d.v == f.v
  {
    hide BOOT_SCHEMA, BOOT, BOOT_TX, AttrId, BOOT_DATOMS;
    DatomWrites(d);
    DatomWrites(f);
    BootFunctional(Fact(d.e, AttrId(d, BOOT_SCHEMA), d.v, BOOT_TX, d.op),
                   Fact(f.e, AttrId(f, BOOT_SCHEMA), f.v, BOOT_TX, f.op));
  }

  lemma BootValidates()
    ensures Validates(BOOT_DATOMS, BOOT_SCHEMA) && OneEach(Elements(BOOT_DATOMS))
  {
    hide BOOT_SCHEMA, BOOT_DATOMS, GetAttribute, Reflexive, IsSchemaAttr, BOOT, BOOT_TX, Matches;
    forall i | 0 <= i < |BOOT_DATOMS| ensures WellTyped(BOOT_DATOMS[i], BOOT_SCHEMA) { DatomTyped(BOOT_DATOMS[i]); }
    forall i, j | 0 <= i < j < |BOOT_DATOMS| ensures !Conflict(BOOT_DATOMS[i], BOOT_DATOMS[j], BOOT_SCHEMA) {
      var d, f := BOOT_DATOMS[i], BOOT_DATOMS[j];
      assert d in BOOT_DATOMS && f in BOOT_DATOMS;
      DatomTyped(d);
      DatomWrites(d);
      DatomWrites(f);
      if d.e == f.e && AttrId(d, BOOT_SCHEMA) == AttrId(f, BOOT_SCHEMA) { SameValue(d, f); }
    }
    forall d, f | d in BOOT_DATOMS && f in BOOT_DATOMS && d.e == f.e && d.a == f.a
      ensures d.v == f.v
    {
      SameValue(d, f);
    }
  }

  // --- The delta is the schema -----------------------------------------------------------

  const NO_SCHEMA: Schema := Schema(map[], map[], map[])

  /** The datoms assert exactly what the tables of `schema` say. */
  ghost predicate Asserts(ds: set<Datom>, schema: Schema) {
    forall e: I64, a: I64 ::
      DB_IDENT <= a <= DB_UNIQUE ==> AssertedIn(ds, e, SchemaName(a)) == SchemaValue(schema, e, a)
  }

  lemma AssertsAt(ds: set<Datom>, schema: Schema, e: I64)
    requires Asserts(ds, schema)
    ensures AssertedIn(ds, e, KW_IDENT) == SchemaValue(schema, e, DB_IDENT)
    ensures AssertedIn(ds, e, KW_VALUE_TYPE) == SchemaValue(schema, e, DB_VALUE_TYPE)
    ensures AssertedIn(ds, e, KW_CARDINALITY) == SchemaValue(schema, e, DB_CARDINALITY)
    ensures AssertedIn(ds, e, KW_UNIQUE) == SchemaValue(schema, e, DB_UNIQUE)
  {
    SchemaNamesAre();
    hide AssertedIn, SchemaValue, SchemaName, KW_IDENT, KW_VALUE_TYPE, KW_CARDINALITY, KW_UNIQUE;
    assert AssertedIn(ds, e, SchemaName(DB_IDENT)) == SchemaValue(schema, e, DB_IDENT);
    assert AssertedIn(ds, e, SchemaName(DB_VALUE_TYPE)) == SchemaValue(schema, e, DB_VALUE_TYPE);
    assert AssertedIn(ds, e, SchemaName(DB_CARDINALITY)) == SchemaValue(schema, e, DB_CARDINALITY);
    assert AssertedIn(ds, e, SchemaName(DB_UNIQUE)) == SchemaValue(schema, e, DB_UNIQUE);
  }

  lemma DeltaAttribute(ds: set<Datom>, schema: Schema, e: I64)
    requires Asserts(ds, schema)
    ensures Defines(ds, e) <==> e in schema.attrs
    ensures e in schema.attrs ==> Complete(ds, e) && BuiltAttribute(ds, e) == schema.attrs[e]
  {
    hide AssertedIn, Asserts, TypeId, TypeFromId;
    AssertsAt(ds, schema, e);
  }

  lemma DeltaEntids(ds: set<Datom>, schema: Schema)
    requires Asserts(ds, schema)
    ensures Prepared(ds).idents == schema.entids && Prepared(ds).attributes == schema.attrs
  {
    hide AssertedIn, Asserts, Prepared, Defines, BuiltAttribute, Complete;
    forall e
      ensures (e in Prepared(ds).idents <==> e in schema.entids) &&
              (e in schema.entids ==> Prepared(ds).idents[e] == schema.entids[e])
    {
      AssertsAt(ds, schema, e);
      UpdateIdents(ds, e);
    }
    forall e
      ensures (e in Prepared(ds).attributes <==> e in schema.attrs) &&
              (e in schema.attrs ==> Prepared(ds).attributes[e] == schema.attrs[e])
    {
      DeltaAttribute(ds, schema, e);
      UpdateAttributes(ds, e);
    }
  }

  lemma BackwardsInverse(schema: Schema)
    requires Inverse(schema)
    ensures Backwards(schema.entids) == schema.idents
  {
    var back := Backwards(schema.entids);
    forall k ensures (k in back <==> k in schema.idents) && (k in back ==> back[k] == schema.idents[k]) {
      if k in schema.idents { assert schema.entids[schema.idents[k]] in back; }
    }
  }

  /** Applied to the empty schema, the delta gives the tables the datoms came from. */
  lemma DeltaIsSchema(ds: set<Datom>, schema: Schema)
    requires Asserts(ds, schema) && Inverse(schema)
    ensures Applied(NO_SCHEMA, Prepared(ds)) == schema
  {
    hide Asserts, Prepared, Inverse, Backwards;
    DeltaEntids(ds, schema);
    BackwardsInverse(schema);
    assert map[] + schema.entids == schema.entids && map[] + schema.idents == schema.idents &&
           map[] + schema.attrs == schema.attrs;
  }

  lemma TableProper(schema: Schema, d: Datom, a: I64)
    requires DB_IDENT <= a <= DB_UNIQUE && TableValueIs(schema, d, a) && d.op.Assert?
    ensures ProperValue(d)
  {
    SchemaNamesAre();
    NamesDistinct();
    hide SchemaName, KW_IDENT, KW_VALUE_TYPE, KW_CARDINALITY, KW_UNIQUE;
  }

  lemma NamedAttr(k: Keyword) returns (a: I64)
    requires IsSchemaAttr(k)
    ensures DB_IDENT <= a <= DB_UNIQUE && SchemaName(a) == k
  {
    SchemaNamesAre();
    hide SchemaName, KW_IDENT, KW_VALUE_TYPE, KW_CARDINALITY, KW_UNIQUE;
    a := if k == KW_IDENT then DB_IDENT else if k == KW_VALUE_TYPE then DB_VALUE_TYPE
      else if k == KW_CARDINALITY then DB_CARDINALITY else DB_UNIQUE;
  }

  lemma SchemaDatomIff(e: I64, a: I64, v: DataType)
    requires DB_IDENT <= a <= DB_UNIQUE
    ensures Datom(e, SchemaName(a), v, Assert) in BOOT_DATOMS <==> SchemaValue(BOOT_SCHEMA, e, a) == Some(v)
  {
    hide BOOT_SCHEMA, BOOT, BOOT_TX, AttrId, SchemaValue, SchemaName, TxDatoms, BOOT_IDS, TABLE_DATOMS, GetAttribute,
         SystemDefinition;
    var d := Datom(e, SchemaName(a), v, Assert);
    SchemaId(a, d);
    SchemaIdRange(a);
    SchemaFactIff(e, a, v);
    if d in BOOT_DATOMS { DatomWrites(d); }
    if SchemaValue(BOOT_SCHEMA, e, a) == Some(v) {
      SchemaValueOfBoot(e, a);
      assert TableValueIs(BOOT_SCHEMA, d, a);
      TableDatomIff(d);
    }
  }

  lemma BootAsserts()
    ensures Asserts(Elements(BOOT_DATOMS), BOOT_SCHEMA)
  {
    hide BOOT_SCHEMA, BOOT_DATOMS, SchemaValue, SchemaName;
    forall e: I64, a: I64 | DB_IDENT <= a <= DB_UNIQUE
      ensures AssertedIn(Elements(BOOT_DATOMS), e, SchemaName(a)) == SchemaValue(BOOT_SCHEMA, e, a)
    {
      var r, v := AssertedIn(Elements(BOOT_DATOMS), e, SchemaName(a)), SchemaValue(BOOT_SCHEMA, e, a);
      if r.Some? { SchemaDatomIff(e, a, r.value); }
      if v.Some? { SchemaDatomIff(e, a, v.value); }
    }
  }

  lemma BootPreparable()
    ensures Preparable(Elements(BOOT_DATOMS), NO_SCHEMA)
  {
    hide BOOT_SCHEMA, BOOT_DATOMS, SchemaValue, SchemaName, ProperValue, Defines, Complete, BuiltAttribute,
         IsSchemaAttr;
    BootAsserts();
    forall d | d in Elements(BOOT_DATOMS) && IsSchemaAttr(d.a) ensures Installable(d, NO_SCHEMA) {
      DatomWrites(d);
      var a := NamedAttr(d.a);
      SchemaDatomIff(d.e, a, d.v);
      assert d == Datom(d.e, SchemaName(a), d.v, Assert);
      TableProper(BOOT_SCHEMA, d, a);
    }
    forall d | d in Elements(BOOT_DATOMS) && Defines(Elements(BOOT_DATOMS), d.e)
      ensures Complete(Elements(BOOT_DATOMS), d.e)
    {
      DeltaAttribute(Elements(BOOT_DATOMS), BOOT_SCHEMA, d.e);
    }
  }

  /** The check `init_db` asserts: the delta of the bootstrap datoms is the built-in schema. */
  lemma BootDelta()
    ensures Preparable(Elements(BOOT_DATOMS), NO_SCHEMA) &&
            Applied(NO_SCHEMA, Prepared(Elements(BOOT_DATOMS))) == BOOT_SCHEMA
  {
    hide *;
    BootPreparable();
    BootAsserts();
    BootInverse();
    DeltaIsSchema(Elements(BOOT_DATOMS), BOOT_SCHEMA);
  }

  // --- A fresh database ------------------------------------------------------------------

  lemma EmptyStore(schema: Schema)
    ensures DbHolds({}, {}, UniqueAttrs(schema)) && ValidValues({}) && OneOwnerAll({}, UniqueAttrs(schema))
  {
  }

  lemma NothingRetracted(rets: seq<TDatom>, schema: Schema)
    requires RetractsLive(rets, {}, schema, {})
    ensures rets == []
  {
    assert forall d :: d in rets ==> Rebuilt(d) == d;
    if rets != [] { HasElement(rets); }
  }

  lemma HasElement(ds: seq<TDatom>)
    requires ds != []
    ensures exists d :: d in ds
  {
    assert ds[0] in ds;
  }

  function Rebuilt(d: TDatom): TDatom {
    if d.e.Id? && d.v.Data? && d.op.Retract? then TDatom(Id(d.e.id), d.a, Data(d.v.v), Retract) else d
  }

  lemma BootExpands(rets: seq<TDatom>)
    requires RetractsLive(rets, TargetsOf(BootOps(BOOT_SCHEMA, BOOT_LIST), BOOT_SCHEMA, {}), BOOT_SCHEMA, {})
    ensures ExpandTxOps(BootOps(BOOT_SCHEMA, BOOT_LIST), rets, BOOT_SCHEMA, {}) == Ok(INPUT)
  {
    hide BOOT_SCHEMA, BOOT_LIST, BOOT_IDS, BootOps, BootInput, ExpandOps, ResolveXs;
    InputIs();
    forall e | e in BOOT_LIST ensures e in BOOT_IDS { BootListIds(e); }
    var none := Expanded([], [], 0);
    OpsExpand(BOOT_LIST, none);
    assert [] + AsX(INPUT) == AsX(INPUT);
    PlainXs(INPUT, BOOT_SCHEMA, {});
    assert ResolveTargets([], BOOT_SCHEMA, {}) == Ok({});
    NothingRetracted(rets, BOOT_SCHEMA);
    assert INPUT + [] == INPUT;
  }

  lemma BootNamesDiffer(d: I64, e: I64)
    requires var u := Prepared(Elements(BOOT_DATOMS)).idents; d in u && e in u && u[d] == u[e]
    ensures d == e
  {
    BootInverse();
    BootAsserts();
    hide BOOT_SCHEMA, BOOT_DATOMS, Prepared, Asserts;
    DeltaEntids(Elements(BOOT_DATOMS), BOOT_SCHEMA);
  }

  lemma BootKnown()
    ensures AllKnown(Elements(BOOT_DATOMS), BOOT_SCHEMA)
  {
    hide BOOT_SCHEMA, BOOT_DATOMS, WellTyped;
    forall d | d in Elements(BOOT_DATOMS) ensures GetAttribute(BOOT_SCHEMA, d.a).Some? {
      DatomTyped(d);
      TypedKnown(d, BOOT_SCHEMA);
    }
  }

  lemma BootStored()
    ensures DbHolds(AllKeys(BOOT.facts, UniqueAttrs(BOOT_SCHEMA)), BOOT.facts, UniqueAttrs(BOOT_SCHEMA))
  {
    hide *;
    AllKeysHold(BOOT.facts, UniqueAttrs(BOOT_SCHEMA));
  }

  /** The scan of the just-written keys finds the counters of the fresh state. */
  lemma BootScanned(pm: Counters)
    requires Recovery.Scanned(BOOT.facts, pm)
    ensures pm == BOOT.pm
  {
    hide *;
    BootHolds();
    CountersRecovered(BOOT, pm);
    BootParts();
    FreshInBand(BOOT.pm);
  }

  lemma FreshInBand(pm: Counters)
    requires pm == map[DB_PARTITION := DB_FLOOR, TX_PARTITION := 1, USER_PARTITION := 0]
    ensures forall p :: p in pm ==> pm[p] <= BAND
  {
  }

  /** `init_db` on an empty store. */
  method InitFresh() returns (ix: Indexer)
    ensures fresh(ix) && ix.Valid() && ix.State() == BOOT
  {
    hide *;
    EmptyStore(BOOT_SCHEMA);
    var input: Result<seq<TDatom>>;
    ghost var rets: seq<TDatom>;
    input, rets := ExpandOperations(BootOps(BOOT_SCHEMA, BOOT_LIST), BOOT_SCHEMA, {}, {});
    BootExpands(rets);
    var pending := new PartitionMap(map[]);
    InputPlain();
    PlainResolves(INPUT, BOOT_SCHEMA, {}, map[]);
    var datoms := ResolveDatoms(input.value, BOOT_SCHEMA, {}, pending, {});
    ResolvedBoot(datoms, pending.counters);
    var ds := datoms.value + TxDatoms(BOOT_TX, BOOT_KEY, None);
    DatomsAre();
    BootValidates();
    var changes := ValidateDatoms(ds, BOOT_SCHEMA);
    BootDelta();
    var update := PrepareSchemaUpdate(Elements(ds), NO_SCHEMA);
    forall d, e | d in update.value.idents && e in update.value.idents &&
      update.value.idents[d] == update.value.idents[e]
      ensures d == e
    {
      BootNamesDiffer(d, e);
    }
    var schema := ApplySchemaUpdate(NO_SCHEMA, update.value);
    BootKnown();
    BootstrapWrites();
    BootStored();
    var keys := WriteIndexEntries(Elements(ds), BOOT_SCHEMA, BOOT_TX);
    var counters := ScanPartitionCounters(keys.value, BOOT.facts, UniqueAttrs(BOOT_SCHEMA));
    BootScanned(counters);
    BootParts();
    BootHolds();
    StateIs();
    ix := new Indexer(keys.value, counters, schema, BOOT_KEY, BOOT.facts);
  }

  lemma ResolvedBoot(datoms: Result<seq<Datom>>, counters: Counters)
    requires Plain(INPUT, BOOT_SCHEMA) && ResolveTempids(INPUT, BOOT_SCHEMA, {}, map[]).Ok?
    requires ResolveTempids(INPUT, BOOT_SCHEMA, {}, map[]).value.datoms == PlainDatoms(INPUT)
    requires Agrees(datoms, counters, ResolveTempids(INPUT, BOOT_SCHEMA, {}, map[]))
    ensures datoms == Ok(TABLE_DATOMS)
  {
    hide ResolveTempids, BOOT_SCHEMA, INPUT;
    InputIs();
  }

  lemma DatomsAre()
    ensures TABLE_DATOMS + TxDatoms(BOOT_TX, BOOT_KEY, None) == BOOT_DATOMS
  {
    hide TABLE_DATOMS, TxDatoms, BOOT_TX, BOOT_KEY;
  }

  lemma StateIs()
    ensures BOOT == State(BOOT.facts, BOOT.pm, BOOT.schema, BOOT.latest)
  {
    hide *;
  }
}
