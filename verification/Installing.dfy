/** Runs that install attributes and store values, one transaction each. */
module Installing {
  import opened Octets
  import opened Values
  import opened Facts
  import opened Model
  import opened Partition
  import opened SchemaRules
  import opened Transact
  import opened Invariant
  import opened Sources
  import opened Preserve
  import opened SchemaKept
  import opened Runs
  import opened Asserting

  // --- The definition of an attribute ----------------------------------------------------

  /** An attribute to be installed at an entity, under a name. */
  datatype Definition = Definition(e: I64, k: Keyword, t: ValueType, many: bool, u: Option<Unique>)

  function DefinedAs(n: Definition): Attribute { Attribute(n.t, n.many, n.u) }

  /** The schema attributes of the definition; uniqueness is optional. */
  predicate HasPart(n: Definition, a: I64) { DB_IDENT <= a <= DB_UNIQUE && (a == DB_UNIQUE ==> n.u.Some?) }

  /** The value of schema attribute `a`. */
  function Part(n: Definition, a: I64): DataType {
    if a == DB_IDENT then Keyword(n.k)
    else if a == DB_VALUE_TYPE then Long(TypeId(n.t))
    else if a == DB_CARDINALITY then Long(CardinalityId(n.many))
    else if n.u.Some? then Long(UniqueId(n.u.value))
    else Long(0)
  }

  function PartDatom(n: Definition, a: I64): Datom
    requires DB_IDENT <= a <= DB_UNIQUE
  {
    Datom(n.e, SchemaName(a), Part(n, a), Assert)
  }

  function PartDatoms(n: Definition): (ds: seq<Datom>)
    ensures |ds| == (if n.u.Some? then 4 else 3) && forall i :: 0 <= i < |ds| ==> ds[i] == PartDatom(n, 1 + i)
  {
    [PartDatom(n, 1), PartDatom(n, 2), PartDatom(n, 3)] + if n.u.Some? then [PartDatom(n, 4)] else []
  }

  /** Nothing is installed at the entity, and the name is not in use. */
  ghost predicate Free(s: State, e: I64, k: Keyword) {
    Contains(s.pm, e) && e !in s.schema.entids && e !in s.schema.attrs && k !in s.schema.idents
  }

  lemma PartAttr(s: State, n: Definition, a: I64)
    requires Inv(s) && DB_IDENT <= a <= DB_UNIQUE
    ensures GetAttribute(s.schema, SchemaName(a)) == Some(AttrEntry(a, SystemAttribute(a).value.1))
    ensures AttrId(PartDatom(n, a), s.schema) == a && (IsUnique(PartDatom(n, a), s.schema) <==> a == DB_IDENT)
  {
    hide Inv, Inverse, HasSystem, GetAttribute, Part;
    InvParts(s);
    SystemEntry(s.schema, a);
  }

  lemma PartFits(s: State, n: Definition, a: I64)
    requires Inv(s) && Contains(s.pm, n.e) && HasPart(n, a)
    ensures FitsOne(s, PartDatom(n, a))
  {
    hide Inv, Contains, GetAttribute, CountersOk;
    InvParts(s);
    PartAttr(s, n, a);
    SystemContained(s.pm, TypeId(n.t));
    SystemContained(s.pm, CardinalityId(n.many));
    if n.u.Some? { SystemContained(s.pm, UniqueId(n.u.value)); }
  }

  lemma PartsFit(s: State, n: Definition)
    requires Inv(s) && Contains(s.pm, n.e)
    ensures Fits(s, PartDatoms(n))
  {
    hide Inv, FitsOne, WellTyped, Contains, Conflict, PartDatom, PartDatoms;
    var ds := PartDatoms(n);
    forall i | 0 <= i < |ds| ensures FitsOne(s, ds[i]) && WellTyped(ds[i], s.schema) {
      PartFits(s, n, 1 + i);
      FitsTyped(s, ds[i]);
    }
    forall i, j | 0 <= i < j < |ds| ensures !Conflict(ds[i], ds[j], s.schema) { PartsDiffer(s, n, 1 + i, 1 + j); }
  }

  lemma FitsTyped(s: State, d: Datom)
    requires FitsOne(s, d)
    ensures WellTyped(d, s.schema)
  {
  }

  lemma PartsDiffer(s: State, n: Definition, a: I64, b: I64)
    requires Inv(s) && DB_IDENT <= a < b <= DB_UNIQUE
    ensures !Conflict(PartDatom(n, a), PartDatom(n, b), s.schema)
  {
    hide Inv, GetAttribute, Part;
    PartAttr(s, n, a);
    PartAttr(s, n, b);
  }

  lemma PartMember(n: Definition, d: Datom) returns (a: I64)
    requires d in PartDatoms(n)
    ensures HasPart(n, a) && d == PartDatom(n, a)
  {
    hide PartDatom, PartDatoms;
    var i :| 0 <= i < |PartDatoms(n)| && PartDatoms(n)[i] == d;
    a := 1 + i;
  }

  /** A live schema datom is in the tables. */
  lemma MirrorsAt(s: State, e: I64, a: I64, v: DataType)
    requires Inv(s) && DB_IDENT <= a <= DB_UNIQUE
    ensures Live(s.facts, e, a, v) <==> SchemaValue(s.schema, e, a) == Some(v)
  {
    hide Inv, Live, SchemaValue;
    InvParts(s);
  }

  lemma PartsClaimable(s: State, n: Definition)
    requires Inv(s) && Free(s, n.e, n.k)
    ensures Claimable(s, PartDatoms(n))
  {
    hide Inv, Contains, Hit, PartDatoms, SameKey;
    forall d | d in PartDatoms(n) ensures d.e == n.e && (IsUnique(d, s.schema) ==> ClaimableOne(s, d)) {
      var a := PartMember(n, d);
      PartAttr(s, n, a);
      if a == DB_IDENT { NameUnowned(s, n.k); }
    }
  }

  lemma NameUnowned(s: State, k: Keyword)
    requires Inv(s) && k !in s.schema.idents
    ensures Hit(s.facts, DB_IDENT, Keyword(k)).None?
  {
    hide Inv, Live, Mirrors;
    InvParts(s);
    var hit := Hit(s.facts, DB_IDENT, Keyword(k));
    if hit.Some? { MirrorsAt(s, hit.value, DB_IDENT, Keyword(k)); }
  }

  lemma PartsUnset(s: State, n: Definition)
    requires Inv(s) && Free(s, n.e, n.k)
    ensures Unset(s, PartDatoms(n))
  {
    hide Inv, Contains, Live, PartDatoms, OldValue;
    forall d | d in PartDatoms(n) ensures Replaced(d, s.schema, s.facts, s.pm).None? {
      var a := PartMember(n, d);
      PartAttr(s, n, a);
      var was := OldValue(s.facts, n.e, a);
      if was.Some? { MirrorsAt(s, n.e, a, was.value); }
    }
  }

  lemma PartProper(n: Definition, a: I64)
    requires HasPart(n, a)
    ensures ProperValue(PartDatom(n, a)) && IsSchemaAttr(SchemaName(a))
  {
    NamesDistinct();
  }

  lemma PartsPreparable(s: State, key: TxKey, n: Definition)
    requires Inv(s) && InTurn(s, key) && Free(s, n.e, n.k)
    ensures Preparable(Elements(WithTx(PartDatoms(n), key)), s.schema)
  {
    hide Inv, CounterOf, Contains, TxDatoms, PartDatoms, PartDatom, IsSchemaAttr, ProperValue, WellTyped, IsUnique,
         AssertedIn, SetTx, CountersOk;
    TxFacts(s, key);
    var ds, tx := PartDatoms(n), TxEid(key.txId);
    var all := Elements(WithTx(ds, key));
    forall d | d in all && IsSchemaAttr(d.a) ensures d in ds && Installable(d, s.schema) && d.e == n.e {
      if d in TxDatoms(tx, key, None) { TxIs(s, key, d); }
      var a := PartMember(n, d);
      PartProper(n, a);
      PartIs(n, a);
    }
    SchemaNamesAre();
    PartIs(n, DB_VALUE_TYPE);
    PartIs(n, DB_CARDINALITY);
    assert ds[1] in all && ds[2] in all;
    assert Complete(all, n.e);
    forall d | d in all && Defines(all, d.e) ensures Complete(all, d.e) {
      assert d.e == n.e;
    }
  }

  lemma PartIs(n: Definition, a: I64)
    requires DB_IDENT <= a <= DB_UNIQUE
    ensures var d := PartDatom(n, a); d.e == n.e && d.op.Assert? && d.a == SchemaName(a) && d.v == Part(n, a)
  {
  }

  lemma SchemaNamesAre()
    ensures SchemaName(DB_IDENT) == KW_IDENT && SchemaName(DB_VALUE_TYPE) == KW_VALUE_TYPE
    ensures SchemaName(DB_CARDINALITY) == KW_CARDINALITY && SchemaName(DB_UNIQUE) == KW_UNIQUE
    ensures IsSchemaAttr(KW_VALUE_TYPE) && IsSchemaAttr(KW_CARDINALITY) && IsSchemaAttr(KW_UNIQUE)
  {
  }

  lemma PartsSay(s: State, n: Definition, e: I64, a: I64, v: DataType)
    requires Inv(s)
    ensures Says(PartDatoms(n), s.schema, e, a, v) <==> e == n.e && HasPart(n, a) && v == Part(n, a)
  {
    hide Inv, Part, PartDatoms, AttrId, IsUnique;
    forall d | d in PartDatoms(n)
      ensures exists b: I64 :: HasPart(n, b) && d == PartDatom(n, b) && AttrId(d, s.schema) == b
    {
      var b := PartMember(n, d);
      PartAttr(s, n, b);
    }
    if e == n.e && HasPart(n, a) && v == Part(n, a) {
      PartAttr(s, n, a);
      assert PartDatoms(n)[a - 1] == PartDatom(n, a);
    }
  }

  // --- Installing ------------------------------------------------------------------------

  /** The attribute is there, what was free stays free, and no other datoms have become live. */
  ghost predicate Installed(s: State, n: Definition, s': State) {
    && Inv(s') && GetAttribute(s'.schema, n.k) == Some(AttrEntry(n.e, DefinedAs(n)))
    && (forall k :: GetAttribute(s.schema, k).Some? ==> GetAttribute(s'.schema, k) == GetAttribute(s.schema, k))
    && (forall e, k :: e != n.e && k != n.k && Free(s, e, k) ==> Free(s', e, k))
    && (forall e: I64, a: I64, v ::
       a > DB_UNIQUE && !IsTxAttr(a) ==> (Live(s'.facts, e, a, v) <==> Live(s.facts, e, a, v)))
    && CounterOf(s'.pm, TX_PARTITION) == s'.latest.txId + 1
  }

  /** One transaction installs an attribute at a free entity. */
  lemma Install(s: State, key: TxKey, n: Definition, error: Octets) returns (s': State)
    requires Inv(s) && InTurn(s, key) && Free(s, n.e, n.k)
    ensures Step(s, s', key, OpsOf(PartDatoms(n)), [], error, Committed) && ValidOps(OpsOf(PartDatoms(n)))
    ensures s'.latest == key && Installed(s, n, s')
  {
    hide Inv, CounterOf, Fits, Claimable, Unset, ChangesSchema, Preparable, TxDatoms, Step, ValidOps, OpsOf, PartDatoms,
         Live, Says, SchemaGrows, FactsOf, Elements, Contains, Installed, Free, SetTx;
    FreeContains(s, n.e, n.k);
    PartsFit(s, n);
    PartsClaimable(s, n);
    PartsUnset(s, n);
    PartsPreparable(s, key, n);
    s' := Asserted(s, key, PartDatoms(n), error);
    forall e: I64, a: I64, v | !IsTxAttr(a)
      ensures Live(s'.facts, e, a, v) <==>
              Live(s.facts, e, a, v) || (e == n.e && HasPart(n, a) && v == Part(n, a))
    {
      PartsSay(s, n, e, a, v);
    }
    InstalledBy(s, n, s');
  }

  lemma FreeContains(s: State, e: I64, k: Keyword)
    requires Free(s, e, k)
    ensures Contains(s.pm, e)
  {
    hide Contains;
  }

  /** What follows from the live datoms, through the tables that mirror them. */
  lemma InstalledBy(s: State, n: Definition, s': State)
    requires Inv(s) && Inv(s') && SchemaGrows(s.schema, s'.schema) && 0 <= s'.latest.txId &&
             SetTx(s.pm, s'.latest.txId) == Ok(s'.pm) && Free(s, n.e, n.k)
    requires forall e: I64, a: I64, v :: !IsTxAttr(a) ==>
               (Live(s'.facts, e, a, v) <==>
                 Live(s.facts, e, a, v) || (e == n.e && HasPart(n, a) && v == Part(n, a)))
    ensures Installed(s, n, s')
  {
    hide Inv, Live, Contains, Part, SchemaGrows, GetAttribute;
    forall v ensures !Live(s.facts, n.e, DB_UNIQUE, v) { MirrorsAt(s, n.e, DB_UNIQUE, v); }
    AttributeThere(s, n, s');
    forall e, k | e != n.e && k != n.k && Free(s, e, k) ensures Free(s', e, k) { StaysFree(s, n, s', e, k); }
    forall k | GetAttribute(s.schema, k).Some? ensures GetAttribute(s'.schema, k) == GetAttribute(s.schema, k) {
      AttributeKept(s, s', k);
    }
  }

  lemma AttributeKept(s: State, s': State, k: Keyword)
    requires Inv(s) && Inv(s') && SchemaGrows(s.schema, s'.schema) && GetAttribute(s.schema, k).Some?
    ensures GetAttribute(s'.schema, k) == GetAttribute(s.schema, k)
  {
    hide Inv;
    InvInverse(s);
    InvInverse(s');
    var a := GetAttribute(s.schema, k).value.id;
    assert a in s.schema.entids && a in s'.schema.entids && s'.schema.entids[a] == k;
  }

  lemma AttributeThere(s: State, n: Definition, s': State)
    requires Inv(s') && forall a: I64 :: HasPart(n, a) ==> Live(s'.facts, n.e, a, Part(n, a))
    requires n.u.None? ==> forall v :: !Live(s'.facts, n.e, DB_UNIQUE, v)
    ensures GetAttribute(s'.schema, n.k) == Some(AttrEntry(n.e, DefinedAs(n)))
  {
    hide Inv, Live;
    InvInverse(s');
    MirrorsAt(s', n.e, DB_IDENT, Part(n, DB_IDENT));
    MirrorsAt(s', n.e, DB_VALUE_TYPE, Part(n, DB_VALUE_TYPE));
    MirrorsAt(s', n.e, DB_CARDINALITY, Part(n, DB_CARDINALITY));
    var attr := s'.schema.attrs[n.e];
    TypeIdsExact(TypeId(n.t), attr.valueType);
    MirrorsAt(s', n.e, DB_UNIQUE, if n.u.Some? then Part(n, DB_UNIQUE) else Long(UniqueIdOf(attr.unique)));
  }

  function UniqueIdOf(u: Option<Unique>): I64 { if u.Some? then UniqueId(u.value) else 0 }

  lemma StaysFree(s: State, n: Definition, s': State, e: I64, k: Keyword)
    requires Inv(s) && Inv(s') && 0 <= s'.latest.txId && SetTx(s.pm, s'.latest.txId) == Ok(s'.pm)
    requires forall c: I64, a: I64, v :: !IsTxAttr(a) ==>
               (Live(s'.facts, c, a, v) <==>
                 Live(s.facts, c, a, v) || (c == n.e && HasPart(n, a) && v == Part(n, a)))
    requires e != n.e && k != n.k && Free(s, e, k)
    ensures Free(s', e, k)
  {
    hide Inv, Live;
    InvInverse(s);
    InvInverse(s');
    if e in s'.schema.entids {
      var v := Keyword(s'.schema.entids[e]);
      MirrorsAt(s', e, DB_IDENT, v);
      MirrorsAt(s, e, DB_IDENT, v);
    }
    if e in s'.schema.attrs {
      var v := Long(TypeId(s'.schema.attrs[e].valueType));
      MirrorsAt(s', e, DB_VALUE_TYPE, v);
      MirrorsAt(s, e, DB_VALUE_TYPE, v);
    }
    if k in s'.schema.idents {
      var c := s'.schema.idents[k];
      MirrorsAt(s', c, DB_IDENT, Keyword(k));
      MirrorsAt(s, c, DB_IDENT, Keyword(k));
    }
    StillContained(s.pm, s'.latest.txId, e);
  }

  lemma StillContained(pm: Counters, txId: nat, e: I64)
    requires SetTx(pm, txId).Ok? && Contains(pm, e)
    ensures Contains(SetTx(pm, txId).value, e)
  {
  }

  // --- Storing ---------------------------------------------------------------------------

  /** Exactly these entities and values are live under attribute `a`. */
  ghost predicate OnlyLive(facts: set<Fact>, a: I64, pairs: set<(I64, DataType)>) {
    forall e: I64, v :: Live(facts, e, a, v) <==> (e, v) in pairs
  }

  /** The value can be stored: it is of the attribute's type, and neither the entity nor the value is taken. */
  ghost predicate Storable(s: State, a: I64, d: Datom) {
    && GetAttribute(s.schema, d.a).Some? && GetAttribute(s.schema, d.a).value.id == a && FitsOne(s, d)
    && d.op.Assert? && a > DB_UNIQUE && !IsTxAttr(a)
    && (forall e: I64, v :: Live(s.facts, e, a, v) ==> e != d.e && v != d.v)
  }

  /** The value is live, and otherwise what was. */
  ghost predicate StoredAs(s: State, a: I64, d: Datom, s': State) {
    && Inv(s') && s'.schema == s.schema && CounterOf(s'.pm, TX_PARTITION) == s'.latest.txId + 1
    && (forall e :: Contains(s.pm, e) ==> Contains(s'.pm, e))
    && (forall e: I64, b: I64, v :: !IsTxAttr(b) ==>
          (Live(s'.facts, e, b, v) <==> Live(s.facts, e, b, v) || (e == d.e && b == a && v == d.v)))
  }

  lemma NotSchemaName(s: State, k: Keyword, a: I64)
    requires Inv(s) && GetAttribute(s.schema, k).Some? && GetAttribute(s.schema, k).value.id == a && a > DB_UNIQUE
    ensures !IsSchemaAttr(k)
  {
    hide Inv, Inverse, HasSystem, GetAttribute;
    InvParts(s);
    SchemaNamesAre();
    SystemEntry(s.schema, DB_IDENT);
    SystemEntry(s.schema, DB_VALUE_TYPE);
    SystemEntry(s.schema, DB_CARDINALITY);
    SystemEntry(s.schema, DB_UNIQUE);
  }

  lemma StorableParts(s: State, a: I64, d: Datom)
    requires Inv(s) && Storable(s, a, d)
    ensures d.op.Assert? && Fits(s, [d]) && Claimable(s, [d]) && Unset(s, [d]) && !ChangesSchema([d]) &&
            AttrId(d, s.schema) == a
  {
    hide Inv, Contains, Valid, Live, OldValue, Owner, SameKey, IsSchemaAttr, WellTyped;
    NotSchemaName(s, d.a, a);
    FitsTyped(s, d);
  }

  /** One transaction stores a value. */
  lemma StoreValue(s: State, key: TxKey, a: I64, d: Datom, error: Octets) returns (s': State)
    requires Inv(s) && InTurn(s, key) && Storable(s, a, d)
    ensures Step(s, s', key, OpsOf([d]), [], error, Committed) && ValidOps(OpsOf([d]))
    ensures s'.latest == key && StoredAs(s, a, d, s')
  {
    hide Inv, Fits, Claimable, Unset, ChangesSchema, Preparable, TxDatoms, Step, ValidOps, OpsOf, Live, SchemaGrows,
         FactsOf, Elements, Contains, Storable, AttrId;
    StorableParts(s, a, d);
    s' := Asserted(s, key, [d], error);
    forall e: I64, b: I64, v ensures Says([d], s.schema, e, b, v) <==> e == d.e && b == a && v == d.v {
      assert d in [d];
    }
    forall e | Contains(s.pm, e) ensures Contains(s'.pm, e) { StillContained(s.pm, key.txId, e); }
  }
}
