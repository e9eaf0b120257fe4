/** The loops of a commit: the rewrite of single values, the unique check, the schema delta and the key writer. */
module Stages {
  import opened Octets
  import opened Values
  import opened Facts
  import opened Model
  import opened Index
  import opened Store
  import opened Lookup
  import opened Partition
  import opened SchemaRules
  import opened Transact
  import opened Resolver

  // --- Finalize --------------------------------------------------------------------------

  ghost predicate OneValueAll(facts: set<Fact>, schema: Schema) {
    forall a :: a in schema.attrs && !schema.attrs[a].multival ==> OneValue(facts, a)
  }

  /** Whether the old value of an assertion is looked up. */
  predicate LooksUp(d: Datom, schema: Schema, pm: Counters) {
    d.op.Assert? && GetAttribute(schema, d.a).Some? && !GetAttribute(schema, d.a).value.attr.multival &&
      Contains(pm, d.e)
  }

  /** The entity and attribute pairs whose old values are needed. */
  method WantedValues(ds: seq<Datom>, schema: Schema, pm: Counters) returns (wanted: set<(I64, I64)>)
    ensures forall d :: d in ds && LooksUp(d, schema, pm) ==> (d.e, AttrId(d, schema)) in wanted
  {
    hide Contains;
    wanted := {};
    for i := 0 to |ds|
      invariant forall j :: 0 <= j < i && LooksUp(ds[j], schema, pm) ==> (ds[j].e, AttrId(ds[j], schema)) in wanted
    {
      if LooksUp(ds[i], schema, pm) { wanted := wanted + {(ds[i].e, AttrId(ds[i], schema))}; }
    }
  }

  /** The old value found for a datom. */
  function Found(old_: map<(I64, I64), DataType>, d: Datom, schema: Schema, pm: Counters): Option<DataType> {
    if LooksUp(d, schema, pm) && (d.e, AttrId(d, schema)) in old_ then Some(old_[(d.e, AttrId(d, schema))]) else None
  }

  lemma FoundIsReplaced(old_: map<(I64, I64), DataType>, wanted: set<(I64, I64)>, d: Datom, schema: Schema,
                        facts: set<Fact>, pm: Counters)
    requires OldValuesOf(old_, wanted, facts) && OneValueAll(facts, schema)
    requires LooksUp(d, schema, pm) ==> (d.e, AttrId(d, schema)) in wanted
    ensures Found(old_, d, schema, pm) == Replaced(d, schema, facts, pm)
  {
    hide Live, Contains;
    if LooksUp(d, schema, pm) {
      var l := (d.e, AttrId(d, schema));
      assert OneValue(facts, l.1);
      var r := OldValue(facts, l.0, l.1);
      if r.Some? { assert l in old_ && Live(facts, l.0, l.1, old_[l]); }
    }
  }

  /** What one datom contributes. */
  function Contribution(d: Datom, old_: Option<DataType>): set<Datom> {
    if old_.None? then {d}
    else if ValueEq(old_.value, d.v) then {}
    else {Datom(d.e, d.a, old_.value, Retract), d}
  }

  lemma FinalizeStep(ds: seq<Datom>, i: nat, schema: Schema, facts: set<Fact>, pm: Counters)
    requires i < |ds|
    ensures Finalize(ds[..i + 1], schema, facts, pm) ==
            Finalize(ds[..i], schema, facts, pm) + Contribution(ds[i], Replaced(ds[i], schema, facts, pm))
  {
    hide Replaced, ValueEq;
    assert ds[..i + 1] == ds[..i] + [ds[i]];
    KeptStep(ds[..i], ds[i], schema, facts, pm);
    AutoStep(ds[..i], ds[i], schema, facts, pm);
  }

  lemma KeptStep(ds: seq<Datom>, d: Datom, schema: Schema, facts: set<Fact>, pm: Counters)
    ensures Kept(ds + [d], schema, facts, pm) == Kept(ds, schema, facts, pm) +
            if NoChange(d, schema, facts, pm) then {} else {d}
  {
    hide NoChange;
  }

  lemma AutoStep(ds: seq<Datom>, d: Datom, schema: Schema, facts: set<Fact>, pm: Counters)
    ensures AutoRetracts(ds + [d], schema, facts, pm) == AutoRetracts(ds, schema, facts, pm) +
            if Replaced(d, schema, facts, pm).Some? && !NoChange(d, schema, facts, pm)
            then {Datom(d.e, d.a, Replaced(d, schema, facts, pm).value, Retract)} else {}
  {
    hide NoChange, Replaced;
    var r := Replaced(d, schema, facts, pm);
    if r.Some? && !NoChange(d, schema, facts, pm) { assert d in ds + [d]; }
  }

  /** `finalize_datoms_for_commit`. */
  method FinalizeDatoms(ds: seq<Datom>, schema: Schema, pm: Counters, db: set<Octets>, ghost facts: set<Fact>,
                        ghost unique: set<I64>)
    returns (final: set<Datom>)
    requires DbHolds(db, facts, unique) && ValidValues(facts) && OneValueAll(facts, schema)
    ensures final == Finalize(ds, schema, facts, pm)
  {
    var wanted := WantedValues(ds, schema, pm);
    var old_ := BatchOldValues(db, wanted, facts, unique);
    final := {};
    assert Finalize(ds[..0], schema, facts, pm) == {};
    hide Finalize, Replaced, Found, Contribution, LooksUp, AttrId, DbHolds, ValidValues, OldValuesOf, OneValueAll;
    for i := 0 to |ds|
      invariant final == Finalize(ds[..i], schema, facts, pm)
    {
      assert ds[i] in ds;
      FoundIsReplaced(old_, wanted, ds[i], schema, facts, pm);
      FinalizeStep(ds, i, schema, facts, pm);
      final := final + Contribution(ds[i], Found(old_, ds[i], schema, pm));
    }
    assert ds[..|ds|] == ds;
  }

  // --- Unique values ---------------------------------------------------------------------

  /** The released values of the datoms outside `todo`. */
  ghost predicate Retracted(rs: set<(I64, I64, DataType)>, ds: set<Datom>, todo: set<Datom>, schema: Schema) {
    forall e: I64, a: I64, v :: (e, a, v) in rs <==>
      exists f :: f in ds - todo && f.op.Retract? && IsUnique(f, schema) && f.e == e && AttrId(f, schema) == a &&
        f.v == v
  }

  method CollectRetractions(ds: set<Datom>, schema: Schema) returns (rs: set<(I64, I64, DataType)>)
    ensures Retracted(rs, ds, {}, schema)
  {
    hide IsUnique, AttrId;
    rs := {};
    var todo := ds;
    while todo != {}
      invariant todo <= ds && Retracted(rs, ds, todo, schema)
      decreases |todo|
    {
      var d :| d in todo;
      RetractedStep(rs, ds, todo, schema, d);
      if d.op.Retract? && IsUnique(d, schema) { rs := rs + {(d.e, AttrId(d, schema), d.v)}; }
      todo := todo - {d};
    }
  }

  lemma RetractedStep(rs: set<(I64, I64, DataType)>, ds: set<Datom>, todo: set<Datom>, schema: Schema, d: Datom)
    requires todo <= ds && Retracted(rs, ds, todo, schema) && d in todo
    ensures Retracted(if d.op.Retract? && IsUnique(d, schema) then rs + {(d.e, AttrId(d, schema), d.v)}
            else rs, ds, todo - {d}, schema)
  {
    hide IsUnique, AttrId;
    var next := if d.op.Retract? && IsUnique(d, schema) then rs + {(d.e, AttrId(d, schema), d.v)} else rs;
    assert ds - (todo - {d}) == ds - todo + {d};
    forall e: I64, a: I64, v ensures (e, a, v) in next <==>
      exists f :: f in ds - (todo - {d}) && f.op.Retract? && IsUnique(f, schema) && f.e == e &&
        AttrId(f, schema) == a && f.v == v
    {
      assert (e, a, v) in rs <==>
        exists f :: f in ds - todo && f.op.Retract? && IsUnique(f, schema) && f.e == e && AttrId(f, schema) == a &&
          f.v == v;
      if (e, a, v) in next && (e, a, v) !in rs { assert d in ds - (todo - {d}); }
    }
  }

  lemma ReleasedIff(rs: set<(I64, I64, DataType)>, ds: set<Datom>, schema: Schema, e: I64, a: I64, v: DataType)
    requires Retracted(rs, ds, {}, schema) && Reflexive(v)
    ensures (e, a, v) in rs <==> Released(ds, schema, e, a, v)
  {
    hide IsUnique, AttrId, Reflexive;
    assert ds - {} == ds;
    if Released(ds, schema, e, a, v) {
      var f :| f in ds && f.op.Retract? && f.e == e && IsUnique(f, schema) && AttrId(f, schema) == a && SameKey(f.v, v);
      assert f in ds - {};
    }
  }

  predicate ChecksUnique(d: Datom, schema: Schema) { d.op.Assert? && IsUnique(d, schema) }

  /** The unique assertions outside `todo`: their owners by key, without a clash. */
  ghost predicate OwnersSoFar(owners: map<(I64, DataType), I64>, ds: set<Datom>, todo: set<Datom>, schema: Schema) {
    && (forall l :: l in owners ==> Reflexive(l.1) && AssertedBy(ds - todo, schema, l, owners[l]))
    && (forall d :: d in ds - todo && ChecksUnique(d, schema) && Reflexive(d.v) ==>
          (AttrId(d, schema), d.v) in owners && owners[(AttrId(d, schema), d.v)] == d.e)
  }

  ghost predicate AssertedBy(ds: set<Datom>, schema: Schema, l: (I64, DataType), e: I64) {
    exists d :: d in ds && ChecksUnique(d, schema) && (AttrId(d, schema), d.v) == l && d.e == e
  }

  lemma OwnersStep(owners: map<(I64, DataType), I64>, ds: set<Datom>, todo: set<Datom>, schema: Schema, d: Datom)
    requires todo <= ds && d in todo && OwnersSoFar(owners, ds, todo, schema)
    ensures !(ChecksUnique(d, schema) && Reflexive(d.v)) ==> OwnersSoFar(owners, ds, todo - {d}, schema)
    ensures var l := (AttrId(d, schema), d.v);
            ChecksUnique(d, schema) && Reflexive(d.v) && (l in owners ==> owners[l] == d.e) ==>
              OwnersSoFar(owners[l := d.e], ds, todo - {d}, schema)
  {
    hide ChecksUnique, AttrId, Reflexive;
    assert ds - (todo - {d}) == ds - todo + {d};
    var l := (AttrId(d, schema), d.v);
    forall m | m in owners && Reflexive(m.1)
      ensures AssertedBy(ds - (todo - {d}), schema, m, owners[m])
    {
      var f :| f in ds - todo && ChecksUnique(f, schema) && (AttrId(f, schema), f.v) == m && f.e == owners[m];
      assert f in ds - (todo - {d});
    }
    assert d in ds - (todo - {d});
    if ChecksUnique(d, schema) { assert AssertedBy(ds - (todo - {d}), schema, l, d.e); }
  }

  lemma ClashFound(owners: map<(I64, DataType), I64>, ds: set<Datom>, todo: set<Datom>, schema: Schema, d: Datom)
    requires OwnersSoFar(owners, ds, todo, schema) && d in ds && ChecksUnique(d, schema) && Reflexive(d.v)
    requires (AttrId(d, schema), d.v) in owners && owners[(AttrId(d, schema), d.v)] != d.e
    ensures exists f, g :: f in ds && g in ds && Clash(f, g, schema)
  {
    hide IsUnique, AttrId, Reflexive;
    var l := (AttrId(d, schema), d.v);
    var f :| f in ds - todo && ChecksUnique(f, schema) && (AttrId(f, schema), f.v) == l && f.e == owners[l];
    assert Clash(f, d, schema);
  }

  lemma NoClash(owners: map<(I64, DataType), I64>, ds: set<Datom>, schema: Schema)
    requires OwnersSoFar(owners, ds, {}, schema)
    ensures forall d, f :: d in ds && f in ds ==> !Clash(d, f, schema)
  {
    hide IsUnique, AttrId, Reflexive;
    assert ds - {} == ds;
    forall d, f | d in ds && f in ds ensures !Clash(d, f, schema) {
      if ChecksUnique(d, schema) && ChecksUnique(f, schema) && SameKey(d.v, f.v) &&
        AttrId(d, schema) == AttrId(f, schema) {
        assert d in ds - {} && f in ds - {};
      }
    }
  }

  /** The pass over the assertions: false if two entities assert one unique value. */
  method AssertedOwners(ds: set<Datom>, schema: Schema) returns (ok: bool, check: set<Datom>)
    ensures ok <==> forall d, f :: d in ds && f in ds ==> !Clash(d, f, schema)
    ensures ok ==> check == set d | d in ds && ChecksUnique(d, schema)
  {
    hide ChecksUnique, AttrId, Reflexive, OwnersSoFar, Clash;
    var owners: map<(I64, DataType), I64> := map[];
    check := {};
    var todo := ds;
    OwnersStart(ds, schema);
    while todo != {}
      invariant todo <= ds && OwnersSoFar(owners, ds, todo, schema)
      invariant check == set d | d in ds - todo && ChecksUnique(d, schema)
      decreases |todo|
    {
      var d :| d in todo;
      OwnersStep(owners, ds, todo, schema, d);
      if ChecksUnique(d, schema) {
        var l := (AttrId(d, schema), d.v);
        if Reflexive(d.v) {
          if l in owners && owners[l] != d.e {
            ClashFound(owners, ds, todo, schema, d);
            return false, check;
          }
          owners := owners[l := d.e];
        }
        check := check + {d};
      }
      todo := todo - {d};
    }
    NoClash(owners, ds, schema);
    ok := true;
  }

  lemma OwnersStart(ds: set<Datom>, schema: Schema)
    ensures OwnersSoFar(map[], ds, ds, schema)
  {
  }

  ghost function PairsOf(ds: set<Datom>, schema: Schema): set<(I64, DataType)> {
    set d | d in ds :: (AttrId(d, schema), d.v)
  }

  method ListPairs(ds: set<Datom>, schema: Schema) returns (lookups: seq<(I64, DataType)>)
    ensures Elems(lookups) == PairsOf(ds, schema)
  {
    hide AttrId;
    lookups := [];
    var todo := ds;
    while todo != {}
      invariant todo <= ds && Elems(lookups) == PairsOf(ds - todo, schema)
      decreases |todo|
    {
      var d :| d in todo;
      lookups := lookups + [(AttrId(d, schema), d.v)];
      PairsStep(ds - todo, schema, d);
      assert ds - (todo - {d}) == ds - todo + {d};
      todo := todo - {d};
    }
    assert ds - {} == ds;
  }

  lemma PairsStep(ds: set<Datom>, schema: Schema, d: Datom)
    ensures PairsOf(ds + {d}, schema) == PairsOf(ds, schema) + {(AttrId(d, schema), d.v)}
  {
  }

  /** The owner lookup of one assertion. */
  lemma TakenIff(resolved: map<(I64, DataType), I64>, rs: set<(I64, I64, DataType)>, ds: set<Datom>, check: set<Datom>,
                 d: Datom,
                 schema: Schema, facts: set<Fact>)
    requires OwnersOf(resolved, PairsOf(check, schema), facts, UniqueAttrs(schema)) &&
             OneOwnerAll(facts, UniqueAttrs(schema))
    requires Retracted(rs, ds, {}, schema) && d in check && ChecksUnique(d, schema)
    ensures var l := (AttrId(d, schema), d.v);
            Taken(ds, d, schema, facts) <==>
              Reflexive(d.v) && l in resolved && resolved[l] != d.e && (resolved[l], l.0, l.1) !in rs
  {
    hide Live, Retracted, OwnersOf, OneOwnerAll, Released, Reflexive;
    var l := (AttrId(d, schema), d.v);
    if Reflexive(d.v) {
      AnswerIsHit(resolved, PairsOf(check, schema), facts, UniqueAttrs(schema), l);
      if l in resolved { ReleasedIff(rs, ds, schema, resolved[l], l.0, l.1); }
    }
  }

  /** `validate_unique_constraints`. */
  method ValidateUnique(ds: set<Datom>, schema: Schema, db: set<Octets>, ghost facts: set<Fact>) returns (ok: bool)
    requires DbHolds(db, facts, UniqueAttrs(schema)) && ValidValues(facts) && OneOwnerAll(facts, UniqueAttrs(schema))
    ensures ok <==> UniqueOk(ds, schema, facts)
  {
    hide DbHolds, ValidValues, OneOwnerAll, Retracted, OwnersOf, UniqueAttrs, Clash, Taken, AttrId, Reflexive, PairsOf,
         IsUnique;
    var rs := CollectRetractions(ds, schema);
    var check: set<Datom>;
    ok, check := AssertedOwners(ds, schema);
    if !ok { return; }
    var lookups := ListPairs(check, schema);
    var resolved := BatchLookupUniqueEids(db, lookups, facts, UniqueAttrs(schema));
    var todo := check;
    while todo != {}
      invariant todo <= check
      invariant forall d :: d in check - todo ==> !Taken(ds, d, schema, facts)
      decreases |todo|
    {
      var d :| d in todo;
      var l := (AttrId(d, schema), d.v);
      TakenIff(resolved, rs, ds, check, d, schema, facts);
      if Reflexive(d.v) && l in resolved && resolved[l] != d.e && (resolved[l], l.0, l.1) !in rs {
        ok := false;
        return;
      }
      todo := todo - {d};
    }
    forall d | d in ds ensures !Taken(ds, d, schema, facts) {
      if d in check { assert d in check - {}; } else { NotChecked(ds, d, schema, facts); }
    }
  }

  lemma NotChecked(ds: set<Datom>, d: Datom, schema: Schema, facts: set<Fact>)
    requires !ChecksUnique(d, schema)
    ensures !Taken(ds, d, schema, facts)
  {
  }

  // --- The schema delta ------------------------------------------------------------------

  /** A partially seen attribute definition. */
  datatype Builder = Builder(vt: Option<ValueType>, many: Option<bool>, unique: Option<Unique>)

  const NO_BUILDER: Builder := Builder(None, None, None)

  /** At most one assertion per entity and schema attribute. */
  ghost predicate OneEach(ds: set<Datom>) {
    forall d, f ::
      d in ds && f in ds && IsSchemaAttr(d.a) && d.op.Assert? && f.op.Assert? && d.e == f.e && d.a == f.a ==>
        d.v == f.v
  }

  /** What the scan knows about `e`, from the datoms seen. */
  ghost predicate BuilderIs(b: Builder, seen: set<Datom>, e: I64) {
    && b.vt == (var v := AssertedIn(seen, e, KW_VALUE_TYPE);
       if v.Some? && v.value.Long? then TypeFromId(v.value.i) else None)
    && b.many == (var v := AssertedIn(seen, e, KW_CARDINALITY);
       if v.Some? && v.value.Long? then ManyFromId(v.value.i) else None)
    && b.unique == (var v := AssertedIn(seen, e, KW_UNIQUE);
       if v.Some? && v.value.Long? then UniqueFromId(v.value.i) else None)
  }

  ghost predicate ScanState(idents: map<I64, Keyword>, builders: map<I64, Builder>, seen: set<Datom>, schema: Schema) {
    && (forall d :: d in seen && IsSchemaAttr(d.a) ==> Installable(d, schema))
    && idents == Prepared(seen).idents
    && (forall e :: e in builders <==> Defines(seen, e))
    && (forall e :: e in builders ==> BuilderIs(builders[e], seen, e))
  }

  lemma AssertedAdd(seen: set<Datom>, d: Datom, e: I64, k: Keyword)
    requires OneEach(seen + {d}) && IsSchemaAttr(k)
    ensures AssertedIn(seen + {d}, e, k) ==
            if d.e == e && d.a == k && d.op.Assert? then Some(d.v) else AssertedIn(seen, e, k)
  {
    hide IsSchemaAttr;
    var more := seen + {d};
    var r := AssertedIn(more, e, k);
    if r.Some? {
      assert Datom(e, k, r.value, Assert) in more;
      forall v | Datom(e, k, v, Assert) in more
        ensures v == r.value
      {
        OneOf(more, Datom(e, k, v, Assert), Datom(e, k, r.value, Assert));
      }
    }
    if d.e == e && d.a == k && d.op.Assert? { assert Datom(e, k, d.v, Assert) in more; }
    var q := AssertedIn(seen, e, k);
    if q.Some? { assert Datom(e, k, q.value, Assert) in more; }
  }

  lemma OneOf(ds: set<Datom>, d: Datom, f: Datom)
    requires OneEach(ds) && d in ds && f in ds && IsSchemaAttr(d.a) && d.op.Assert? && f.op.Assert? && d.e == f.e &&
             d.a == f.a
    ensures d.v == f.v
  {
  }

  /** What one schema datom does to the delta. */
  function WithSchemaDatom(idents: map<I64, Keyword>, builders: map<I64, Builder>, d: Datom): (map<I64, Keyword>,
                           map<I64, Builder>)
    requires ProperValue(d)
  {
    var b := if d.e in builders then builders[d.e] else NO_BUILDER;
    if d.a == KW_IDENT then (idents[d.e := d.v.kw], builders)
    else if d.a == KW_VALUE_TYPE then (idents, builders[d.e := b.(vt := TypeFromId(d.v.i))])
    else if d.a == KW_CARDINALITY then (idents, builders[d.e := b.(many := ManyFromId(d.v.i))])
    else (idents, builders[d.e := b.(unique := UniqueFromId(d.v.i))])
  }

  lemma IdentsAdd(seen: set<Datom>, d: Datom)
    requires OneEach(seen + {d}) && (d.a == KW_IDENT ==> d.op.Assert? && d.v.Keyword?)
    ensures Prepared(seen + {d}).idents ==
            if d.a == KW_IDENT then Prepared(seen).idents[d.e := d.v.kw] else Prepared(seen).idents
  {
    hide Prepared, AssertedIn;
    var a, b := Prepared(seen).idents, Prepared(seen + {d}).idents;
    assert IsSchemaAttr(KW_IDENT);
    forall e ensures (e in b <==> e in a || (d.a == KW_IDENT && d.e == e))
                  && (e in b ==> b[e] == if d.a == KW_IDENT && d.e == e then d.v.kw else a[e])
    {
      UpdateIdents(seen, e);
      UpdateIdents(seen + {d}, e);
      AssertedAdd(seen, d, e, KW_IDENT);
    }
  }

  lemma BuilderAdd(builders: map<I64, Builder>, seen: set<Datom>, d: Datom, e: I64)
    requires OneEach(seen + {d}) && IsSchemaAttr(d.a) && d.op.Assert? && ProperValue(d)
    requires e in builders <==> Defines(seen, e)
    requires e in builders ==> BuilderIs(builders[e], seen, e)
    ensures var next := WithSchemaDatom(map[], builders, d).1;
            && (e in next <==> Defines(seen + {d}, e))
            && (e in next ==> BuilderIs(next[e], seen + {d}, e))
  {
    hide AssertedIn, TypeFromId, ManyFromId, UniqueFromId;
    NamesDistinct();
    assert IsSchemaAttr(KW_VALUE_TYPE) && IsSchemaAttr(KW_CARDINALITY) && IsSchemaAttr(KW_UNIQUE);
    AssertedAdd(seen, d, e, KW_VALUE_TYPE);
    AssertedAdd(seen, d, e, KW_CARDINALITY);
    AssertedAdd(seen, d, e, KW_UNIQUE);
    hide KW_IDENT, KW_VALUE_TYPE, KW_CARDINALITY, KW_UNIQUE;
  }

  lemma ScanStep(idents: map<I64, Keyword>, builders: map<I64, Builder>, seen: set<Datom>, d: Datom, schema: Schema)
    requires ScanState(idents, builders, seen, schema) && OneEach(seen + {d}) && IsSchemaAttr(d.a) &&
             Installable(d, schema)
    ensures var next := WithSchemaDatom(idents, builders, d);
            ScanState(next.0, next.1, seen + {d}, schema)
  {
    hide Prepared, Defines, BuilderIs, ProperValue, OneEach, IsSchemaAttr;
    var next := WithSchemaDatom(idents, builders, d);
    InstallableProper(d, schema);
    if d.a == KW_IDENT { ProperIdent(d); }
    IdentsAdd(seen, d);
    WithParts(idents, builders, d);
    forall e
      ensures (e in next.1 <==> Defines(seen + {d}, e)) && (e in next.1 ==> BuilderIs(next.1[e], seen + {d}, e))
    {
      BuilderAdd(builders, seen, d, e);
    }
    hide WithSchemaDatom;
  }

  lemma ProperIdent(d: Datom)
    requires ProperValue(d) && d.a == KW_IDENT
    ensures d.v.Keyword?
  {
  }

  lemma WithParts(idents: map<I64, Keyword>, builders: map<I64, Builder>, d: Datom)
    requires ProperValue(d)
    ensures WithSchemaDatom(idents, builders, d).0 ==
            if d.a == KW_IDENT && d.v.Keyword? then idents[d.e := d.v.kw] else idents
    ensures WithSchemaDatom(idents, builders, d).1 == WithSchemaDatom(map[], builders, d).1
  {
  }

  lemma ScanSkip(idents: map<I64, Keyword>, builders: map<I64, Builder>, seen: set<Datom>, d: Datom, schema: Schema)
    requires ScanState(idents, builders, seen, schema) && OneEach(seen + {d}) && !IsSchemaAttr(d.a)
    ensures ScanState(idents, builders, seen + {d}, schema)
  {
    hide Prepared, Installable, AssertedIn;
    IdentsAdd(seen, d);
    assert IsSchemaAttr(KW_VALUE_TYPE) && IsSchemaAttr(KW_CARDINALITY) && IsSchemaAttr(KW_UNIQUE);
    forall e, k | IsSchemaAttr(k)
      ensures AssertedIn(seen + {d}, e, k) == AssertedIn(seen, e, k)
    {
      AssertedAdd(seen, d, e, k);
    }
    hide IsSchemaAttr;
  }

  lemma ScanEmpty(schema: Schema)
    ensures ScanState(map[], map[], {}, schema)
  {
    assert forall e, k :: AssertedIn({}, e, k).None?;
  }

  lemma OneEachSubset(ds: set<Datom>, sub: set<Datom>)
    requires OneEach(ds) && sub <= ds
    ensures OneEach(sub)
  {
    hide IsSchemaAttr;
  }

  /** One builder decides completeness and gives the attribute. */
  lemma BuilderBuilds(b: Builder, ds: set<Datom>, e: I64, schema: Schema)
    requires BuilderIs(b, ds, e) && forall d :: d in ds && IsSchemaAttr(d.a) ==> Installable(d, schema)
    ensures b.vt.Some? && b.many.Some? <==> Complete(ds, e)
    ensures Complete(ds, e) ==> BuiltAttribute(ds, e) == Attribute(b.vt.value, b.many.value, b.unique)
  {
    hide AssertedIn, TypeFromId;
    NamesDistinct();
    var vt, card, u := AssertedIn(ds, e, KW_VALUE_TYPE), AssertedIn(ds, e, KW_CARDINALITY),
      AssertedIn(ds, e, KW_UNIQUE);
    if vt.Some? { assert Installable(Datom(e, KW_VALUE_TYPE, vt.value, Assert), schema); }
    if card.Some? { assert Installable(Datom(e, KW_CARDINALITY, card.value, Assert), schema); }
    if u.Some? { assert Installable(Datom(e, KW_UNIQUE, u.value, Assert), schema); }
  }

  /** Building all collected definitions. */
  method BuildAll(builders: map<I64, Builder>, ghost ds: set<Datom>, ghost schema: Schema)
    returns (r: Result<map<I64, Attribute>>)
    requires forall e :: e in builders <==> Defines(ds, e)
    requires forall e :: e in builders ==> BuilderIs(builders[e], ds, e)
    requires forall d :: d in ds && IsSchemaAttr(d.a) ==> Installable(d, schema)
    ensures r.Ok? <==> forall e :: Defines(ds, e) ==> Complete(ds, e)
    ensures r.Ok? ==> r.value == Prepared(ds).attributes
    ensures r.Err? ==> !r.halt
  {
    hide Defines, Complete, BuilderIs, Installable, IsSchemaAttr, Prepared, BuiltAttribute;
    var attrs: map<I64, Attribute> := map[];
    var todo := builders.Keys;
    while todo != {}
      invariant todo <= builders.Keys && attrs.Keys == builders.Keys - todo
      invariant forall e :: e in attrs ==> Complete(ds, e) && attrs[e] == BuiltAttribute(ds, e)
      decreases |todo|
    {
      var e :| e in todo;
      var b := builders[e];
      BuilderBuilds(b, ds, e, schema);
      if b.vt.None? || b.many.None? { return Err(false); }
      attrs := attrs[e := Attribute(b.vt.value, b.many.value, b.unique)];
      todo := todo - {e};
    }
    forall e
      ensures (e in attrs <==> e in Prepared(ds).attributes) && (e in attrs ==> attrs[e] == Prepared(ds).attributes[e])
    {
      UpdateAttributes(ds, e);
    }
    return Ok(attrs);
  }

  /** `prepare_schema_update`. */
  method PrepareSchemaUpdate(ds: set<Datom>, schema: Schema) returns (r: Result<SchemaUpdate>)
    requires OneEach(ds)
    ensures r == if Preparable(ds, schema) then Ok(Prepared(ds)) else Err(false)
  {
    hide *;
    var idents: map<I64, Keyword>, builders: map<I64, Builder> := map[], map[];
    var todo := ds;
    ScanEmpty(schema);
    assert ds - ds == {};
    while todo != {}
      invariant todo <= ds && ScanState(idents, builders, ds - todo, schema)
      decreases |todo|
    {
      var d :| d in todo;
      ghost var seen := ds - todo;
      OneEachSubset(ds, seen + {d});
      if IsSchemaAttr(d.a) {
        if !Installable(d, schema) {
          Rejected(ds, d, schema);
          return Err(false);
        }
        InstallableProper(d, schema);
        ScanStep(idents, builders, seen, d, schema);
        var next := WithSchemaDatom(idents, builders, d);
        idents, builders := next.0, next.1;
      } else {
        ScanSkip(idents, builders, seen, d, schema);
      }
      todo := todo - {d};
      assert ds - todo == seen + {d};
    }
    assert ds - {} == ds;
    ScanParts(idents, builders, ds, schema);
    var attrs := BuildAll(builders, ds, schema);
    PreparableIff(ds, schema);
    if attrs.Err? { return Err(false); }
    return Ok(SchemaUpdate(idents, attrs.value));
  }

  lemma Rejected(ds: set<Datom>, d: Datom, schema: Schema)
    requires d in ds && IsSchemaAttr(d.a) && !Installable(d, schema)
    ensures !Preparable(ds, schema)
  {
  }

  lemma InstallableProper(d: Datom, schema: Schema)
    requires Installable(d, schema)
    ensures ProperValue(d)
  {
  }

  lemma ScanParts(idents: map<I64, Keyword>, builders: map<I64, Builder>, ds: set<Datom>, schema: Schema)
    requires ScanState(idents, builders, ds, schema)
    ensures forall d :: d in ds && IsSchemaAttr(d.a) ==> Installable(d, schema)
    ensures idents == Prepared(ds).idents && Prepared(ds) == SchemaUpdate(Prepared(ds).idents, Prepared(ds).attributes)
    ensures forall e :: e in builders <==> Defines(ds, e)
    ensures forall e :: e in builders ==> BuilderIs(builders[e], ds, e)
  {
  }

  lemma PreparableIff(ds: set<Datom>, schema: Schema)
    requires forall d :: d in ds && IsSchemaAttr(d.a) ==> Installable(d, schema)
    ensures Preparable(ds, schema) <==> forall e :: Defines(ds, e) ==> Complete(ds, e)
  {
    hide Complete, Installable, IsSchemaAttr;
    forall e | Defines(ds, e) ensures exists d :: d in ds && d.e == e {
      forall k, v | Datom(e, k, v, Assert) in ds
        ensures exists d :: d in ds && d.e == e
      {
        assert Datom(e, k, v, Assert).e == e;
      }
    }
  }

  /** `apply_schema_update`: insert names and definitions one by one. */
  method ApplySchemaUpdate(schema: Schema, u: SchemaUpdate) returns (out: Schema)
    requires forall d, e :: d in u.idents && e in u.idents && u.idents[d] == u.idents[e] ==> d == e
    ensures out == Applied(schema, u)
  {
    hide *;
    out := schema;
    var todo := u.idents.Keys;
    ApplyStart(schema, u.idents);
    while todo != {}
      invariant todo <= u.idents.Keys && Applying(schema, u.idents, todo, out)
      decreases |todo|
    {
      var e :| e in todo;
      ApplyStep(schema, u.idents, todo, out, e);
      out := out.(entids := out.entids[e := u.idents[e]], idents := out.idents[u.idents[e] := e]);
      todo := todo - {e};
    }
    ApplyDone(schema, u, out);
    out := out.(attrs := out.attrs + u.attributes);
  }

  /** The names outside `todo` have been inserted. */
  ghost predicate Applying(schema: Schema, names: map<I64, Keyword>, todo: set<I64>, out: Schema) {
    && out.attrs == schema.attrs
    && (forall e :: e in out.entids <==> e in schema.entids || (e in names && e !in todo))
    && (forall e :: e in out.entids ==>
       out.entids[e] == if e in names && e !in todo then names[e] else schema.entids[e])
    && (forall k :: k in out.idents <==> k in schema.idents || NamedBy(names, todo, k))
    && (forall k :: k in out.idents ==>
       if NamedBy(names, todo, k) then IsNameOf(names, out.idents[k], k) else out.idents[k] == schema.idents[k])
  }

  ghost predicate NamedBy(names: map<I64, Keyword>, todo: set<I64>, k: Keyword) {
    exists e :: e in names && e !in todo && names[e] == k
  }

  ghost predicate IsNameOf(names: map<I64, Keyword>, e: I64, k: Keyword) {
    e in names && names[e] == k
  }

  lemma ApplyStart(schema: Schema, names: map<I64, Keyword>)
    ensures Applying(schema, names, names.Keys, schema)
  {
  }

  lemma ApplyStep(schema: Schema, names: map<I64, Keyword>, todo: set<I64>, out: Schema, e: I64)
    requires Applying(schema, names, todo, out) && e in todo && e in names
    ensures Applying(schema, names, todo - {e},
            out.(entids := out.entids[e := names[e]], idents := out.idents[names[e] := e]))
  {
    forall k ensures NamedBy(names, todo - {e}, k) <==> NamedBy(names, todo, k) || names[e] == k {
      if NamedBy(names, todo, k) {
        var c :| c in names && c !in todo && names[c] == k;
        assert c !in todo - {e};
      }
      if names[e] == k { assert e !in todo - {e}; }
    }
    hide NamedBy;
  }

  lemma ApplyDone(schema: Schema, u: SchemaUpdate, out: Schema)
    requires Applying(schema, u.idents, {}, out)
    requires forall d, e :: d in u.idents && e in u.idents && u.idents[d] == u.idents[e] ==> d == e
    ensures out.(attrs := out.attrs + u.attributes) == Applied(schema, u)
  {
    var back := Backwards(u.idents);
    EntidsDone(schema, u.idents, out);
    IdentsDone(schema, u.idents, out, back);
    hide *;
    AppliedParts(schema, u);
  }

  lemma AppliedParts(schema: Schema, u: SchemaUpdate)
    ensures Applied(schema, u) ==
            Schema(schema.entids + u.idents, schema.idents + Backwards(u.idents), schema.attrs + u.attributes)
  {
  }

  lemma EntidsDone(schema: Schema, names: map<I64, Keyword>, out: Schema)
    requires Applying(schema, names, {}, out)
    ensures out.entids == schema.entids + names && out.attrs == schema.attrs
  {
    hide NamedBy;
  }

  lemma IdentsDone(schema: Schema, names: map<I64, Keyword>, out: Schema, back: map<Keyword, I64>)
    requires Applying(schema, names, {}, out)
    requires forall d, e :: d in names && e in names && names[d] == names[e] ==> d == e
    requires forall k :: k in back ==> IsNameOf(names, back[k], k)
    requires forall e :: e in names ==> names[e] in back
    ensures out.idents == schema.idents + back
  {
    forall k ensures NamedBy(names, {}, k) <==> k in back {
      if k in back { assert back[k] !in {} && IsNameOf(names, back[k], k); }
    }
    hide NamedBy;
    forall k ensures (k in out.idents <==> k in schema.idents || k in back)
                  && (k in out.idents ==> out.idents[k] == if k in back then back[k] else schema.idents[k])
    {
      if k in back && k in out.idents { assert IsNameOf(names, out.idents[k], k) && IsNameOf(names, back[k], k); }
    }
  }

  // --- Writing the keys ------------------------------------------------------------------

  ghost predicate AllKnown(ds: set<Datom>, schema: Schema) {
    forall d :: d in ds ==> GetAttribute(schema, d.a).Some?
  }

  /** `write_index_entries`: the keys of every datom, or an error for an unknown attribute. */
  method WriteIndexEntries(ds: set<Datom>, schema: Schema, tx: I64) returns (r: Result<set<Octets>>)
    ensures r == if AllKnown(ds, schema) then Ok(AllKeys(FactsOf(ds, schema, tx), UniqueAttrs(schema))) else Err(false)
  {
    hide AllKeys, FactKeys, UniqueAttrs, FactsOf, GetAttribute;
    var batch: set<Octets> := {};
    var todo := ds;
    WriteStart(ds, schema, tx);
    while todo != {}
      invariant todo <= ds && AllKnown(ds - todo, schema)
      invariant batch == AllKeys(FactsOf(ds - todo, schema, tx), UniqueAttrs(schema))
      decreases |todo|
    {
      var d :| d in todo;
      var attr := GetAttribute(schema, d.a);
      if attr.None? { return Err(false); }
      WriteStep(ds - todo, schema, tx, d);
      batch := batch + FactKeys(Fact(d.e, attr.value.id, d.v, tx, d.op), attr.value.attr.unique.Some?);
      assert ds - (todo - {d}) == ds - todo + {d};
      todo := todo - {d};
    }
    assert ds - {} == ds;
    return Ok(batch);
  }

  lemma WriteStart(ds: set<Datom>, schema: Schema, tx: I64)
    ensures AllKeys(FactsOf(ds - ds, schema, tx), UniqueAttrs(schema)) == {}
  {
    assert ds - ds == {};
    assert FactsOf({}, schema, tx) == {};
  }

  lemma WriteStep(ds: set<Datom>, schema: Schema, tx: I64, d: Datom)
    requires GetAttribute(schema, d.a).Some?
    ensures var attr := GetAttribute(schema, d.a).value;
            AllKeys(FactsOf(ds + {d}, schema, tx), UniqueAttrs(schema)) ==
            AllKeys(FactsOf(ds, schema, tx), UniqueAttrs(schema)) +
              FactKeys(Fact(d.e, attr.id, d.v, tx, d.op), attr.attr.unique.Some?)
  {
    hide AllKeys, FactKeys;
    var f := Fact(d.e, AttrId(d, schema), d.v, tx, d.op);
    assert FactsOf(ds + {d}, schema, tx) == FactsOf(ds, schema, tx) + {f};
    AllKeysStep(FactsOf(ds, schema, tx), f, UniqueAttrs(schema));
  }

  /** The written keys make the indexes hold the new facts as well. */
  lemma WrittenHolds(db: set<Octets>, facts: set<Fact>, added: set<Fact>, unique: set<I64>)
    requires DbHolds(db, facts, unique)
    ensures DbHolds(db + AllKeys(added, unique), facts + added, unique)
  {
    hide *;
    AllKeysHold(added, unique);
    HoldsUnion(db, facts, AllKeys(added, unique), added, unique);
  }

  /** New unique attributes have no facts yet, so the unique-only index needs no new keys. */
  lemma MoreUnique(db: set<Octets>, facts: set<Fact>, unique: set<I64>, more: set<I64>)
    requires DbHolds(db, facts, unique) && unique <= more && forall f :: f in facts && f.a in more ==> f.a in unique
    ensures DbHolds(db, facts, more)
  {
    hide Key;
    forall x: Idx ensures IndexKeys(x, facts, more) == IndexKeys(x, facts, unique) {
      assert forall f :: f in facts ==> (Covers(x, more, f) <==> Covers(x, unique, f));
    }
  }
}
