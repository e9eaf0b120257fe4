/** Which changes of the schema a transaction may make, told from its datoms and the schema. */
module SchemaAccepted {
  import opened Octets
  import opened Values
  import opened Facts
  import opened Model
  import opened SchemaRules
  import opened Transact
  import opened Invariant
  import opened Preserve
  import opened SchemaKept
  import opened Effect

  // --- The condition ---------------------------------------------------------------------

  ghost function Told(s: State, d: Datom): Option<DataType> { SchemaValue(s.schema, d.e, AttrId(d, s.schema)) }

  /** The datom asserts of a schema attribute what the schema says already. */
  ghost predicate Settled(s: State, d: Datom) { d.op.Assert? && Told(s, d) == Some(d.v) }

  /** The datom asserts a proper value the schema lacks, of an entity that is not an attribute yet. */
  ghost predicate Introduces(s: State, d: Datom) {
    d.op.Assert? && Told(s, d) == None && d.e !in s.schema.attrs && ProperValue(d)
  }

  ghost predicate Gets(s: State, ds: seq<Datom>, e: I64, k: Keyword) {
    exists d :: d in ds && d.e == e && d.a == k && Introduces(s, d)
  }

  /**
   * Schema datoms repeat the schema or introduce something new, and an entity that becomes an
   * attribute gets both a value type and a cardinality.
   */
  ghost predicate SchemaPasses(s: State, ds: seq<Datom>) {
    && (forall d :: d in ds && IsSchemaAttr(d.a) ==> Settled(s, d) || Introduces(s, d))
    && (forall d :: d in ds && IsSchemaAttr(d.a) && d.a != KW_IDENT && Introduces(s, d) ==>
          Gets(s, ds, d.e, KW_VALUE_TYPE) && Gets(s, ds, d.e, KW_CARDINALITY))
  }

  // --- What becomes of a schema datom ----------------------------------------------------

  lemma SchemaId(s: State, d: Datom) returns (a: I64)
    requires Inv(s) && IsSchemaAttr(d.a)
    ensures DB_IDENT <= a <= DB_UNIQUE && AttrId(d, s.schema) == a && Single(s.schema, a) &&
            GetAttribute(s.schema, d.a).Some?
  {
    hide Inv, HasSystem, Inverse, GetAttribute, KW_IDENT, KW_VALUE_TYPE, KW_CARDINALITY, KW_UNIQUE;
    InvParts(s);
    a := if d.a == KW_IDENT then DB_IDENT else if d.a == KW_VALUE_TYPE then DB_VALUE_TYPE
         else if d.a == KW_CARDINALITY then DB_CARDINALITY else DB_UNIQUE;
    SystemEntry(s.schema, a);
    SystemSingle(s.schema, a);
  }

  lemma SystemSingle(schema: Schema, a: I64)
    requires HasSystem(schema) && DB_IDENT <= a <= DB_UNIQUE
    ensures Single(schema, a)
  {
    hide KW_IDENT, KW_VALUE_TYPE, KW_CARDINALITY, KW_UNIQUE;
    assert SystemAttribute(a).Some?;
  }

  /** An assertion replaces what the schema tells, and is dropped if that is what it says. */
  lemma SchemaFate(s: State, d: Datom)
    requires Inv(s) && IsSchemaAttr(d.a) && d.op.Assert?
    ensures Replaced(d, s.schema, s.facts, s.pm) == Told(s, d)
    ensures NoChange(d, s.schema, s.facts, s.pm) <==> Settled(s, d)
  {
    hide Inv, Live, Replaced, AttrId, SchemaValue, IsSchemaAttr, Single, Mirrors;
    var a := SchemaId(s, d);
    InvParts(s);
    forall u ensures Replaced(d, s.schema, s.facts, s.pm) == Some(u) <==> Told(s, d) == Some(u) {
      ReplacedIs(s, d, a, u);
      Mirrored(s, d.e, a, u);
    }
    if Told(s, d).Some? { ScalarEq(s, d.e, a, d.v); }
  }

  lemma Mirrored(s: State, e: I64, a: I64, v: DataType)
    requires Mirrors(s.facts, s.schema) && DB_IDENT <= a <= DB_UNIQUE
    ensures Live(s.facts, e, a, v) <==> SchemaValue(s.schema, e, a) == Some(v)
  {
    hide Live, SchemaValue;
  }

  /** What the schema tells is a keyword or a number, equal only to itself. */
  lemma ScalarEq(s: State, e: I64, a: I64, v: DataType)
    requires DB_IDENT <= a <= DB_UNIQUE && SchemaValue(s.schema, e, a).Some?
    ensures ValueEq(SchemaValue(s.schema, e, a).value, v) <==> SchemaValue(s.schema, e, a) == Some(v)
  {
  }

  /** A schema datom is written unless it is settled. */
  lemma WrittenUnlessSettled(s: State, ds: seq<Datom>, d: Datom)
    requires Inv(s) && d in ds && IsSchemaAttr(d.a)
    ensures !Settled(s, d) ==> d in Finalize(ds, s.schema, s.facts, s.pm)
    ensures d.op.Assert? && d in Finalize(ds, s.schema, s.facts, s.pm) ==> !Settled(s, d)
    ensures d.op.Assert? && !Settled(s, d) && Told(s, d).Some? ==>
            Datom(d.e, d.a, Told(s, d).value, Retract) in Finalize(ds, s.schema, s.facts, s.pm)
  {
    hide Inv, Replaced, Told, IsSchemaAttr, ValueEq;
    if d.op.Assert? { SchemaFate(s, d); } else { RetractionKept(s, ds, d); }
  }

  /** A retraction the rewrite adds comes from an assertion that differs from the schema. */
  lemma FinalFrom(s: State, ds: seq<Datom>, x: Datom) returns (d: Datom)
    requires Inv(s) && x in Finalize(ds, s.schema, s.facts, s.pm) && IsSchemaAttr(x.a)
    ensures d in ds && d.a == x.a && (x == d || (d.op.Assert? && !Settled(s, d) && Told(s, d).Some?))
  {
    hide Inv, Replaced, Told, IsSchemaAttr, NoChange;
    if x in ds {
      d := x;
    } else {
      d :| d in ds && Replaced(d, s.schema, s.facts, s.pm).Some? && !NoChange(d, s.schema, s.facts, s.pm) &&
           x == Datom(d.e, d.a, Replaced(d, s.schema, s.facts, s.pm).value, Retract);
      ReplacedAsserts(s, d);
      SchemaFate(s, d);
    }
  }

  lemma ReplacedAsserts(s: State, d: Datom)
    requires Replaced(d, s.schema, s.facts, s.pm).Some?
    ensures d.op.Assert?
  {
  }

  // --- Acceptance ------------------------------------------------------------------------

  lemma PreparedPasses(s: State, ds: seq<Datom>)
    requires Inv(s) && Preparable(Finalize(ds, s.schema, s.facts, s.pm), s.schema)
    ensures SchemaPasses(s, ds)
  {
    hide Inv, Finalize, Settled, Told, ProperValue, IsSchemaAttr, KW_IDENT, KW_VALUE_TYPE, KW_CARDINALITY, KW_UNIQUE,
         Complete, Defines;
    var final := Finalize(ds, s.schema, s.facts, s.pm);
    forall d | d in ds && IsSchemaAttr(d.a) ensures Settled(s, d) || Introduces(s, d) {
      if !Settled(s, d) { WrittenUnlessSettled(s, ds, d); }
    }
    forall d | d in ds && IsSchemaAttr(d.a) && d.a != KW_IDENT && Introduces(s, d)
      ensures Gets(s, ds, d.e, KW_VALUE_TYPE) && Gets(s, ds, d.e, KW_CARDINALITY)
    {
      NotSettled(s, d);
      WrittenUnlessSettled(s, ds, d);
      StartsDefinition(final, d);
      DefinitionNames();
      NowGets(s, ds, d.e, KW_VALUE_TYPE);
      NowGets(s, ds, d.e, KW_CARDINALITY);
    }
  }

  lemma NotSettled(s: State, d: Datom)
    requires Introduces(s, d)
    ensures !Settled(s, d)
  {
    hide Told;
  }

  lemma DefinitionNames()
    ensures IsSchemaAttr(KW_VALUE_TYPE) && IsSchemaAttr(KW_CARDINALITY)
  {
    hide KW_VALUE_TYPE, KW_CARDINALITY;
  }

  lemma StartsDefinition(final: set<Datom>, d: Datom)
    requires d in final && d.op.Assert? && IsSchemaAttr(d.a) && d.a != KW_IDENT
    ensures Defines(final, d.e)
  {
    hide KW_IDENT, KW_VALUE_TYPE, KW_CARDINALITY, KW_UNIQUE;
    assert d == Datom(d.e, d.a, d.v, Assert);
  }

  /** An asserted part of a complete definition is one of the datoms, and new. */
  lemma NowGets(s: State, ds: seq<Datom>, e: I64, k: Keyword)
    requires Inv(s) && Preparable(Finalize(ds, s.schema, s.facts, s.pm), s.schema) && IsSchemaAttr(k)
    requires Complete(Finalize(ds, s.schema, s.facts, s.pm), e) && (k == KW_VALUE_TYPE || k == KW_CARDINALITY)
    ensures Gets(s, ds, e, k)
  {
    hide Inv, Finalize, Settled, Told, ProperValue, IsSchemaAttr, KW_IDENT, KW_VALUE_TYPE, KW_CARDINALITY, KW_UNIQUE,
         Defines;
    var final := Finalize(ds, s.schema, s.facts, s.pm);
    var d := Datom(e, k, AssertedIn(final, e, k).value, Assert);
    AssertKept(s, ds, d);
    WrittenUnlessSettled(s, ds, d);
  }

  lemma PassesPrepared(s: State, ds: seq<Datom>)
    requires Inv(s) && SchemaPasses(s, ds)
    ensures Preparable(Finalize(ds, s.schema, s.facts, s.pm), s.schema)
  {
    hide Inv, Finalize, Told, ProperValue, IsSchemaAttr, KW_IDENT, KW_VALUE_TYPE, KW_CARDINALITY, KW_UNIQUE, Complete,
         Defines, Gets;
    var final := Finalize(ds, s.schema, s.facts, s.pm);
    forall x | x in final && IsSchemaAttr(x.a) ensures Installable(x, s.schema) {
      var d := FinalFrom(s, ds, x);
      WrittenUnlessSettled(s, ds, d);
    }
    forall x | x in final && Defines(final, x.e) ensures Complete(final, x.e) {
      var d := DefinedBy(final, x.e);
      AssertKept(s, ds, d);
      WrittenUnlessSettled(s, ds, d);
      GetsFinal(s, ds, x.e, KW_VALUE_TYPE);
      GetsFinal(s, ds, x.e, KW_CARDINALITY);
      NowComplete(final, x.e);
    }
  }

  lemma DefinedBy(final: set<Datom>, e: I64) returns (d: Datom)
    requires Defines(final, e)
    ensures d in final && d.e == e && d.op.Assert? && IsSchemaAttr(d.a) && d.a != KW_IDENT
  {
    hide KW_IDENT, KW_VALUE_TYPE, KW_CARDINALITY, KW_UNIQUE;
    NamesDistinct();
    var vt, card, u := AssertedIn(final, e, KW_VALUE_TYPE), AssertedIn(final, e, KW_CARDINALITY),
      AssertedIn(final, e, KW_UNIQUE);
    d := if vt.Some? then Datom(e, KW_VALUE_TYPE, vt.value, Assert)
         else if card.Some? then Datom(e, KW_CARDINALITY, card.value, Assert)
         else Datom(e, KW_UNIQUE, u.value, Assert);
  }

  lemma GetsFinal(s: State, ds: seq<Datom>, e: I64, k: Keyword)
    requires Inv(s) && Gets(s, ds, e, k) && (k == KW_VALUE_TYPE || k == KW_CARDINALITY)
    ensures AssertedIn(Finalize(ds, s.schema, s.facts, s.pm), e, k).Some?
  {
    hide Inv, Finalize, Settled, Told, ProperValue, IsSchemaAttr, KW_VALUE_TYPE, KW_CARDINALITY;
    var d :| d in ds && d.e == e && d.a == k && Introduces(s, d);
    DefinitionNames();
    NotSettled(s, d);
    WrittenUnlessSettled(s, ds, d);
    assert d == Datom(e, k, d.v, Assert);
  }

  lemma NowComplete(final: set<Datom>, e: I64)
    requires AssertedIn(final, e, KW_VALUE_TYPE).Some? && AssertedIn(final, e, KW_CARDINALITY).Some?
    ensures Complete(final, e)
  {
  }

  /** The schema check, exactly. */
  lemma SchemaPassesIff(s: State, ds: seq<Datom>)
    requires Inv(s)
    ensures (ChangesSchema(ds) ==> Preparable(Finalize(ds, s.schema, s.facts, s.pm), s.schema)) <==> SchemaPasses(s, ds)
  {
    hide Inv, Preparable, Finalize, Settled, Introduces, Gets, IsSchemaAttr;
    if ChangesSchema(ds) {
      if Preparable(Finalize(ds, s.schema, s.facts, s.pm), s.schema) { PreparedPasses(s, ds); }
      if SchemaPasses(s, ds) { PassesPrepared(s, ds); }
    }
  }
}
