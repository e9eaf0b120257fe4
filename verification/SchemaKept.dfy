/** The schema tables follow the stored schema datoms through every transaction. */
module SchemaKept {
  import opened Octets
  import opened Values
  import opened Facts
  import opened Model
  import opened Partition
  import opened SchemaRules
  import opened Transact
  import opened Invariant
  import opened Preserve

  /** How a transaction changes the schema. */
  ghost predicate SchemaChange(s: State, ds: seq<Datom>, final: set<Datom>, more: Schema) {
    if ChangesSchema(ds) then Preparable(final, s.schema) &&
      more == Applied(s.schema, Prepared(final)) else more == s.schema
  }

  /** The name of a schema attribute. */
  function SchemaName(a: I64): Keyword
    requires DB_IDENT <= a <= DB_UNIQUE
  {
    SystemAttribute(a).value.0
  }

  lemma SchemaNames(a: I64)
    requires DB_IDENT <= a <= DB_UNIQUE
    ensures IsSchemaAttr(SchemaName(a))
  {
  }

  lemma SystemEntry(schema: Schema, a: I64)
    requires Inverse(schema) && HasSystem(schema) && DB_IDENT <= a <= DB_UNIQUE
    ensures GetAttribute(schema, SchemaName(a)) == Some(AttrEntry(a, SystemAttribute(a).value.1)) && a in schema.attrs
    ensures a in schema.entids && schema.entids[a] == SchemaName(a)
  {
    assert SystemAttribute(a).Some?;
  }

  /** Schema datoms by name and by attribute id are the same. */
  lemma HasSchema(s: State, ds: seq<Datom>, final: set<Datom>, tx: I64, pm': Counters, e: I64, a: I64, v: DataType,
                  op: Op)
    requires Inv(s) && Ready(s, ds, final, tx, pm') && DB_IDENT <= a <= DB_UNIQUE
    ensures Has(final, s.schema, e, a, v, op) <==> Datom(e, SchemaName(a), v, op) in final
  {
    hide Inv, Ready, Has, SystemAttribute, GetAttribute;
    InvParts(s);
    SystemEntry(s.schema, a);
    if Has(final, s.schema, e, a, v, op) {
      var d := HasMeans(s, ds, final, tx, pm', e, a, v, op);
    }
    if Datom(e, SchemaName(a), v, op) in final {
      HasThis(final, s.schema, Datom(e, SchemaName(a), v, op), a);
    }
  }

  // --- No schema datoms ------------------------------------------------------------------

  lemma NoSchemaDatom(s: State, ds: seq<Datom>, d: Datom)
    requires !ChangesSchema(ds) && d in Finalize(ds, s.schema, s.facts, s.pm)
    ensures !IsSchemaAttr(d.a)
  {
    hide Finalize, IsSchemaAttr;
    if d !in ds { RetractFrom(s, ds, d); }
  }

  lemma MirrorsUnchanged(s: State, ds: seq<Datom>, final: set<Datom>, tx: I64, pm': Counters)
    requires Inv(s) && Ready(s, ds, final, tx, pm') && !ChangesSchema(ds)
    ensures Mirrors(s.facts + FactsOf(final, s.schema, tx), s.schema)
  {
    hide Inv, Ready, Live, Has, SchemaValue, FactsOf, IsSchemaAttr, SystemAttribute, ChangesSchema, Finalize;
    InvParts(s);
    ReadyGrows(s, ds, final, tx, pm');
    forall e: I64, a: I64, v | DB_IDENT <= a <= DB_UNIQUE
      ensures Live(s.facts + FactsOf(final, s.schema, tx), e, a, v) <==> SchemaValue(s.schema, e, a) == Some(v)
    {
      SchemaNames(a);
      LiveNow(s, final, tx, e, a, v);
      HasSchema(s, ds, final, tx, pm', e, a, v, Assert);
      HasSchema(s, ds, final, tx, pm', e, a, v, Retract);
      forall op | Datom(e, SchemaName(a), v, op) in final
        ensures false
      {
        NoSchemaDatom(s, ds, Datom(e, SchemaName(a), v, op));
      }
    }
  }

  // --- Schema datoms ---------------------------------------------------------------------

  /** A schema entity and an accepted schema datom: an assertion of a proper value for a new entity. */
  lemma Installs(schema: Schema, final: set<Datom>, d: Datom)
    requires Preparable(final, schema) && d in final && IsSchemaAttr(d.a)
    ensures d.op.Assert? && d.e !in schema.attrs && ProperValue(d)
  {
    hide Defines, Complete, ProperValue;
    assert Installable(d, schema);
  }

  lemma AssertionIs(s: State, ds: seq<Datom>, final: set<Datom>, tx: I64, pm': Counters, e: I64, a: I64, v: DataType)
    requires Inv(s) && Ready(s, ds, final, tx, pm') && DB_IDENT <= a <= DB_UNIQUE
    ensures Datom(e, SchemaName(a), v, Assert) in final <==> AssertedIn(final, e, SchemaName(a)) == Some(v)
  {
    hide *;
    if Datom(e, SchemaName(a), v, Assert) in final {
      var w := AssertedIn(final, e, SchemaName(a)).value;
      HasSchema(s, ds, final, tx, pm', e, a, v, Assert);
      HasSchema(s, ds, final, tx, pm', e, a, w, Assert);
      InvParts(s);
      SystemEntry(s.schema, a);
      SystemSingle(s.schema, a);
      BothAsserted(s, ds, final, tx, pm', a, e, v, w);
    }
  }

  lemma SystemSingle(schema: Schema, a: I64)
    requires Inverse(schema) && HasSystem(schema) && DB_IDENT <= a <= DB_UNIQUE
    ensures a in schema.attrs && !schema.attrs[a].multival
  {
    assert SystemAttribute(a).Some?;
  }

  /** A name is only given to an entity without one: a second name would retract the first. */
  lemma NameIsNew(s: State, ds: seq<Datom>, final: set<Datom>, tx: I64, pm': Counters, e: I64, v: DataType)
    requires Inv(s) && Ready(s, ds, final, tx, pm') && Preparable(final, s.schema)
    requires Datom(e, SchemaName(DB_IDENT), v, Assert) in final
    ensures e !in s.schema.entids
  {
    assert DB_IDENT <= DB_UNIQUE;
    hide *;
    if e in s.schema.entids {
      var w := Keyword(s.schema.entids[e]);
      var gone := Datom(e, SchemaName(DB_IDENT), w, Retract);
      InvParts(s);
      NamedLive(s.facts, s.schema, e);
      SystemSingle(s.schema, DB_IDENT);
      HasSchema(s, ds, final, tx, pm', e, DB_IDENT, v, Assert);
      ReplacedValue(s, ds, final, tx, pm', e, DB_IDENT, v, w);
      HasSchema(s, ds, final, tx, pm', e, DB_IDENT, w, Retract);
      SchemaNames(DB_IDENT);
      Installs(s.schema, final, gone);
    }
  }

  lemma NamedLive(facts: set<Fact>, schema: Schema, e: I64)
    requires Mirrors(facts, schema) && e in schema.entids
    ensures Live(facts, e, DB_IDENT, Keyword(schema.entids[e]))
  {
    hide Live;
    assert SchemaValue(schema, e, DB_IDENT) == Some(Keyword(schema.entids[e]));
  }

  /** A new name is not in use. */
  lemma NameUnused(s: State, ds: seq<Datom>, final: set<Datom>, tx: I64, pm': Counters, e: I64, k: Keyword)
    requires Inv(s) && Ready(s, ds, final, tx, pm') && Preparable(final, s.schema)
    requires Datom(e, SchemaName(DB_IDENT), Keyword(k), Assert) in final
    ensures k !in s.schema.idents
  {
    assert DB_IDENT <= DB_UNIQUE;
    hide *;
    if k in s.schema.idents {
      var c := s.schema.idents[k];
      var gone := Datom(c, SchemaName(DB_IDENT), Keyword(k), Retract);
      InvParts(s);
      IdentName(s.schema, k);
      NamedLive(s.facts, s.schema, c);
      NameIsNew(s, ds, final, tx, pm', e, Keyword(k));
      IdentUnique(s.schema);
      KeywordReflexive(k);
      HasSchema(s, ds, final, tx, pm', e, DB_IDENT, Keyword(k), Assert);
      OwnerReplaced(s, ds, final, tx, pm', DB_IDENT, Keyword(k), e, c);
      HasSchema(s, ds, final, tx, pm', c, DB_IDENT, Keyword(k), Retract);
      SchemaNames(DB_IDENT);
      Installs(s.schema, final, gone);
    }
  }

  lemma IdentName(schema: Schema, k: Keyword)
    requires Inverse(schema) && k in schema.idents
    ensures schema.idents[k] in schema.entids && schema.entids[schema.idents[k]] == k
  {
  }

  lemma IdentUnique(schema: Schema)
    requires HasSystem(schema)
    ensures DB_IDENT in UniqueAttrs(schema)
  {
    assert SystemAttribute(DB_IDENT).Some?;
  }

  lemma KeywordReflexive(k: Keyword)
    ensures Reflexive(Keyword(k))
  {
  }

  /** Two entities never get one name. */
  lemma NamesDiffer(s: State, ds: seq<Datom>, final: set<Datom>, tx: I64, pm': Counters, c: I64, e: I64, k: Keyword)
    requires Inv(s) && Ready(s, ds, final, tx, pm')
    requires Datom(c, SchemaName(DB_IDENT), Keyword(k), Assert) in final &&
             Datom(e, SchemaName(DB_IDENT), Keyword(k), Assert) in final
    ensures c == e
  {
    hide Inv, Ready, SystemAttribute;
    ReadyGrows(s, ds, final, tx, pm');
    InvParts(s);
    SystemEntry(s.schema, DB_IDENT);
    IdentUnique(s.schema);
    KeywordReflexive(k);
    assert !Clash(Datom(c, SchemaName(DB_IDENT), Keyword(k), Assert),
           Datom(e, SchemaName(DB_IDENT), Keyword(k), Assert), s.schema);
  }

  // --- The update ------------------------------------------------------------------------

  /** New attributes were none before. */
  lemma DefinesNew(schema: Schema, final: set<Datom>, e: I64)
    requires Preparable(final, schema) && Defines(final, e)
    ensures e !in schema.attrs
  {
    hide ProperValue, Complete;
    forall a, v | Datom(e, a, v, Assert) in final && IsSchemaAttr(a) ensures e !in schema.attrs {
      Installs(schema, final, Datom(e, a, v, Assert));
    }
  }

  /** Every old entry of the tables stays. */
  lemma ChangeGrows(s: State, ds: seq<Datom>, final: set<Datom>, tx: I64, pm': Counters, more: Schema)
    requires Inv(s) && Ready(s, ds, final, tx, pm') && SchemaChange(s, ds, final, more)
    ensures SchemaGrows(s.schema, more) && Inverse(more)
  {
    hide Inv, Ready, Prepared, Preparable, Inverse, Applied, SchemaGrows, ChangesSchema;
    InvInverse(s);
    if ChangesSchema(ds) {
      var u := Prepared(final);
      forall e | e in u.idents
        ensures e !in s.schema.entids && u.idents[e] !in s.schema.idents
      {
        NewName(s, ds, final, tx, pm', e);
      }
      forall c, e | c in u.idents && e in u.idents && u.idents[c] == u.idents[e]
        ensures c == e
      {
        NewNames(s, ds, final, tx, pm', c, e);
      }
      forall e | e in u.attributes ensures e !in s.schema.attrs { NewAttribute(s.schema, final, e); }
      AppliedInverse(s.schema, u);
      AppliedGrows(s.schema, u);
    } else {
      GrowsSelf(s.schema);
    }
  }

  lemma GrowsSelf(schema: Schema)
    ensures SchemaGrows(schema, schema)
  {
  }

  lemma NewAttribute(schema: Schema, final: set<Datom>, e: I64)
    requires Preparable(final, schema) && e in Prepared(final).attributes
    ensures e !in schema.attrs
  {
    hide *;
    UpdateAttributes(final, e);
    DefinesNew(schema, final, e);
  }

  lemma AppliedGrows(schema: Schema, u: SchemaUpdate)
    requires forall e :: e in u.idents ==> e !in schema.entids
    requires forall e :: e in u.attributes ==> e !in schema.attrs
    ensures SchemaGrows(schema, Applied(schema, u))
  {
  }

  lemma NewName(s: State, ds: seq<Datom>, final: set<Datom>, tx: I64, pm': Counters, e: I64)
    requires Inv(s) && Ready(s, ds, final, tx, pm') && Preparable(final, s.schema) && e in Prepared(final).idents
    ensures e !in s.schema.entids && Prepared(final).idents[e] !in s.schema.idents
    ensures Datom(e, SchemaName(DB_IDENT), Keyword(Prepared(final).idents[e]), Assert) in final
  {
    assert SchemaName(DB_IDENT) == KW_IDENT;
    hide *;
    UpdateIdents(final, e);
    var k := Prepared(final).idents[e];
    assert AssertedIn(final, e, KW_IDENT) == Some(Keyword(k));
    NameIsNew(s, ds, final, tx, pm', e, Keyword(k));
    NameUnused(s, ds, final, tx, pm', e, k);
  }

  lemma NewNames(s: State, ds: seq<Datom>, final: set<Datom>, tx: I64, pm': Counters, c: I64, e: I64)
    requires Inv(s) && Ready(s, ds, final, tx, pm') && Preparable(final, s.schema)
    requires var u := Prepared(final).idents; c in u && e in u && u[c] == u[e]
    ensures c == e
  {
    hide *;
    NewName(s, ds, final, tx, pm', c);
    NewName(s, ds, final, tx, pm', e);
    NamesDiffer(s, ds, final, tx, pm', c, e, Prepared(final).idents[e]);
  }

  // --- The tables after the update -------------------------------------------------------

  /** What the new tables say about a schema attribute: the new assertion, or what they said. */
  ghost predicate TableValue(schema: Schema, final: set<Datom>, more: Schema, e: I64, a: I64)
    requires DB_IDENT <= a <= DB_UNIQUE
  {
    var new_ := AssertedIn(final, e, SchemaName(a));
    if new_.Some? then SchemaValue(schema, e, a).None? && SchemaValue(more, e, a) == new_
    else SchemaValue(more, e, a) == SchemaValue(schema, e, a)
  }

  lemma TableIdent(s: State, ds: seq<Datom>, final: set<Datom>, tx: I64, pm': Counters, more: Schema, e: I64)
    requires Inv(s) && Ready(s, ds, final, tx, pm') && Preparable(final, s.schema) &&
             more == Applied(s.schema, Prepared(final))
    ensures TableValue(s.schema, final, more, e, DB_IDENT)
  {
    assert SchemaName(DB_IDENT) == KW_IDENT && IsSchemaAttr(KW_IDENT);
    hide Inv, Ready, Preparable, Prepared, AssertedIn, Applied, SchemaValue, SystemAttribute, IsSchemaAttr;
    UpdateIdents(final, e);
    IdentEntry(s.schema, Prepared(final), e);
    var a := AssertedIn(final, e, KW_IDENT);
    if a.Some? {
      Installs(s.schema, final, Datom(e, KW_IDENT, a.value, Assert));
      NameIsNew(s, ds, final, tx, pm', e, a.value);
    }
  }

  lemma IdentEntry(schema: Schema, u: SchemaUpdate, e: I64)
    ensures SchemaValue(Applied(schema, u), e, DB_IDENT) ==
            if e in u.idents then Some(Keyword(u.idents[e])) else SchemaValue(schema, e, DB_IDENT)
    ensures e !in schema.entids ==> SchemaValue(schema, e, DB_IDENT).None?
  {
  }

  lemma TableDefinition(s: State, final: set<Datom>, more: Schema, e: I64, a: I64)
    requires Preparable(final, s.schema) && more == Applied(s.schema, Prepared(final)) &&
             DB_VALUE_TYPE <= a <= DB_UNIQUE
    ensures TableValue(s.schema, final, more, e, a)
  {
    hide Prepared, Backwards, Preparable;
    UpdateAttributes(final, e);
    if Defines(final, e) {
      DefinesNew(s.schema, final, e);
      DefinedComplete(s.schema, final, e);
      Proper(s.schema, final, e);
    }
  }

  lemma DefinedComplete(schema: Schema, final: set<Datom>, e: I64)
    requires Preparable(final, schema) && Defines(final, e)
    ensures Complete(final, e)
  {
    hide Installable;
    forall a, v | Datom(e, a, v, Assert) in final ensures Complete(final, e) { assert Datom(e, a, v, Assert) in final; }
  }

  lemma Proper(schema: Schema, final: set<Datom>, e: I64)
    requires Preparable(final, schema)
    ensures var vt := AssertedIn(final, e, KW_VALUE_TYPE); vt.Some? ==> vt.value.Long? && TypeFromId(vt.value.i).Some?
    ensures var card := AssertedIn(final, e, KW_CARDINALITY); card.Some? ==>
            card.value.Long? && ManyFromId(card.value.i).Some?
    ensures var u := AssertedIn(final, e, KW_UNIQUE); u.Some? ==> u.value.Long? && UniqueFromId(u.value.i).Some?
  {
    forall a, v | Datom(e, a, v, Assert) in final && IsSchemaAttr(a) ensures ProperValue(Datom(e, a, v, Assert)) {
      hide ProperValue, Complete, Defines;
      Installs(schema, final, Datom(e, a, v, Assert));
    }
    NamesDistinct();
  }

  lemma MirrorsChanged(s: State, ds: seq<Datom>, final: set<Datom>, tx: I64, pm': Counters, more: Schema)
    requires Inv(s) && Ready(s, ds, final, tx, pm') && Preparable(final, s.schema) &&
             more == Applied(s.schema, Prepared(final))
    ensures Mirrors(s.facts + FactsOf(final, s.schema, tx), more)
  {
    hide Inv, Ready, Live, Has, SchemaValue, FactsOf, IsSchemaAttr, SystemAttribute, Preparable, Prepared, Applied,
         TableValue, AssertedIn;
    InvParts(s);
    ReadyGrows(s, ds, final, tx, pm');
    forall e: I64, a: I64, v | DB_IDENT <= a <= DB_UNIQUE
      ensures Live(s.facts + FactsOf(final, s.schema, tx), e, a, v) <==> SchemaValue(more, e, a) == Some(v)
    {
      LiveNow(s, final, tx, e, a, v);
      HasSchema(s, ds, final, tx, pm', e, a, v, Assert);
      HasSchema(s, ds, final, tx, pm', e, a, v, Retract);
      NoRetract(s.schema, final, e, a, v);
      AssertionIs(s, ds, final, tx, pm', e, a, v);
      if a == DB_IDENT { TableIdent(s, ds, final, tx, pm', more, e); } else { TableDefinition(s, final, more, e, a); }
      TableMeans(s.facts, s.schema, final, more, e, a, v);
    }
  }

  lemma NoRetract(schema: Schema, final: set<Datom>, e: I64, a: I64, v: DataType)
    requires Preparable(final, schema) && DB_IDENT <= a <= DB_UNIQUE
    ensures Datom(e, SchemaName(a), v, Retract) !in final
  {
    hide Preparable;
    SchemaNames(a);
    if Datom(e, SchemaName(a), v, Retract) in final { Installs(schema, final, Datom(e, SchemaName(a), v, Retract)); }
  }

  lemma TableMeans(facts: set<Fact>, schema: Schema, final: set<Datom>, more: Schema, e: I64, a: I64, v: DataType)
    requires Mirrors(facts, schema) && DB_IDENT <= a <= DB_UNIQUE && TableValue(schema, final, more, e, a)
    ensures AssertedIn(final, e, SchemaName(a)) == Some(v) || Live(facts, e, a, v) <==>
            SchemaValue(more, e, a) == Some(v)
  {
    hide Live, SchemaValue, AssertedIn;
    assert Live(facts, e, a, v) <==> SchemaValue(schema, e, a) == Some(v);
    forall w ensures Live(facts, e, a, w) <==> SchemaValue(schema, e, a) == Some(w) {}
  }

  lemma SystemKept(schema: Schema, more: Schema)
    requires HasSystem(schema) && SchemaGrows(schema, more)
    ensures HasSystem(more)
  {
    hide SystemAttribute;
  }

  /** After every commit: inverse tables that mirror the stored schema, with the system attributes. */
  lemma SchemaInvariant(s: State, ds: seq<Datom>, final: set<Datom>, tx: I64, pm': Counters, more: Schema)
    requires Inv(s) && Ready(s, ds, final, tx, pm') && SchemaChange(s, ds, final, more)
    ensures Inverse(more) && HasSystem(more) && Mirrors(s.facts + FactsOf(final, s.schema, tx), more) &&
            SchemaGrows(s.schema, more)
  {
    hide Inv, Ready, Mirrors, HasSystem, ChangesSchema, Preparable, Applied, Prepared, SchemaGrows;
    ChangeGrows(s, ds, final, tx, pm', more);
    InvParts(s);
    SystemKept(s.schema, more);
    if ChangesSchema(ds) {
      MirrorsChanged(s, ds, final, tx, pm', more);
    } else {
      MirrorsUnchanged(s, ds, final, tx, pm');
    }
  }
}
