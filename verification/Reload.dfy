/** Rebuilding the schema from the stored schema datoms. */
module Reload {
  import opened Octets
  import opened Values
  import opened Facts
  import opened Model
  import opened SchemaRules
  import opened Transact
  import opened Invariant

  /** A row of the attribute query: entity, value type and cardinality. */
  datatype AttrRow = AttrRow(e: I64, vt: I64, card: I64)

  /** The answers of the three schema queries. */
  datatype Rows = Rows(idents: set<(I64, Keyword)>, attrs: set<AttrRow>, uniques: set<(I64, I64)>)

  ghost predicate Named(facts: set<Fact>, e: I64) {
    exists k :: Live(facts, e, DB_IDENT, Keyword(k))
  }

  /** The queries answer over the live datoms; the attribute query joins on a name. */
  ghost predicate Answers(rows: Rows, facts: set<Fact>) {
    && (forall e: I64, k :: (e, k) in rows.idents <==> Live(facts, e, DB_IDENT, Keyword(k)))
    && (forall e: I64, vt: I64, card: I64 :: AttrRow(e, vt, card) in rows.attrs <==>
          Named(facts, e) && Live(facts, e, DB_VALUE_TYPE, Long(vt)) && Live(facts, e, DB_CARDINALITY, Long(card)))
    && (forall e: I64, u: I64 :: (e, u) in rows.uniques <==> Live(facts, e, DB_UNIQUE, Long(u)))
  }

  /** One name per entity and one entity per name, one row per attribute, known enumeration values. */
  ghost predicate WellFormed(rows: Rows) {
    && (forall r, t :: r in rows.idents && t in rows.idents ==> (r.0 == t.0 <==> r.1 == t.1))
    && (forall r, t :: r in rows.attrs && t in rows.attrs && r.e == t.e ==> r == t)
    && (forall r, t :: r in rows.uniques && t in rows.uniques && r.0 == t.0 ==> r == t)
    && (forall r :: r in rows.attrs ==> TypeFromId(r.vt).Some? && ManyFromId(r.card).Some?)
    && (forall r :: r in rows.uniques ==> UniqueFromId(r.1).Some?)
  }

  /** The tables the rows spell out. */
  ghost predicate Spelled(rows: Rows, schema: Schema) {
    && (forall e, k :: (e, k) in rows.idents <==> e in schema.entids && schema.entids[e] == k)
    && (forall e, k :: (e, k) in rows.idents <==> k in schema.idents && schema.idents[k] == e)
    && (forall e :: e in schema.attrs <==> exists r :: r in rows.attrs && r.e == e)
    && (forall r :: r in rows.attrs && r.e in schema.attrs ==>
          && Some(schema.attrs[r.e].valueType) == TypeFromId(r.vt)
          && Some(schema.attrs[r.e].multival) == ManyFromId(r.card)
          && schema.attrs[r.e].unique == UniqueOf(rows, r.e))
  }

  ghost function UniqueOf(rows: Rows, e: I64): (r: Option<Unique>) {
    if u: I64 :| (e, u) in rows.uniques then UniqueFromId(u) else None
  }

  // --- The rows of a reachable state -----------------------------------------------------

  lemma LiveValue(s: State, e: I64, a: I64, v: DataType)
    requires Inv(s) && DB_IDENT <= a <= DB_UNIQUE
    ensures Live(s.facts, e, a, v) <==> SchemaValue(s.schema, e, a) == Some(v)
  {
    hide Live, SchemaValue, Typed, Referenced, SingleValued, SingleOwner, HasSystem, Inverse, InTime, AllWritten,
         LatestStored, CountersOk;
  }

  lemma NamedIff(s: State, e: I64)
    requires Inv(s)
    ensures Named(s.facts, e) <==> e in s.schema.entids
  {
    hide Inv, Live;
    forall k ensures Live(s.facts, e, DB_IDENT, Keyword(k)) <==> e in s.schema.entids && s.schema.entids[e] == k {
      LiveValue(s, e, DB_IDENT, Keyword(k));
    }
    if e in s.schema.entids { assert Live(s.facts, e, DB_IDENT, Keyword(s.schema.entids[e])); }
  }

  lemma IdentRow(s: State, rows: Rows, e: I64, k: Keyword)
    requires Inv(s) && Answers(rows, s.facts)
    ensures (e, k) in rows.idents <==> e in s.schema.entids && s.schema.entids[e] == k
  {
    hide Inv, Live;
    LiveValue(s, e, DB_IDENT, Keyword(k));
  }

  lemma AttributeRow(s: State, rows: Rows, r: AttrRow)
    requires Inv(s) && Answers(rows, s.facts)
    ensures r in rows.attrs <==>
      r.e in s.schema.entids && r.e in s.schema.attrs &&
      r.vt == TypeId(s.schema.attrs[r.e].valueType) && r.card == CardinalityId(s.schema.attrs[r.e].multival)
  {
    hide Inv, Live, Named;
    assert r == AttrRow(r.e, r.vt, r.card);
    NamedIff(s, r.e);
    LiveValue(s, r.e, DB_VALUE_TYPE, Long(r.vt));
    LiveValue(s, r.e, DB_CARDINALITY, Long(r.card));
  }

  lemma UniqueRow(s: State, rows: Rows, e: I64, u: I64)
    requires Inv(s) && Answers(rows, s.facts)
    ensures (e, u) in rows.uniques <==>
            e in s.schema.attrs && s.schema.attrs[e].unique.Some? && u == UniqueId(s.schema.attrs[e].unique.value)
  {
    hide Inv, Live;
    LiveValue(s, e, DB_UNIQUE, Long(u));
  }

  lemma IdentRows(s: State, rows: Rows, r: (I64, Keyword), t: (I64, Keyword))
    requires Inv(s) && Answers(rows, s.facts) && r in rows.idents && t in rows.idents
    ensures r.0 == t.0 <==> r.1 == t.1
  {
    InvInverse(s);
    hide Inv, Answers;
    IdentRow(s, rows, r.0, r.1);
    IdentRow(s, rows, t.0, t.1);
  }

  lemma RowsWellFormed(s: State, rows: Rows)
    requires Inv(s) && Answers(rows, s.facts)
    ensures WellFormed(rows)
  {
    hide Inv, Answers;
    forall r, t | r in rows.idents && t in rows.idents ensures r.0 == t.0 <==> r.1 == t.1 { IdentRows(s, rows, r, t); }
    hide Inverse, TypeFromId, TypeId;
    forall r | r in rows.attrs ensures TypeFromId(r.vt).Some? && ManyFromId(r.card).Some? { AttributeRow(s, rows, r); }
    forall r, t | r in rows.attrs && t in rows.attrs && r.e == t.e ensures r == t {
      AttributeRow(s, rows, r);
      AttributeRow(s, rows, t);
    }
    forall r | r in rows.uniques ensures UniqueFromId(r.1).Some? { UniqueRow(s, rows, r.0, r.1); }
    forall r, t | r in rows.uniques && t in rows.uniques && r.0 == t.0 ensures r == t {
      UniqueRow(s, rows, r.0, r.1);
      UniqueRow(s, rows, t.0, t.1);
    }
  }

  /**
   * The rebuilt schema has the ident tables of memory and the same answer for every attribute
   * name; it drops exactly the attribute definitions without a name.
   */
  lemma SchemaReloaded(s: State, rows: Rows, schema: Schema)
    requires Inv(s) && Answers(rows, s.facts) && Spelled(rows, schema)
    ensures schema.entids == s.schema.entids && schema.idents == s.schema.idents
    ensures forall e :: e in schema.attrs <==> e in s.schema.attrs && e in s.schema.entids
    ensures forall k :: GetAttribute(schema, k) == GetAttribute(s.schema, k)
  {
    hide Inv, Answers, Spelled, GetAttribute;
    ReloadedIdents(s, rows, schema);
    forall e
      ensures e in schema.attrs <==> e in s.schema.attrs && e in s.schema.entids
    {
      ReloadedAttribute(s, rows, schema, e);
    }
    forall k ensures GetAttribute(schema, k) == GetAttribute(s.schema, k) { ReloadedEntry(s, rows, schema, k); }
  }

  lemma ReloadedIdents(s: State, rows: Rows, schema: Schema)
    requires Inv(s) && Answers(rows, s.facts) && Spelled(rows, schema)
    ensures schema.entids == s.schema.entids && schema.idents == s.schema.idents
  {
    hide *;
    forall e
      ensures (e in schema.entids <==> e in s.schema.entids) &&
              (e in schema.entids ==> schema.entids[e] == s.schema.entids[e])
    {
      ReloadedName(s, rows, schema, e);
    }
    forall k
      ensures (k in schema.idents <==> k in s.schema.idents) &&
              (k in schema.idents ==> schema.idents[k] == s.schema.idents[k])
    {
      ReloadedIdent(s, rows, schema, k);
    }
  }

  lemma ReloadedName(s: State, rows: Rows, schema: Schema, e: I64)
    requires Inv(s) && Answers(rows, s.facts) && Spelled(rows, schema)
    ensures (e in schema.entids <==> e in s.schema.entids) &&
            (e in schema.entids ==> schema.entids[e] == s.schema.entids[e])
  {
    hide Inv, Answers;
    if e in schema.entids { IdentRow(s, rows, e, schema.entids[e]); }
    if e in s.schema.entids { IdentRow(s, rows, e, s.schema.entids[e]); }
  }

  lemma ReloadedIdent(s: State, rows: Rows, schema: Schema, k: Keyword)
    requires Inv(s) && Answers(rows, s.facts) && Spelled(rows, schema)
    ensures (k in schema.idents <==> k in s.schema.idents) &&
            (k in schema.idents ==> schema.idents[k] == s.schema.idents[k])
  {
    InvInverse(s);
    hide Inv, Answers;
    if k in schema.idents { IdentRow(s, rows, schema.idents[k], k); }
    if k in s.schema.idents { IdentRow(s, rows, s.schema.idents[k], k); }
  }

  lemma ReloadedAttribute(s: State, rows: Rows, schema: Schema, e: I64)
    requires Inv(s) && Answers(rows, s.facts) && Spelled(rows, schema)
    ensures e in schema.attrs <==> e in s.schema.attrs && e in s.schema.entids
    ensures e in schema.attrs ==> schema.attrs[e] == s.schema.attrs[e]
  {
    hide Inv, Answers;
    if e in s.schema.attrs && e in s.schema.entids {
      var r := AttrRow(e, TypeId(s.schema.attrs[e].valueType), CardinalityId(s.schema.attrs[e].multival));
      AttributeRow(s, rows, r);
      assert r in rows.attrs && r.e == e;
    }
    if e in schema.attrs {
      var r :| r in rows.attrs && r.e == e;
      AttributeRow(s, rows, r);
      UniqueReloaded(s, rows, e);
    }
  }

  lemma UniqueReloaded(s: State, rows: Rows, e: I64)
    requires Inv(s) && Answers(rows, s.facts) && e in s.schema.attrs
    ensures UniqueOf(rows, e) == s.schema.attrs[e].unique
  {
    hide Inv, Answers;
    forall u: I64
      ensures (e, u) in rows.uniques <==>
              s.schema.attrs[e].unique.Some? && u == UniqueId(s.schema.attrs[e].unique.value)
    {
      UniqueRow(s, rows, e, u);
    }
    if s.schema.attrs[e].unique.Some? { assert (e, UniqueId(s.schema.attrs[e].unique.value)) in rows.uniques; }
  }

  lemma ReloadedEntry(s: State, rows: Rows, schema: Schema, k: Keyword)
    requires Inv(s) && Answers(rows, s.facts) && Spelled(rows, schema)
    ensures GetAttribute(schema, k) == GetAttribute(s.schema, k)
  {
    InvInverse(s);
    hide Inv, Answers, Spelled;
    ReloadedIdents(s, rows, schema);
    if k in schema.idents { ReloadedAttribute(s, rows, schema, schema.idents[k]); }
  }

  // --- The loops -------------------------------------------------------------------------

  /** The tables built from the ident rows outside `todo`. */
  ghost predicate IdentsSoFar(rows: set<(I64, Keyword)>, todo: set<(I64, Keyword)>, entids: map<I64, Keyword>,
                              idents: map<Keyword, I64>)
  {
    && (forall e, k :: (e, k) in rows - todo <==> e in entids && entids[e] == k)
    && (forall e, k :: (e, k) in rows - todo <==> k in idents && idents[k] == e)
  }

  lemma IdentsStep(rows: Rows, todo: set<(I64, Keyword)>, entids: map<I64, Keyword>, idents: map<Keyword, I64>,
                   r: (I64, Keyword))
    requires WellFormed(rows) && todo <= rows.idents && IdentsSoFar(rows.idents, todo, entids, idents) && r in todo
    ensures IdentsSoFar(rows.idents, todo - {r}, entids[r.0 := r.1], idents[r.1 := r.0])
  {
    var entids', idents' := entids[r.0 := r.1], idents[r.1 := r.0];
    forall e, k ensures ((e, k) in rows.idents - (todo - {r}) <==> e in entids' && entids'[e] == k)
                     && ((e, k) in rows.idents - (todo - {r}) <==> k in idents' && idents'[k] == e)
    {
      assert (e, k) in rows.idents - todo <==> e in entids && entids[e] == k;
      assert (e, k) in rows.idents - todo <==> k in idents && idents[k] == e;
      if (e, k) in rows.idents { assert e == r.0 <==> k == r.1; }
      if e == r.0 && k != r.1 { assert (e, k) !in rows.idents; }
    }
  }

  method BuildIdents(rows: Rows) returns (entids: map<I64, Keyword>, idents: map<Keyword, I64>)
    requires WellFormed(rows)
    ensures IdentsSoFar(rows.idents, {}, entids, idents)
  {
    hide *;
    entids, idents := map[], map[];
    var todo := rows.idents;
    IdentsStart(rows.idents);
    while todo != {}
      invariant todo <= rows.idents && IdentsSoFar(rows.idents, todo, entids, idents)
      decreases |todo|
    {
      var r :| r in todo;
      IdentsStep(rows, todo, entids, idents, r);
      entids, idents := entids[r.0 := r.1], idents[r.1 := r.0];
      todo := todo - {r};
    }
  }

  lemma IdentsStart(rows: set<(I64, Keyword)>)
    ensures IdentsSoFar(rows, rows, map[], map[])
  {
  }

  /** The uniqueness table. */
  method BuildUniques(rows: Rows) returns (table: map<I64, Unique>)
    requires WellFormed(rows)
    ensures forall e :: (if e in table then Some(table[e]) else None) == UniqueOf(rows, e)
  {
    table := map[];
    var todo := rows.uniques;
    while todo != {}
      invariant todo <= rows.uniques
      invariant forall e :: e in table ==> exists u: I64 :: (e, u) in rows.uniques && UniqueFromId(u) == Some(table[e])
      invariant forall e, u: I64 :: (e, u) in rows.uniques - todo ==> e in table
      decreases |todo|
    {
      var r :| r in todo;
      table := table[r.0 := UniqueFromId(r.1).value];
      todo := todo - {r};
      assert (r.0, r.1) in rows.uniques;
    }
    forall e ensures (if e in table then Some(table[e]) else None) == UniqueOf(rows, e) { UniqueIs(rows, table, e); }
  }

  lemma UniqueIs(rows: Rows, table: map<I64, Unique>, e: I64)
    requires WellFormed(rows)
    requires e in table ==> exists u: I64 :: (e, u) in rows.uniques && UniqueFromId(u) == Some(table[e])
    requires forall u: I64 :: (e, u) in rows.uniques ==> e in table
    ensures (if e in table then Some(table[e]) else None) == UniqueOf(rows, e)
  {
    hide UniqueFromId;
    if e in table {
      var u: I64 :| (e, u) in rows.uniques && UniqueFromId(u) == Some(table[e]);
      forall w: I64 | (e, w) in rows.uniques ensures w == u { assert (e, w) == (e, u); }
    }
  }

  ghost predicate AttrsSoFar(rows: Rows, todo: set<AttrRow>, attrs: map<I64, Attribute>) {
    && (forall e :: e in attrs <==> exists r :: r in rows.attrs - todo && r.e == e)
    && (forall r :: r in rows.attrs - todo && r.e in attrs ==> AttrIs(rows, r, attrs[r.e]))
  }

  ghost predicate AttrIs(rows: Rows, r: AttrRow, a: Attribute) {
    Some(a.valueType) == TypeFromId(r.vt) && Some(a.multival) == ManyFromId(r.card) && a.unique == UniqueOf(rows, r.e)
  }

  lemma AttrsStep(rows: Rows, todo: set<AttrRow>, attrs: map<I64, Attribute>, r: AttrRow, a: Attribute)
    requires WellFormed(rows) && todo <= rows.attrs && AttrsSoFar(rows, todo, attrs) && r in todo && AttrIs(rows, r, a)
    ensures AttrsSoFar(rows, todo - {r}, attrs[r.e := a])
  {
    hide AttrIs;
    var next := attrs[r.e := a];
    forall e ensures e in next <==> exists t :: t in rows.attrs - (todo - {r}) && t.e == e {
      assert r in rows.attrs - (todo - {r});
    }
    forall t | t in rows.attrs - (todo - {r}) && t.e in next ensures AttrIs(rows, t, next[t.e]) {
      if t.e == r.e { assert t == r; } else { assert t in rows.attrs - todo; }
    }
  }

  /** The table of attributes; each uniqueness entry is taken out when its attribute is built. */
  method BuildAttributes(rows: Rows, uniques: map<I64, Unique>) returns (attrs: map<I64, Attribute>)
    requires WellFormed(rows) && forall e :: (if e in uniques then Some(uniques[e]) else None) == UniqueOf(rows, e)
    ensures AttrsSoFar(rows, {}, attrs)
  {
    hide UniqueOf;
    attrs := map[];
    var left := uniques;
    var todo := rows.attrs;
    AttrsStart(rows);
    hide AttrsSoFar, TypeFromId, ManyFromId;
    while todo != {}
      invariant todo <= rows.attrs && AttrsSoFar(rows, todo, attrs)
      invariant forall e :: (exists r :: r in todo && r.e == e) ==>
                (if e in left then Some(left[e]) else None) == UniqueOf(rows, e)
      decreases |todo|
    {
      var r :| r in todo;
      var unique := if r.e in left then Some(left[r.e]) else None;
      var a := Attribute(TypeFromId(r.vt).value, ManyFromId(r.card).value, unique);
      assert AttrIs(rows, r, a);
      AttrsStep(rows, todo, attrs, r, a);
      attrs := attrs[r.e := a];
      left := left - {r.e};
      todo := todo - {r};
    }
  }

  lemma AttrsStart(rows: Rows)
    ensures AttrsSoFar(rows, rows.attrs, map[])
  {
  }

  /** The rebuild of `load_schema_from_indices` on the answers of its queries. */
  method BuildSchema(rows: Rows) returns (schema: Schema)
    requires WellFormed(rows)
    ensures Spelled(rows, schema)
  {
    hide WellFormed, UniqueOf, TypeFromId, ManyFromId;
    var entids, idents := BuildIdents(rows);
    var uniques := BuildUniques(rows);
    var attrs := BuildAttributes(rows, uniques);
    schema := Schema(entids, idents, attrs);
    assert rows.attrs - {} == rows.attrs && rows.idents - {} == rows.idents;
  }
}
