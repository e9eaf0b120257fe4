/** The validation pass over a transaction, with its table of added and retracted values. */
module Validate {
  import opened Octets
  import opened Values
  import opened Facts
  import opened Model
  import opened SchemaRules

  // --- Hash sets of values ---------------------------------------------------------------

  predicate Holds(s: seq<DataType>, v: DataType) {
    exists i :: 0 <= i < |s| && SameKey(s[i], v)
  }

  /** A hash set keeps one copy of a value, unless the value is not equal to itself. */
  function InsertValue(s: seq<DataType>, v: DataType): seq<DataType> {
    if Holds(s, v) then s else s + [v]
  }

  predicate Hits(d: Datom, schema: Schema, a: I64, e: I64, op: Op) { About(d, schema, a, e) && d.op == op }

  /** The set one table entry holds after `n` datoms. */
  ghost function SetAfter(ds: seq<Datom>, n: nat, schema: Schema, a: I64, e: I64, op: Op): seq<DataType>
    requires n <= |ds|
  {
    if n == 0 then []
    else
      var before := SetAfter(ds, n - 1, schema, a, e, op);
      if Hits(ds[n - 1], schema, a, e, op) then InsertValue(before, ds[n - 1].v) else before
  }

  /** The set has exactly the values seen. */
  lemma {:induction false} SetMembers(ds: seq<Datom>, n: nat, schema: Schema, a: I64, e: I64, op: Op, v: DataType)
    requires n <= |ds|
    ensures v in SetAfter(ds, n, schema, a, e, op) <==> Seen(ds, n, schema, a, e, op, v)
  {
    hide About, Reflexive;
    if n > 0 {
      SetMembers(ds, n - 1, schema, a, e, op, v);
      var d, before := ds[n - 1], SetAfter(ds, n - 1, schema, a, e, op);
      if Hits(d, schema, a, e, op) && Holds(before, d.v) {
        var i :| 0 <= i < |before| && SameKey(before[i], d.v);
        assert before[i] in before;
      }
      SeenLast(ds, n, schema, a, e, op, v);
    }
  }

  ghost predicate Seen(ds: seq<Datom>, n: nat, schema: Schema, a: I64, e: I64, op: Op, v: DataType)
    requires n <= |ds|
  {
    exists i :: 0 <= i < n && Hits(ds[i], schema, a, e, op) && ds[i].v == v
  }

  lemma SeenLast(ds: seq<Datom>, n: nat, schema: Schema, a: I64, e: I64, op: Op, v: DataType)
    requires 0 < n <= |ds|
    ensures Seen(ds, n, schema, a, e, op, v) <==>
            Seen(ds, n - 1, schema, a, e, op, v) || (Hits(ds[n - 1], schema, a, e, op) && ds[n - 1].v == v)
  {
    hide Hits;
  }

  /** Any two values seen are one key. */
  ghost predicate AllSame(ds: seq<Datom>, n: nat, schema: Schema, a: I64, e: I64, op: Op)
    requires n <= |ds|
  {
    forall i, j :: 0 <= i < j < n && Hits(ds[i], schema, a, e, op) && Hits(ds[j], schema, a, e, op) ==>
      SameKey(ds[i].v, ds[j].v)
  }

  /** More than one element means two assertions that are not one key. */
  lemma {:induction false} SetSize(ds: seq<Datom>, n: nat, schema: Schema, a: I64, e: I64, op: Op)
    requires n <= |ds|
    ensures |SetAfter(ds, n, schema, a, e, op)| <= 1 <==> AllSame(ds, n, schema, a, e, op)
  {
    if n > 0 {
      hide Hits, SameKey;
      SetSize(ds, n - 1, schema, a, e, op);
      if Hits(ds[n - 1], schema, a, e, op) { SetGrows(ds, n, schema, a, e, op); }
    }
  }

  lemma SetGrows(ds: seq<Datom>, n: nat, schema: Schema, a: I64, e: I64, op: Op)
    requires 0 < n <= |ds| && Hits(ds[n - 1], schema, a, e, op)
    requires |SetAfter(ds, n - 1, schema, a, e, op)| <= 1 <==> AllSame(ds, n - 1, schema, a, e, op)
    ensures |SetAfter(ds, n, schema, a, e, op)| <= 1 <==> AllSame(ds, n, schema, a, e, op)
  {
    hide Hits, SameKey;
    var s, v := SetAfter(ds, n - 1, schema, a, e, op), ds[n - 1].v;
    if s == [] {
      forall i | 0 <= i < n - 1 && Hits(ds[i], schema, a, e, op)
        ensures false
      {
        MemberAt(ds, n - 1, schema, a, e, op, i);
      }
    } else if |s| == 1 {
      forall i | 0 <= i < n - 1 && Hits(ds[i], schema, a, e, op)
        ensures ds[i].v == s[0]
      {
        MemberAt(ds, n - 1, schema, a, e, op, i);
      }
      assert s[0] in s;
      SetMembers(ds, n - 1, schema, a, e, op, s[0]);
      assert Holds(s, v) <==> SameKey(s[0], v);
    }
  }

  lemma MemberAt(ds: seq<Datom>, n: nat, schema: Schema, a: I64, e: I64, op: Op, i: nat)
    requires i < n <= |ds| && Hits(ds[i], schema, a, e, op)
    ensures ds[i].v in SetAfter(ds, n, schema, a, e, op)
  {
    SetMembers(ds, n, schema, a, e, op, ds[i].v);
  }

  // --- The table -------------------------------------------------------------------------

  datatype AddRetract = AddRetract(adds: seq<DataType>, retracts: seq<DataType>)

  /** Values by attribute and entity. */
  type Table = map<(I64, I64), AddRetract>

  function Entry(t: Table, a: I64, e: I64): AddRetract {
    if (a, e) in t then t[(a, e)] else AddRetract([], [])
  }

  ghost function Expected(ds: seq<Datom>, n: nat, schema: Schema, a: I64, e: I64): AddRetract
    requires n <= |ds|
  {
    AddRetract(SetAfter(ds, n, schema, a, e, Assert), SetAfter(ds, n, schema, a, e, Retract))
  }

  ghost predicate TableIs(t: Table, ds: seq<Datom>, n: nat, schema: Schema)
    requires n <= |ds|
  {
    && (forall a, e :: Entry(t, a, e) == Expected(ds, n, schema, a, e))
    && (forall k :: k in t ==> k.0 in schema.attrs)
  }

  function WithDatom(t: Table, d: Datom, a: I64): Table {
    var x := Entry(t, a, d.e);
    t[(a, d.e) := if d.op.Assert? then x.(adds := InsertValue(x.adds, d.v))
      else x.(retracts := InsertValue(x.retracts, d.v))]
  }

  lemma TableStep(t: Table, ds: seq<Datom>, n: nat, schema: Schema)
    requires n < |ds| && TableIs(t, ds, n, schema) && GetAttribute(schema, ds[n].a).Some?
    ensures TableIs(WithDatom(t, ds[n], GetAttribute(schema, ds[n].a).value.id), ds, n + 1, schema)
  {
    hide InsertValue;
    var d, id := ds[n], GetAttribute(schema, ds[n].a).value.id;
    var next := WithDatom(t, d, id);
    forall a, e ensures Entry(next, a, e) == Expected(ds, n + 1, schema, a, e) {
      assert Entry(t, a, e) == Expected(ds, n, schema, a, e);
      assert About(d, schema, a, e) <==> a == id && e == d.e;
    }
  }

  predicate Mistyped(attr: Attribute, x: AddRetract) {
    exists v :: v in x.adds + x.retracts && !Matches(attr.valueType, v)
  }

  predicate Overlaps(x: AddRetract) {
    exists v :: v in x.adds && Holds(x.retracts, v)
  }

  predicate Bad(attr: Attribute, x: AddRetract) {
    Mistyped(attr, x) || (!attr.multival && (Overlaps(x) || |x.adds| > 1))
  }

  lemma KnownAll(ds: seq<Datom>, schema: Schema, a: I64, e: I64, op: Op, v: DataType) returns (i: nat)
    requires v in SetAfter(ds, |ds|, schema, a, e, op)
    ensures i < |ds| && Hits(ds[i], schema, a, e, op) && ds[i].v == v
  {
    SetMembers(ds, |ds|, schema, a, e, op, v);
    i :| i < |ds| && Hits(ds[i], schema, a, e, op) && ds[i].v == v;
  }

  /** A bad entry breaks a rule. */
  lemma BadMeans(ds: seq<Datom>, schema: Schema, a: I64, e: I64)
    requires a in schema.attrs && Bad(schema.attrs[a], Expected(ds, |ds|, schema, a, e))
    ensures !Validates(ds, schema)
  {
    hide SetAfter, Matches, SameKey;
    var x := Expected(ds, |ds|, schema, a, e);
    if Mistyped(schema.attrs[a], x) {
      var v :| v in x.adds + x.retracts && !Matches(schema.attrs[a].valueType, v);
      var op := if v in x.adds then Assert else Retract;
      var i := KnownAll(ds, schema, a, e, op, v);
      assert !WellTyped(ds[i], schema);
    } else if |x.adds| > 1 {
      SetSize(ds, |ds|, schema, a, e, Assert);
      var i, j :| 0 <= i < j < |ds| && Hits(ds[i], schema, a, e, Assert) && Hits(ds[j], schema, a, e, Assert) &&
        !SameKey(ds[i].v, ds[j].v);
      assert Conflict(ds[i], ds[j], schema);
    } else {
      var v :| v in x.adds && Holds(x.retracts, v);
      var k :| 0 <= k < |x.retracts| && SameKey(x.retracts[k], v);
      OverlapMeans(ds, schema, a, e, v, x.retracts[k]);
    }
  }

  lemma OverlapMeans(ds: seq<Datom>, schema: Schema, a: I64, e: I64, v: DataType, w: DataType)
    requires a in schema.attrs && !schema.attrs[a].multival && SameKey(w, v)
    requires v in SetAfter(ds, |ds|, schema, a, e, Assert) && w in SetAfter(ds, |ds|, schema, a, e, Retract)
    ensures !Validates(ds, schema)
  {
    hide SetAfter, Matches, Reflexive;
    var i := KnownAll(ds, schema, a, e, Assert, v);
    var j := KnownAll(ds, schema, a, e, Retract, w);
    if i < j { assert Conflict(ds[i], ds[j], schema); } else { assert Conflict(ds[j], ds[i], schema); }
  }

  /** A broken rule shows in an entry. */
  lemma ConflictShows(ds: seq<Datom>, schema: Schema, i: nat, j: nat)
    requires i < j < |ds| && Conflict(ds[i], ds[j], schema)
    ensures var a := GetAttribute(schema, ds[i].a).value.id;
            a in schema.attrs && Bad(schema.attrs[a], Expected(ds, |ds|, schema, a, ds[i].e))
  {
    hide SetAfter, Matches, Reflexive;
    var a, e := GetAttribute(schema, ds[i].a).value.id, ds[i].e;
    MemberAt(ds, |ds|, schema, a, e, ds[i].op, i);
    MemberAt(ds, |ds|, schema, a, e, ds[j].op, j);
    if ds[i].op == ds[j].op {
      SetSize(ds, |ds|, schema, a, e, Assert);
      assert !AllSame(ds, |ds|, schema, a, e, Assert);
    } else {
      var x := Expected(ds, |ds|, schema, a, e);
      var v, w := if ds[i].op.Assert? then ds[i].v else ds[j].v, if ds[i].op.Assert? then ds[j].v else ds[i].v;
      var k :| 0 <= k < |x.retracts| && x.retracts[k] == w;
      assert SameKey(x.retracts[k], v);
      assert Overlaps(x);
    }
  }

  lemma MistypedShows(ds: seq<Datom>, schema: Schema, i: nat)
    requires i < |ds| && GetAttribute(schema, ds[i].a).Some? && !WellTyped(ds[i], schema)
    ensures var a := GetAttribute(schema, ds[i].a).value.id;
            a in schema.attrs && Bad(schema.attrs[a], Expected(ds, |ds|, schema, a, ds[i].e))
  {
    hide SetAfter, Matches;
    var a, e := GetAttribute(schema, ds[i].a).value.id, ds[i].e;
    MemberAt(ds, |ds|, schema, a, e, ds[i].op, i);
    var x := Expected(ds, |ds|, schema, a, e);
    assert ds[i].op == Assert || ds[i].op == Retract;
    assert ds[i].v in x.adds || ds[i].v in x.retracts;
  }

  ghost predicate SomeBad(t: Table, schema: Schema) {
    exists k :: k in t && k.0 in schema.attrs && Bad(schema.attrs[k.0], t[k])
  }

  lemma EmptyNotBad(attr: Attribute)
    ensures !Bad(attr, AddRetract([], []))
  {
  }

  /** With every attribute known, the transaction validates exactly if no entry is bad. */
  lemma TableDecides(t: Table, ds: seq<Datom>, schema: Schema)
    requires TableIs(t, ds, |ds|, schema) && forall i :: 0 <= i < |ds| ==> GetAttribute(schema, ds[i].a).Some?
    ensures Validates(ds, schema) <==> !SomeBad(t, schema)
  {
    hide Bad, Expected, WellTyped, Conflict;
    if k :| k in t && k.0 in schema.attrs && Bad(schema.attrs[k.0], t[k]) {
      assert Entry(t, k.0, k.1) == t[k];
      BadMeans(ds, schema, k.0, k.1);
    } else {
      forall a, e | a in schema.attrs ensures !Bad(schema.attrs[a], Expected(ds, |ds|, schema, a, e)) {
        assert Entry(t, a, e) == Expected(ds, |ds|, schema, a, e);
        EmptyNotBad(schema.attrs[a]);
      }
      forall i | 0 <= i < |ds|
        ensures WellTyped(ds[i], schema)
      {
        if !WellTyped(ds[i], schema) { MistypedShows(ds, schema, i); }
      }
      forall i, j | 0 <= i < j < |ds| ensures !Conflict(ds[i], ds[j], schema) {
        if Conflict(ds[i], ds[j], schema) { ConflictShows(ds, schema, i, j); }
      }
    }
  }

  // --- The loops -------------------------------------------------------------------------

  /** `build_aev_validation_map`. */
  method BuildTable(ds: seq<Datom>, schema: Schema) returns (r: Result<Table>, changes: bool)
    ensures r.Ok? <==> forall i :: 0 <= i < |ds| ==> GetAttribute(schema, ds[i].a).Some?
    ensures r.Ok? ==> TableIs(r.value, ds, |ds|, schema) && (changes <==> ChangesSchema(ds))
    ensures r.Err? ==> !r.halt
  {
    hide TableIs, IsSchemaAttr;
    var t: Table := map[];
    changes := false;
    TableStart(ds, schema);
    for n := 0 to |ds|
      invariant TableIs(t, ds, n, schema)
      invariant forall i :: 0 <= i < n ==> GetAttribute(schema, ds[i].a).Some?
      invariant changes <==> exists i :: 0 <= i < n && IsSchemaAttr(ds[i].a)
    {
      var attr := GetAttribute(schema, ds[n].a);
      if attr.None? { return Err(false), changes; }
      if IsSchemaAttr(ds[n].a) { changes := true; }
      TableStep(t, ds, n, schema);
      t := WithDatom(t, ds[n], attr.value.id);
    }
    ChangesAt(ds);
    return Ok(t), changes;
  }

  lemma TableStart(ds: seq<Datom>, schema: Schema)
    ensures TableIs(map[], ds, 0, schema)
  {
  }

  lemma ChangesAt(ds: seq<Datom>)
    ensures ChangesSchema(ds) <==> exists i :: 0 <= i < |ds| && IsSchemaAttr(ds[i].a)
  {
    hide IsSchemaAttr;
    if ChangesSchema(ds) {
      var d :| d in ds && IsSchemaAttr(d.a);
      var i :| 0 <= i < |ds| && ds[i] == d;
    }
  }

  /** The conflict checks, entry by entry. */
  method FindBad(t: Table, schema: Schema) returns (bad: bool)
    requires forall k :: k in t ==> k.0 in schema.attrs
    ensures bad <==> SomeBad(t, schema)
  {
    hide Bad;
    bad := false;
    var todo := t.Keys;
    while todo != {}
      invariant todo <= t.Keys
      invariant bad <==> exists k :: k in t && k !in todo && Bad(schema.attrs[k.0], t[k])
      decreases |todo|
    {
      var k :| k in todo;
      if Bad(schema.attrs[k.0], t[k]) { bad := true; }
      todo := todo - {k};
    }
  }

  /** `validate_datoms`: an error, or whether the schema changes. */
  method ValidateDatoms(ds: seq<Datom>, schema: Schema) returns (r: Result<bool>)
    ensures r == if Validates(ds, schema) then Ok(ChangesSchema(ds)) else Err(false)
  {
    hide SomeBad, Expected, ChangesSchema;
    var t, changes := BuildTable(ds, schema);
    if t.Err? {
      ghost var i :| 0 <= i < |ds| && GetAttribute(schema, ds[i].a).None?;
      assert !WellTyped(ds[i], schema);
      return Err(false);
    }
    TableDecides(t.value, ds, schema);
    var bad := FindBad(t.value, schema);
    if bad { return Err(false); }
    return Ok(changes);
  }
}
