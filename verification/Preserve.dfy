/** Writing a finalized transaction keeps the invariants of the stored facts. */
module Preserve {
  import opened Octets
  import opened Values
  import opened Facts
  import opened Model
  import opened Partition
  import opened SchemaRules
  import opened Expand
  import opened Transact
  import opened Invariant

  /**
   * A transaction about to be written: its validated datoms `ds`, the finalized set `final`, the
   * entity `tx` and the counters `pm'` after it.
   */
  ghost predicate Ready(s: State, ds: seq<Datom>, final: set<Datom>, tx: I64, pm': Counters) {
    && Before(s.facts, tx) && Grows(s.pm, pm')
    && Validates(ds, s.schema) && (forall d :: d in ds ==> Sound(d, s.schema, pm'))
    && final == Finalize(ds, s.schema, s.facts, s.pm) && UniqueOk(final, s.schema, s.facts)
  }

  /** A datom with a valid value whose entity and reference are allocated by then. */
  ghost predicate Sound(d: Datom, schema: Schema, pm': Counters) {
    Valid(d.v) && Contains(pm', d.e) && (IsRef(d.a, schema) && d.v.Long? ==> Contains(pm', d.v.i))
  }

  /** `ds` hold an entry for the triple, by attribute id. */
  ghost predicate Has(ds: set<Datom>, schema: Schema, e: I64, a: I64, v: DataType, op: Op) {
    exists d :: d in ds && AttrId(d, schema) == a && d.e == e && d.v == v && d.op == op
  }

  lemma FactIff(ds: set<Datom>, schema: Schema, tx: I64, e: I64, a: I64, v: DataType, op: Op)
    ensures Fact(e, a, v, tx, op) in FactsOf(ds, schema, tx) <==> Has(ds, schema, e, a, v, op)
  {
  }

  /** Liveness after the write. */
  lemma LiveNow(s: State, final: set<Datom>, tx: I64, e: I64, a: I64, v: DataType)
    requires Before(s.facts, tx)
    ensures Live(s.facts + FactsOf(final, s.schema, tx), e, a, v) <==>
            Has(final, s.schema, e, a, v, Assert) || (Live(s.facts, e, a, v) && !Has(final, s.schema, e, a, v, Retract))
  {
    hide Live, Has;
    LiveAfter(s.facts, FactsOf(final, s.schema, tx), tx, e, a, v);
    FactIff(final, s.schema, tx, e, a, v, Assert);
    FactIff(final, s.schema, tx, e, a, v, Retract);
  }

  // --- The finalized set -----------------------------------------------------------------

  /** Assertions of the finalized set come from the input; a replaced value comes with its retraction. */
  lemma AssertKept(s: State, ds: seq<Datom>, d: Datom)
    requires d in Finalize(ds, s.schema, s.facts, s.pm) && d.op.Assert?
    ensures d in ds && !NoChange(d, s.schema, s.facts, s.pm)
    ensures Replaced(d, s.schema, s.facts, s.pm).Some? ==>
            Datom(d.e, d.a, Replaced(d, s.schema, s.facts, s.pm).value, Retract) in Finalize(ds, s.schema, s.facts,
              s.pm)
  {
    hide NoChange, Replaced;
  }

  /** A retraction of the finalized set comes from the input or retracts a live value. */
  lemma RetractFrom(s: State, ds: seq<Datom>, d: Datom)
    requires d in Finalize(ds, s.schema, s.facts, s.pm) && d !in ds
    ensures d.op.Retract? && GetAttribute(s.schema, d.a).Some? && Live(s.facts, d.e, AttrId(d, s.schema), d.v)
    ensures exists x :: x in ds && x.a == d.a
  {
    hide NoChange, Live;
    var x :| x in ds && Replaced(x, s.schema, s.facts, s.pm).Some? && !NoChange(x, s.schema, s.facts, s.pm) &&
             d == Datom(x.e, x.a, Replaced(x, s.schema, s.facts, s.pm).value, Retract);
  }

  lemma LiveTyped(s: State, e: I64, a: I64, v: DataType)
    requires Inv(s) && Live(s.facts, e, a, v)
    ensures exists f ::
              f in s.facts && f.e == e && f.a == a && f.v == v && TypedFact(f, s.schema) &&
              ReferencedFact(f, s.schema, s.pm)
    ensures Contains(s.pm, e)
  {
    var t: I64 :| LiveAt(s.facts, e, a, v, t);
    var f := Fact(e, a, v, t, Assert);
    assert f in s.facts && TypedFact(f, s.schema) && ReferencedFact(f, s.schema, s.pm);
  }

  lemma AttrNamed(schema: Schema, k: Keyword)
    requires Inverse(schema) && GetAttribute(schema, k).Some?
    ensures var a := GetAttribute(schema, k).value;
            a.id in schema.attrs && a.id in schema.entids && schema.attrs[a.id] == a.attr && schema.entids[a.id] == k
  {
  }

  /** Two datoms of one attribute name it alike. */
  lemma SameName(schema: Schema, d: Datom, f: Datom)
    requires Inverse(schema) && GetAttribute(schema, d.a).Some? && GetAttribute(schema, f.a).Some?
    ensures AttrId(d, schema) == AttrId(f, schema) <==> d.a == f.a
  {
    AttrNamed(schema, d.a);
    AttrNamed(schema, f.a);
  }

  lemma InvParts(s: State)
    requires Inv(s)
    ensures Inverse(s.schema) && HasSystem(s.schema) && Mirrors(s.facts, s.schema)
    ensures Typed(s.facts, s.schema) && Referenced(s.facts, s.schema, s.pm) && InTime(s.facts, s.pm)
    ensures SingleValued(s.facts, s.schema) && SingleOwner(s.facts, s.schema)
    ensures CountersOk(s.pm) && AllWritten(s.facts, s.pm) && LatestStored(s)
  {
  }

  lemma KnownAttribute(s: State, ds: seq<Datom>, d: Datom)
    requires Validates(ds, s.schema) && d in ds
    ensures WellTyped(d, s.schema)
  {
    var i: nat :| i < |ds| && ds[i] == d;
  }

  /** Every datom written is typed and refers to allocated ids. */
  lemma FinalSound(s: State, ds: seq<Datom>, final: set<Datom>, tx: I64, pm': Counters, d: Datom)
    requires Inv(s) && Ready(s, ds, final, tx, pm') && d in final
    ensures WellTyped(d, s.schema) && Sound(d, s.schema, pm')
  {
    if d in ds {
      hide WellTyped, Sound;
      KnownAttribute(s, ds, d);
    } else {
      hide Inv, Live, Finalize, Validates, Valid, Matches, Contains;
      RetractFrom(s, ds, d);
      LiveTyped(s, d.e, AttrId(d, s.schema), d.v);
      InvParts(s);
      AttrNamed(s.schema, d.a);
      GrowsContains(s.pm, pm', d.e);
      if IsRef(d.a, s.schema) && d.v.Long? { GrowsContains(s.pm, pm', d.v.i); }
    }
  }

  /** The attributes, names and definitions of `schema` are those of `more`. */
  ghost predicate SchemaGrows(schema: Schema, more: Schema) {
    && (forall a :: a in schema.attrs ==> a in more.attrs && more.attrs[a] == schema.attrs[a])
    && (forall e :: e in schema.entids ==> e in more.entids && more.entids[e] == schema.entids[e])
  }

  lemma TypedKept(s: State, ds: seq<Datom>, final: set<Datom>, tx: I64, pm': Counters, more: Schema)
    requires Inv(s) && Ready(s, ds, final, tx, pm') && SchemaGrows(s.schema, more)
    ensures var facts := s.facts + FactsOf(final, s.schema, tx);
            Typed(facts, more) && Referenced(facts, more, pm') && forall f :: f in facts ==> f.a in s.schema.attrs
  {
    hide Inv, Ready, Valid, Matches, Contains;
    InvParts(s);
    var added := FactsOf(final, s.schema, tx);
    forall f | f in added ensures TypedFact(f, more) && ReferencedFact(f, more, pm') && f.a in s.schema.attrs {
      var d :| d in final && f == Fact(d.e, AttrId(d, s.schema), d.v, tx, d.op);
      FinalSound(s, ds, final, tx, pm', d);
      AttrNamed(s.schema, d.a);
    }
    forall f | f in s.facts ensures TypedFact(f, more) && ReferencedFact(f, more, pm') && f.a in s.schema.attrs {
      assert TypedFact(f, s.schema) && ReferencedFact(f, s.schema, s.pm);
      ReadyGrows(s, ds, final, tx, pm');
      GrowsContains(s.pm, pm', f.e);
      if s.schema.attrs[f.a].valueType.VtRef? && f.v.Long? { GrowsContains(s.pm, pm', f.v.i); }
    }
  }

  lemma ReadyGrows(s: State, ds: seq<Datom>, final: set<Datom>, tx: I64, pm': Counters)
    requires Ready(s, ds, final, tx, pm')
    ensures Grows(s.pm, pm') && Before(s.facts, tx) && final == Finalize(ds, s.schema, s.facts, s.pm)
    ensures Validates(ds, s.schema) && UniqueOk(final, s.schema, s.facts)
  {
  }

  // --- One value per entity --------------------------------------------------------------

  /** All assertions about one single-valued attribute of one entity agree. */
  lemma OneAssertion(schema: Schema, ds: seq<Datom>, d: Datom, f: Datom)
    requires Validates(ds, schema) && d in ds && f in ds && d.op.Assert? && f.op.Assert?
    requires GetAttribute(schema, d.a).Some? && !GetAttribute(schema, d.a).value.attr.multival
    requires d.e == f.e && d.a == f.a
    ensures d.v == f.v
  {
    hide GetAttribute, WellTyped;
    var i: nat :| i < |ds| && ds[i] == d;
    var j: nat :| j < |ds| && ds[j] == f;
    if i < j { assert !Conflict(ds[i], ds[j], schema); }
    if j < i { assert !Conflict(ds[j], ds[i], schema); }
  }

  lemma UncontainedNotLive(s: State, e: I64, a: I64, v: DataType)
    requires Inv(s) && !Contains(s.pm, e)
    ensures !Live(s.facts, e, a, v)
  {
    hide Inv, Live;
    if Live(s.facts, e, a, v) { LiveTyped(s, e, a, v); }
  }

  lemma HasMeans(s: State, ds: seq<Datom>, final: set<Datom>, tx: I64, pm': Counters, e: I64, a: I64, v: DataType,
                 op: Op) returns (d: Datom)
    requires Inv(s) && Ready(s, ds, final, tx, pm') && Has(final, s.schema, e, a, v, op)
    ensures d in final && d == Datom(e, d.a, v, op) && AttrId(d, s.schema) == a && WellTyped(d, s.schema)
    ensures a in s.schema.attrs && GetAttribute(s.schema, d.a) == Some(AttrEntry(a, s.schema.attrs[a]))
    ensures a in s.schema.entids && s.schema.entids[a] == d.a
  {
    hide Inv, Ready, Matches;
    d :| d in final && AttrId(d, s.schema) == a && d.e == e && d.v == v && d.op == op;
    FinalSound(s, ds, final, tx, pm', d);
    InvParts(s);
    AttrNamed(s.schema, d.a);
  }

  /** A new value and an old live one cannot meet: the old one is retracted. */
  lemma ReplacedValue(s: State, ds: seq<Datom>, final: set<Datom>, tx: I64, pm': Counters, e: I64, a: I64, v: DataType,
                      w: DataType)
    requires Inv(s) && Ready(s, ds, final, tx, pm') && a in s.schema.attrs && !s.schema.attrs[a].multival
    requires Has(final, s.schema, e, a, v, Assert) && Live(s.facts, e, a, w)
    ensures Has(final, s.schema, e, a, w, Retract)
  {
    hide Inv, Ready, Live, Has, Finalize, Contains, GetAttribute, NoChange;
    var d := HasMeans(s, ds, final, tx, pm', e, a, v, Assert);
    ReadyGrows(s, ds, final, tx, pm');
    AssertKept(s, ds, d);
    LiveTyped(s, e, a, w);
    InvParts(s);
    assert OneValue(s.facts, a);
    assert Replaced(d, s.schema, s.facts, s.pm) == Some(w);
    HasThis(final, s.schema, Datom(e, d.a, w, Retract), a);
  }

  lemma HasThis(ds: set<Datom>, schema: Schema, d: Datom, a: I64)
    requires d in ds && AttrId(d, schema) == a
    ensures Has(ds, schema, d.e, a, d.v, d.op)
  {
  }

  lemma BothAsserted(s: State, ds: seq<Datom>, final: set<Datom>, tx: I64, pm': Counters, a: I64, e: I64, v: DataType,
                     w: DataType)
    requires Inv(s) && Ready(s, ds, final, tx, pm') && a in s.schema.attrs && !s.schema.attrs[a].multival
    requires Has(final, s.schema, e, a, v, Assert) && Has(final, s.schema, e, a, w, Assert)
    ensures v == w
  {
    hide *;
    ReadyGrows(s, ds, final, tx, pm');
    var d := HasMeans(s, ds, final, tx, pm', e, a, v, Assert);
    var f := HasMeans(s, ds, final, tx, pm', e, a, w, Assert);
    AssertKept(s, ds, d);
    AssertKept(s, ds, f);
    OneAssertion(s.schema, ds, d, f);
  }

  lemma OneValueKept(s: State, ds: seq<Datom>, final: set<Datom>, tx: I64, pm': Counters, a: I64, e: I64, v: DataType,
                     w: DataType)
    requires Inv(s) && Ready(s, ds, final, tx, pm') && a in s.schema.attrs && !s.schema.attrs[a].multival
    requires var facts := s.facts + FactsOf(final, s.schema, tx);
             Live(facts, e, a, v) && Live(facts, e, a, w)
    ensures v == w
  {
    hide Inv, Ready, Live, Has, Finalize, GetAttribute, Validates, FactsOf, UniqueOk;
    ReadyGrows(s, ds, final, tx, pm');
    LiveNow(s, final, tx, e, a, v);
    LiveNow(s, final, tx, e, a, w);
    if Has(final, s.schema, e, a, v, Assert) && Has(final, s.schema, e, a, w, Assert) {
      BothAsserted(s, ds, final, tx, pm', a, e, v, w);
    } else if Has(final, s.schema, e, a, v, Assert) {
      ReplacedValue(s, ds, final, tx, pm', e, a, v, w);
    } else if Has(final, s.schema, e, a, w, Assert) {
      ReplacedValue(s, ds, final, tx, pm', e, a, w, v);
    } else {
      InvParts(s);
      assert OneValue(s.facts, a);
    }
  }

  lemma NoFactsNotLive(facts: set<Fact>, a: I64, e: I64, v: DataType)
    requires forall f :: f in facts ==> f.a != a
    ensures !Live(facts, e, a, v)
  {
  }

  lemma SingleValuedKept(s: State, ds: seq<Datom>, final: set<Datom>, tx: I64, pm': Counters, more: Schema)
    requires Inv(s) && Ready(s, ds, final, tx, pm') && SchemaGrows(s.schema, more)
    ensures SingleValued(s.facts + FactsOf(final, s.schema, tx), more)
  {
    hide Inv, Ready, Live, FactsOf;
    var facts := s.facts + FactsOf(final, s.schema, tx);
    TypedKept(s, ds, final, tx, pm', more);
    forall a | a in more.attrs && !more.attrs[a].multival ensures OneValue(facts, a) {
      forall e: I64, v, w | Live(facts, e, a, v) && Live(facts, e, a, w) ensures v == w {
        if a in s.schema.attrs {
          OneValueKept(s, ds, final, tx, pm', a, e, v, w);
        } else {
          NoFactsNotLive(facts, a, e, v);
        }
      }
    }
  }

  // --- One owner per unique value --------------------------------------------------------

  /** A new owner and an old live one cannot meet: the old one has released the value. */
  lemma OwnerReplaced(s: State, ds: seq<Datom>, final: set<Datom>, tx: I64, pm': Counters, a: I64, v: DataType, c: I64,
                      e: I64)
    requires Inv(s) && Ready(s, ds, final, tx, pm') && a in UniqueAttrs(s.schema) && Reflexive(v)
    requires Has(final, s.schema, c, a, v, Assert) && Live(s.facts, e, a, v) && c != e
    ensures Has(final, s.schema, e, a, v, Retract)
  {
    hide Inv, Ready, Live, Has, Finalize, GetAttribute, Validates, Reflexive;
    var d := HasMeans(s, ds, final, tx, pm', c, a, v, Assert);
    ReadyGrows(s, ds, final, tx, pm');
    InvParts(s);
    assert OneOwner(s.facts, a);
    assert Hit(s.facts, a, v) == Some(e);
    assert !Taken(final, d, s.schema, s.facts);
    assert Released(final, s.schema, e, a, v);
    var f :| f in final && f.op.Retract? && f.e == e && IsUnique(f, s.schema) && AttrId(f, s.schema) == a &&
      SameKey(f.v, v);
    HasThis(final, s.schema, f, a);
  }

  lemma OneOwnerKept(s: State, ds: seq<Datom>, final: set<Datom>, tx: I64, pm': Counters, a: I64, v: DataType, c: I64,
                     e: I64)
    requires Inv(s) && Ready(s, ds, final, tx, pm') && a in UniqueAttrs(s.schema) && Reflexive(v)
    requires var facts := s.facts + FactsOf(final, s.schema, tx);
             Live(facts, c, a, v) && Live(facts, e, a, v)
    ensures c == e
  {
    hide Inv, Ready, Live, Has, Finalize, GetAttribute, Validates, Reflexive, FactsOf;
    ReadyGrows(s, ds, final, tx, pm');
    LiveNow(s, final, tx, c, a, v);
    LiveNow(s, final, tx, e, a, v);
    if Has(final, s.schema, c, a, v, Assert) && Has(final, s.schema, e, a, v, Assert) {
      var d := HasMeans(s, ds, final, tx, pm', c, a, v, Assert);
      var f := HasMeans(s, ds, final, tx, pm', e, a, v, Assert);
      assert !Clash(d, f, s.schema);
    } else if Has(final, s.schema, c, a, v, Assert) {
      if c != e { OwnerReplaced(s, ds, final, tx, pm', a, v, c, e); }
    } else if Has(final, s.schema, e, a, v, Assert) {
      if c != e { OwnerReplaced(s, ds, final, tx, pm', a, v, e, c); }
    } else {
      InvParts(s);
      assert OneOwner(s.facts, a);
    }
  }

  lemma SingleOwnerKept(s: State, ds: seq<Datom>, final: set<Datom>, tx: I64, pm': Counters, more: Schema)
    requires Inv(s) && Ready(s, ds, final, tx, pm') && SchemaGrows(s.schema, more)
    ensures SingleOwner(s.facts + FactsOf(final, s.schema, tx), more)
  {
    hide Inv, Ready, Live, FactsOf, Reflexive;
    var facts := s.facts + FactsOf(final, s.schema, tx);
    TypedKept(s, ds, final, tx, pm', more);
    forall a | a in UniqueAttrs(more) ensures OneOwner(facts, a) {
      forall c: I64, e: I64, v | Reflexive(v) && Live(facts, c, a, v) && Live(facts, e, a, v) ensures c == e {
        if a in s.schema.attrs {
          OneOwnerKept(s, ds, final, tx, pm', a, v, c, e);
        } else {
          NoFactsNotLive(facts, a, c, v);
        }
      }
    }
  }
}
