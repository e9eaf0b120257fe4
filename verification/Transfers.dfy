/** When uniqueness lets a transaction pass: exactly if no value ends with two owners. */
module Transfers {
  import opened Octets
  import opened Values
  import opened Facts
  import opened Model
  import opened Partition
  import opened SchemaRules
  import opened Transact
  import opened Invariant
  import opened Preserve
  import opened Effect

  /** No unique value has two owners after the transaction, told from its datoms and the store before. */
  ghost predicate Undisputed(s: State, ds: seq<Datom>) {
    forall a: I64, v, c: I64, e: I64 ::
      a in UniqueAttrs(s.schema) && Reflexive(v) && LiveThen(s, ds, c, a, v) && LiveThen(s, ds, e, a, v) ==> c == e
  }

  /** The datoms of a transaction that passed validation, about allocated entities. */
  ghost predicate Writable(s: State, ds: seq<Datom>, tx: I64, pm': Counters) {
    && Inv(s) && Before(s.facts, tx) && Grows(s.pm, pm') && Validates(ds, s.schema)
    && forall d :: d in ds ==> Sound(d, s.schema, pm')
  }

  ghost function Written(s: State, ds: seq<Datom>, tx: I64): set<Fact> {
    s.facts + FactsOf(Finalize(ds, s.schema, s.facts, s.pm), s.schema, tx)
  }

  lemma PassesOwned(s: State, ds: seq<Datom>, tx: I64, pm': Counters)
    requires Writable(s, ds, tx, pm') && UniqueOk(Finalize(ds, s.schema, s.facts, s.pm), s.schema, s.facts)
    ensures forall a :: a in UniqueAttrs(s.schema) ==> OneOwner(Written(s, ds, tx), a)
  {
    hide Inv, Before, Grows, Validates, Sound, UniqueOk, Finalize, FactsOf, Live, Reflexive;
    var final := Finalize(ds, s.schema, s.facts, s.pm);
    forall a, v, c: I64, e: I64 | a in UniqueAttrs(s.schema) && Reflexive(v) && Live(Written(s, ds, tx), c, a, v) &&
      Live(Written(s, ds, tx), e, a, v)
      ensures c == e
    {
      OneOwnerKept(s, ds, final, tx, pm', a, v, c, e);
    }
  }

  /** A datom of the finalized set is about an attribute of the schema. */
  lemma FinalAttr(s: State, ds: seq<Datom>, d: Datom)
    requires Inv(s) && Validates(ds, s.schema) && d in Finalize(ds, s.schema, s.facts, s.pm)
    ensures GetAttribute(s.schema, d.a).Some?
  {
    hide Inv, Live, Validates, Finalize;
    if d in ds { KnownAttribute(s, ds, d); } else { RetractFrom(s, ds, d); }
  }

  lemma UniqueAttr(schema: Schema, d: Datom)
    requires IsUnique(d, schema)
    ensures AttrId(d, schema) in UniqueAttrs(schema)
  {
  }

  lemma AssertedLives(s: State, ds: seq<Datom>, tx: I64, d: Datom)
    requires Inv(s) && Before(s.facts, tx) && d in Finalize(ds, s.schema, s.facts, s.pm) && d.op.Assert?
    ensures Live(Written(s, ds, tx), d.e, AttrId(d, s.schema), d.v)
  {
    hide Inv, Before, Finalize, FactsOf, Live, AttrId, Has;
    var final := Finalize(ds, s.schema, s.facts, s.pm);
    LiveNow(s, final, tx, d.e, AttrId(d, s.schema), d.v);
    HasThis(final, s.schema, d, AttrId(d, s.schema));
  }

  /** An owner that is not released stays one. */
  lemma OwnerStays(s: State, ds: seq<Datom>, tx: I64, o: I64, a: I64, v: DataType)
    requires Inv(s) && Before(s.facts, tx) && Validates(ds, s.schema) && Live(s.facts, o, a, v) && Reflexive(v)
    requires a in UniqueAttrs(s.schema) && !Released(Finalize(ds, s.schema, s.facts, s.pm), s.schema, o, a, v)
    ensures Live(Written(s, ds, tx), o, a, v)
  {
    hide Inv, Before, Finalize, FactsOf, Live, Validates, Reflexive, GetAttribute;
    var final := Finalize(ds, s.schema, s.facts, s.pm);
    LiveNow(s, final, tx, o, a, v);
    InvParts(s);
    if Has(final, s.schema, o, a, v, Retract) {
      var d :| d in final && AttrId(d, s.schema) == a && d.e == o && d.v == v && d.op == Retract;
      FinalAttr(s, ds, d);
      AttrNamed(s.schema, d.a);
    }
  }

  lemma OwnedPasses(s: State, ds: seq<Datom>, tx: I64)
    requires Inv(s) && Before(s.facts, tx) && Validates(ds, s.schema)
    requires forall a :: a in UniqueAttrs(s.schema) ==> OneOwner(Written(s, ds, tx), a)
    ensures UniqueOk(Finalize(ds, s.schema, s.facts, s.pm), s.schema, s.facts)
  {
    hide Inv, Before, Finalize, FactsOf, Live, Validates, Reflexive, GetAttribute, Released, AttrId, IsUnique, Written;
    var final := Finalize(ds, s.schema, s.facts, s.pm);
    forall d, f | d in final && f in final ensures !Clash(d, f, s.schema) {
      if d.op.Assert? && f.op.Assert? && IsUnique(d, s.schema) {
        UniqueAttr(s.schema, d);
        AssertedLives(s, ds, tx, d);
        AssertedLives(s, ds, tx, f);
      }
    }
    forall d | d in final ensures !Taken(final, d, s.schema, s.facts) {
      if d.op.Assert? && IsUnique(d, s.schema) { NotTaken(s, ds, tx, d); }
    }
  }

  lemma NotTaken(s: State, ds: seq<Datom>, tx: I64, d: Datom)
    requires Inv(s) && Before(s.facts, tx) && Validates(ds, s.schema)
    requires forall a :: a in UniqueAttrs(s.schema) ==> OneOwner(Written(s, ds, tx), a)
    requires d in Finalize(ds, s.schema, s.facts, s.pm) && d.op.Assert? && IsUnique(d, s.schema)
    ensures !Taken(Finalize(ds, s.schema, s.facts, s.pm), d, s.schema, s.facts)
  {
    hide Inv, Before, Finalize, Live, Validates, Reflexive, Released, AttrId, IsUnique, Written, Owner;
    var a, owner := AttrId(d, s.schema), Hit(s.facts, AttrId(d, s.schema), d.v);
    UniqueAttr(s.schema, d);
    if owner.Some? && !Released(Finalize(ds, s.schema, s.facts, s.pm), s.schema, owner.value, a, d.v) {
      OwnerStays(s, ds, tx, owner.value, a, d.v);
      AssertedLives(s, ds, tx, d);
      assert OneOwner(Written(s, ds, tx), a);
    }
  }

  /**
   * The unique check, exactly: validated datoms pass if and only if after the write every value that
   * equals itself has at most one owner under every unique attribute. Transfers and swaps pass.
   */
  lemma UniqueOkIff(s: State, ds: seq<Datom>, tx: I64, pm': Counters)
    requires Writable(s, ds, tx, pm')
    ensures UniqueOk(Finalize(ds, s.schema, s.facts, s.pm), s.schema, s.facts) <==>
            forall a :: a in UniqueAttrs(s.schema) ==> OneOwner(Written(s, ds, tx), a)
    ensures UniqueOk(Finalize(ds, s.schema, s.facts, s.pm), s.schema, s.facts) <==> Undisputed(s, ds)
  {
    hide Inv, Before, Grows, Validates, Sound, UniqueOk, Finalize, Live, Reflexive, Written, OneOwner;
    if UniqueOk(Finalize(ds, s.schema, s.facts, s.pm), s.schema, s.facts) { PassesOwned(s, ds, tx, pm'); }
    if forall a :: a in UniqueAttrs(s.schema) ==> OneOwner(Written(s, ds, tx), a) { OwnedPasses(s, ds, tx); }
    OwnedIff(s, ds, tx);
  }

  lemma OwnedIff(s: State, ds: seq<Datom>, tx: I64)
    requires Inv(s) && Before(s.facts, tx) && Validates(ds, s.schema)
    ensures (forall a :: a in UniqueAttrs(s.schema) ==> OneOwner(Written(s, ds, tx), a)) <==> Undisputed(s, ds)
  {
    hide Inv, Before, Validates, Finalize, FactsOf, Live, Reflexive, LiveThen;
    forall a: I64, v, e: I64 ensures Live(Written(s, ds, tx), e, a, v) <==> LiveThen(s, ds, e, a, v) {
      WriteEffect(s, ds, tx, e, a, v);
    }
    hide Written, UniqueAttrs;
    if Undisputed(s, ds) {
      forall a | a in UniqueAttrs(s.schema) ensures OneOwner(Written(s, ds, tx), a) {}
    }
    if forall a :: a in UniqueAttrs(s.schema) ==> OneOwner(Written(s, ds, tx), a) {
      forall a: I64, v, c: I64, e: I64 |
        a in UniqueAttrs(s.schema) && Reflexive(v) && LiveThen(s, ds, c, a, v) && LiveThen(s, ds, e, a, v)
        ensures c == e
      {
        assert OneOwner(Written(s, ds, tx), a);
      }
    }
  }
}
