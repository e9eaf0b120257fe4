/** Transactions of plain additions and removals: when they commit and what they leave, and unique values that move. */
module Performing {
  import opened Octets
  import opened Values
  import opened Facts
  import opened Model
  import opened Partition
  import opened SchemaRules
  import opened Expand
  import opened Transact
  import opened Invariant
  import opened Sources
  import opened Preserve
  import opened Runs
  import opened Asserting
  import opened Effect
  import opened Transfers

  // --- The transaction entity owns no unique value ---------------------------------------

  lemma TxNotUnique(s: State, key: TxKey, d: Datom)
    requires Inv(s) && InTurn(s, key) && d in TxDatoms(TxEid(key.txId), key, None)
    ensures AttrId(d, s.schema) !in UniqueAttrs(s.schema)
  {
    hide Inv, InTurn, TxDatoms, IsSchemaAttr;
    TxIs(s, key, d);
  }

  lemma UniqueTold(s: State, key: TxKey, ds: seq<Datom>, e: I64, a: I64, v: DataType, op: Op)
    requires Inv(s) && InTurn(s, key) && a in UniqueAttrs(s.schema)
    ensures Tells(WithTx(ds, key), s.schema, e, a, v, op) <==> Tells(ds, s.schema, e, a, v, op)
  {
    hide Inv, CounterOf, TxDatoms, AttrId, UniqueAttrs;
    forall d | d in TxDatoms(TxEid(key.txId), key, None) ensures AttrId(d, s.schema) != a { TxNotUnique(s, key, d); }
    if Tells(ds, s.schema, e, a, v, op) {
      var d :| d in ds && d.e == e && AttrId(d, s.schema) == a && d.v == v && d.op == op;
      assert d in WithTx(ds, key);
    }
  }

  lemma UniqueEffect(s: State, key: TxKey, ds: seq<Datom>, e: I64, a: I64, v: DataType)
    requires Inv(s) && InTurn(s, key) && a in UniqueAttrs(s.schema)
    ensures LiveThen(s, WithTx(ds, key), e, a, v) <==> LiveThen(s, ds, e, a, v)
  {
    hide Inv, CounterOf, TxDatoms, Tells, UniqueAttrs, Live, Absorbed, Single;
    forall w, op ensures Tells(WithTx(ds, key), s.schema, e, a, w, op) <==> Tells(ds, s.schema, e, a, w, op) {
      UniqueTold(s, key, ds, e, a, w, op);
    }
  }

  lemma UndisputedWithTx(s: State, key: TxKey, ds: seq<Datom>)
    requires Inv(s) && InTurn(s, key)
    ensures Undisputed(s, WithTx(ds, key)) <==> Undisputed(s, ds)
  {
    hide Inv, CounterOf, TxDatoms, LiveThen, UniqueAttrs, Reflexive;
    forall e: I64, a: I64, v | a in UniqueAttrs(s.schema)
      ensures LiveThen(s, WithTx(ds, key), e, a, v) <==> LiveThen(s, ds, e, a, v)
    {
      UniqueEffect(s, key, ds, e, a, v);
    }
  }

  // --- Performing ------------------------------------------------------------------------

  lemma FitsWritable(s: State, key: TxKey, ds: seq<Datom>)
    requires Inv(s) && InTurn(s, key) && Fits(s, ds)
    ensures SetTx(s.pm, key.txId).Ok? && Before(s.facts, TxEid(key.txId))
    ensures Writable(s, WithTx(ds, key), TxEid(key.txId), SetTx(s.pm, key.txId).value)
  {
    hide Inv, CounterOf, Validates, TxDatoms, Contains, Valid, WellTyped, IsSchemaAttr, IsUnique, SetTx, CountersOk,
         Grows;
    TxFacts(s, key);
    FitsWithTx(s, key, ds);
    InvParts(s);
    var pm, tx := SetTx(s.pm, key.txId).value, TxEid(key.txId);
    TxCounters(s.pm, key.txId);
    forall d | d in WithTx(ds, key) ensures Sound(d, s.schema, pm) {
      if d in ds {
        assert FitsOne(s, d);
        GrowsContains(s.pm, pm, d.e);
        if IsRef(d.a, s.schema) && d.v.Long? { GrowsContains(s.pm, pm, d.v.i); }
      } else {
        TxDatomsSound(s, key, tx, pm, None, d);
      }
    }
  }

  /**
   * Additions and removals about allocated entities that pass validation and do not touch the schema
   * commit if no unique value ends with two owners, and have exactly the intended effect.
   */
  lemma Performed(s: State, key: TxKey, ds: seq<Datom>, error: Octets) returns (s': State)
    requires Inv(s) && InTurn(s, key) && Fits(s, ds) && Undisputed(s, ds) && !ChangesSchema(ds)
    ensures ValidOps(OpsOf(ds)) && Step(s, s', key, OpsOf(ds), [], error, Committed) && Inv(s')
    ensures s'.schema == s.schema && s'.latest == key
    ensures forall e: I64, a: I64, v :: e != TxEid(key.txId) ==> (Live(s'.facts, e, a, v) <==> LiveThen(s, ds, e, a, v))
  {
    hide Inv, CounterOf, Fits, Undisputed, Finalize, UniqueOk, ChangesSchema, Preparable, Prepared, Applied, Prepare,
         SetTx, RetractsLive, TargetsOf, ValidOps, Live, LiveThen, FactsOf, TxDatoms, OpsOf, Validates, Before, Grows,
         Sound, Written, UniqueAttrs;
    FitsWritable(s, key, ds);
    UndisputedWithTx(s, key, ds);
    UniqueOkIff(s, WithTx(ds, key), TxEid(key.txId), SetTx(s.pm, key.txId).value);
    PlainPrepared(s, key, ds);
    var b := Prepare(s, key, OpsOf(ds), []).value;
    s' := Commit(s, key, b);
    assert Step(s, s', key, OpsOf(ds), [], error, Committed);
    hide Step;
    StepKeeps(s, s', key, OpsOf(ds), [], error, Committed);
    forall e: I64, a: I64, v | e != TxEid(key.txId)
      ensures Live(s'.facts, e, a, v) <==> LiveThen(s, ds, e, a, v)
    {
      WriteEffect(s, WithTx(ds, key), TxEid(key.txId), e, a, v);
      OtherEntities(s, ds, key, TxEid(key.txId), e, a, v);
    }
  }

  // --- Two datoms ------------------------------------------------------------------------

  /** An attribute of the schema that is not one of the schema's own. */
  ghost predicate Attr(s: State, k: Keyword, a: I64) {
    GetAttribute(s.schema, k).Some? && GetAttribute(s.schema, k).value.id == a && !IsSchemaAttr(k)
  }

  lemma PairTells(s: State, k: Keyword, a: I64, d: Datom, f: Datom, e: I64, b: I64, v: DataType, op: Op)
    requires Attr(s, k, a) && d.a == k && f.a == k
    ensures Tells([d, f], s.schema, e, b, v, op) <==>
            b == a && ((e == d.e && v == d.v && op == d.op) || (e == f.e && v == f.v && op == f.op))
  {
    hide IsSchemaAttr, GetAttribute;
    assert d in [d, f] && f in [d, f];
  }

  /** A live value is one the attribute admits, of an allocated entity. */
  lemma LiveFits(s: State, k: Keyword, a: I64, c: I64, v: DataType)
    requires Inv(s) && Attr(s, k, a) && Live(s.facts, c, a, v)
    ensures Contains(s.pm, c) && Valid(v) && Matches(GetAttribute(s.schema, k).value.attr.valueType, v)
    ensures IsRef(k, s.schema) && v.Long? ==> Contains(s.pm, v.i)
  {
    hide Inv, Live, Contains, Valid, Matches;
    LiveTyped(s, c, a, v);
    var g :| g in s.facts && g.e == c && g.a == a && g.v == v && TypedFact(g, s.schema) &&
             ReferencedFact(g, s.schema, s.pm);
  }

  lemma PairFits(s: State, k: Keyword, a: I64, d: Datom, f: Datom)
    requires Attr(s, k, a) && d.a == k && f.a == k && d.e != f.e && FitsOne(s, d) && FitsOne(s, f)
    ensures Fits(s, [d, f]) && !ChangesSchema([d, f])
  {
    hide Contains, Valid, WellTyped, IsSchemaAttr;
    var ds := [d, f];
    forall i, j | 0 <= i < j < |ds| ensures !Conflict(ds[i], ds[j], s.schema) {
      OtherEntity(d, f, s.schema);
    }
  }

  // --- Swaps -----------------------------------------------------------------------------

  function SwapDatoms(k: Keyword, c: I64, x: DataType, e: I64, y: DataType): seq<Datom> {
    [Datom(c, k, y, Assert), Datom(e, k, x, Assert)]
  }

  /** Entities `c` and `e` own the different values `x` and `y` of a unique single-valued attribute. */
  ghost predicate Swappable(s: State, k: Keyword, a: I64, c: I64, x: DataType, e: I64, y: DataType) {
    && Attr(s, k, a) && Single(s.schema, a) && a in UniqueAttrs(s.schema)
    && Live(s.facts, c, a, x) && Live(s.facts, e, a, y) && c != e
    && Reflexive(x) && Reflexive(y) && !ValueEq(x, y) && !ValueEq(y, x)
  }

  lemma SwapFits(s: State, k: Keyword, a: I64, c: I64, x: DataType, e: I64, y: DataType)
    requires Inv(s) && Swappable(s, k, a, c, x, e, y)
    ensures Fits(s, SwapDatoms(k, c, x, e, y)) && !ChangesSchema(SwapDatoms(k, c, x, e, y))
  {
    hide Inv, Contains, Valid, Matches, Live, Fits, ChangesSchema, Single, ValueEq, Reflexive, UniqueAttrs,
         IsSchemaAttr;
    LiveFits(s, k, a, c, x);
    LiveFits(s, k, a, e, y);
    PairFits(s, k, a, Datom(c, k, y, Assert), Datom(e, k, x, Assert));
  }

  /** What the datoms do not speak of stays as it is. */
  lemma UntoldStays(s: State, ds: seq<Datom>, e: I64, a: I64, v: DataType)
    requires forall w, op :: !Tells(ds, s.schema, e, a, w, op)
    ensures LiveThen(s, ds, e, a, v) <==> Live(s.facts, e, a, v)
  {
    hide Tells, Live, Single, ValueEq;
  }

  lemma OnlyOne(s: State, e: I64, a: I64, x: DataType, v: DataType)
    requires Inv(s) && Single(s.schema, a) && Live(s.facts, e, a, x) && Live(s.facts, e, a, v)
    ensures v == x
  {
    hide Inv, Live;
    InvParts(s);
    assert OneValue(s.facts, a);
  }

  lemma NotEqualKept(s: State, e: I64, a: I64, x: DataType, y: DataType)
    requires Inv(s) && Single(s.schema, a) && Live(s.facts, e, a, x) && !ValueEq(x, y)
    ensures !Absorbed(s, e, a, y)
  {
    hide Inv, Live, ValueEq, Single;
    if u :| Live(s.facts, e, a, u) && u != y && ValueEq(u, y) { OnlyOne(s, e, a, x, u); }
  }

  /** A single-valued attribute of which only an unequal value is asserted. */
  lemma Reset(s: State, ds: seq<Datom>, e: I64, a: I64, x: DataType, y: DataType, v: DataType)
    requires Inv(s) && Single(s.schema, a) && Live(s.facts, e, a, x) && !ValueEq(x, y)
    requires forall w, op :: Tells(ds, s.schema, e, a, w, op) <==> op.Assert? && w == y
    ensures LiveThen(s, ds, e, a, v) <==> v == y
  {
    hide Inv, Tells, Live, ValueEq, Absorbed, Single;
    NotEqualKept(s, e, a, x, y);
    assert Tells(ds, s.schema, e, a, y, Assert);
    assert Displaced(s, ds, e, a, x);
    if Live(s.facts, e, a, v) { OnlyOne(s, e, a, x, v); }
  }

  /** What is live after a swap. */
  lemma SwapEffect(s: State, k: Keyword, a: I64, c: I64, x: DataType, e: I64, y: DataType, o: I64, b: I64, v: DataType)
    requires Inv(s) && Swappable(s, k, a, c, x, e, y)
    ensures LiveThen(s, SwapDatoms(k, c, x, e, y), o, b, v) <==>
            if b == a && o == c then v == y else if b == a && o == e then v == x else Live(s.facts, o, b, v)
  {
    hide Inv, Live, ValueEq, Reflexive, UniqueAttrs, GetAttribute, Tells, LiveThen, Single;
    var ds := SwapDatoms(k, c, x, e, y);
    forall w, op ensures Tells(ds, s.schema, o, b, w, op) <==>
                         op.Assert? && b == a && ((o == c && w == y) || (o == e && w == x))
    {
      PairTells(s, k, a, Datom(c, k, y, Assert), Datom(e, k, x, Assert), o, b, w, op);
    }
    if b == a && o == c {
      Reset(s, ds, c, a, x, y, v);
    } else if b == a && o == e {
      Reset(s, ds, e, a, y, x, v);
    } else {
      UntoldStays(s, ds, o, b, v);
    }
  }

  lemma SwapUndisputed(s: State, k: Keyword, a: I64, c: I64, x: DataType, e: I64, y: DataType)
    requires Inv(s) && Swappable(s, k, a, c, x, e, y)
    ensures Undisputed(s, SwapDatoms(k, c, x, e, y))
  {
    hide Inv, Live, ValueEq, Reflexive, UniqueAttrs, GetAttribute, LiveThen, SwapDatoms, Attr, Single;
    InvParts(s);
    var ds := SwapDatoms(k, c, x, e, y);
    forall b: I64, v, p: I64, q: I64 |
      b in UniqueAttrs(s.schema) && Reflexive(v) && LiveThen(s, ds, p, b, v) && LiveThen(s, ds, q, b, v)
      ensures p == q
    {
      assert OneOwner(s.facts, b);
      SwapEffect(s, k, a, c, x, e, y, p, b, v);
      SwapEffect(s, k, a, c, x, e, y, q, b, v);
    }
  }

  /** Two entities swap their values of a unique attribute in one transaction. */
  lemma Swaps(s: State, key: TxKey, k: Keyword, a: I64, c: I64, x: DataType, e: I64, y: DataType, error: Octets)
    returns (s': State)
    requires Inv(s) && InTurn(s, key) && Swappable(s, k, a, c, x, e, y)
    ensures var ops := [Add(RefId(c), k, y), Add(RefId(e), k, x)];
            ValidOps(ops) && Step(s, s', key, ops, [], error, Committed) && Inv(s') && s'.latest == key
    ensures Live(s'.facts, c, a, y) && Live(s'.facts, e, a, x) && !Live(s'.facts, c, a, x) && !Live(s'.facts, e, a, y)
  {
    hide Inv, InTurn, Fits, ChangesSchema, Live, LiveThen, Undisputed, Step, ValidOps, Contains, Valid, Matches,
         ValueEq, Reflexive, UniqueAttrs, GetAttribute, Single, TxEid;
    var ds := SwapDatoms(k, c, x, e, y);
    SwapFits(s, k, a, c, x, e, y);
    SwapUndisputed(s, k, a, c, x, e, y);
    s' := Performed(s, key, ds, error);
    assert OpsOf(ds) == [Add(RefId(c), k, y), Add(RefId(e), k, x)];
    LiveFits(s, k, a, c, x);
    LiveFits(s, k, a, e, y);
    TxFacts(s, key);
    DifferentValues(x, y);
    SwapEffect(s, k, a, c, x, e, y, c, a, y);
    SwapEffect(s, k, a, c, x, e, y, c, a, x);
    SwapEffect(s, k, a, c, x, e, y, e, a, x);
    SwapEffect(s, k, a, c, x, e, y, e, a, y);
  }

  lemma DifferentValues(x: DataType, y: DataType)
    requires Reflexive(x) && !ValueEq(x, y)
    ensures x != y
  {
    hide ValueEq;
    EqualsItself(x);
  }

  // --- Transfers -------------------------------------------------------------------------

  function TransferDatoms(k: Keyword, c: I64, e: I64, v: DataType): seq<Datom> {
    [Datom(c, k, v, Retract), Datom(e, k, v, Assert)]
  }

  lemma TransferFits(s: State, k: Keyword, a: I64, c: I64, e: I64, v: DataType)
    requires Inv(s) && Attr(s, k, a) && Live(s.facts, c, a, v) && c != e && Contains(s.pm, e)
    ensures Fits(s, TransferDatoms(k, c, e, v)) && !ChangesSchema(TransferDatoms(k, c, e, v))
  {
    hide Inv, Contains, Valid, Matches, Live, Fits, ChangesSchema, IsSchemaAttr;
    LiveFits(s, k, a, c, v);
    PairFits(s, k, a, Datom(c, k, v, Retract), Datom(e, k, v, Assert));
  }

  lemma TransferUndisputed(s: State, k: Keyword, a: I64, c: I64, e: I64, v: DataType)
    requires Inv(s) && Attr(s, k, a) && Live(s.facts, c, a, v) && c != e
    ensures Undisputed(s, TransferDatoms(k, c, e, v))
  {
    hide Inv, Live, ValueEq, Reflexive, UniqueAttrs, GetAttribute, Tells, Absorbed, Displaced;
    InvParts(s);
    var ds := TransferDatoms(k, c, e, v);
    forall b: I64, w, p: I64, q: I64 |
      b in UniqueAttrs(s.schema) && Reflexive(w) && LiveThen(s, ds, p, b, w) && LiveThen(s, ds, q, b, w)
      ensures p == q
    {
      assert OneOwner(s.facts, b);
      forall o: I64, op ensures Tells(ds, s.schema, o, b, w, op) <==>
                           b == a && w == v && ((o == c && op.Retract?) || (o == e && op.Assert?))
      {
        PairTells(s, k, a, Datom(c, k, v, Retract), Datom(e, k, v, Assert), o, b, w, op);
      }
    }
  }

  /** A unique value moves to another entity in one transaction, unless an equal value there absorbs it. */
  lemma Transfer(s: State, key: TxKey, k: Keyword, a: I64, c: I64, e: I64, v: DataType, error: Octets)
    returns (s': State)
    requires Inv(s) && InTurn(s, key) && Attr(s, k, a) && Live(s.facts, c, a, v) && c != e && Contains(s.pm, e)
    ensures var ops := [Remove(RefId(c), k, v), Add(RefId(e), k, v)];
            ValidOps(ops) && Step(s, s', key, ops, [], error, Committed) && Inv(s') && s'.latest == key
    ensures !Live(s'.facts, c, a, v) && (Live(s'.facts, e, a, v) <==> !Absorbed(s, e, a, v))
  {
    hide Inv, InTurn, Fits, ChangesSchema, Live, Tells, Absorbed, Displaced, Undisputed, Step, ValidOps, Contains,
         Valid, Matches, Attr, TxEid;
    var ds := TransferDatoms(k, c, e, v);
    TransferFits(s, k, a, c, e, v);
    TransferUndisputed(s, k, a, c, e, v);
    s' := Performed(s, key, ds, error);
    assert OpsOf(ds) == [Remove(RefId(c), k, v), Add(RefId(e), k, v)];
    LiveFits(s, k, a, c, v);
    TxFacts(s, key);
    forall o: I64, op ensures Tells(ds, s.schema, o, a, v, op) <==> (o == c && op.Retract?) || (o == e && op.Assert?)
    {
      PairTells(s, k, a, Datom(c, k, v, Retract), Datom(e, k, v, Assert), o, a, v, op);
    }
    if Live(s.facts, e, a, v) && Absorbed(s, e, a, v) { NotAbsorbed(s, e, a, v); }
  }

  lemma NotAbsorbed(s: State, e: I64, a: I64, v: DataType)
    requires Inv(s) && Live(s.facts, e, a, v)
    ensures !Absorbed(s, e, a, v)
  {
    hide Inv, Live, ValueEq;
    InvParts(s);
    if Single(s.schema, a) { assert OneValue(s.facts, a); }
  }

  // --- Many values -----------------------------------------------------------------------

  lemma ManyFit(s: State, k: Keyword, a: I64, d: Datom, f: Datom)
    requires Attr(s, k, a) && d.a == k && f.a == k && GetAttribute(s.schema, k).value.attr.multival
    requires FitsOne(s, d) && FitsOne(s, f)
    ensures Fits(s, [d, f]) && !ChangesSchema([d, f])
  {
    hide Contains, Valid, WellTyped, IsSchemaAttr;
  }

  lemma ManyUndisputed(s: State, k: Keyword, a: I64, d: Datom, f: Datom)
    requires Inv(s) && Attr(s, k, a) && d.a == k && f.a == k && a !in UniqueAttrs(s.schema)
    ensures Undisputed(s, [d, f])
  {
    hide Inv, Live, UniqueAttrs, GetAttribute, Tells, Reflexive, Absorbed, Displaced;
    InvParts(s);
    forall b: I64, v, p: I64, q: I64 |
      b in UniqueAttrs(s.schema) && Reflexive(v) && LiveThen(s, [d, f], p, b, v) && LiveThen(s, [d, f], q, b, v)
      ensures p == q
    {
      PairTells(s, k, a, d, f, p, b, v, Assert);
      PairTells(s, k, a, d, f, q, b, v, Assert);
      assert OneOwner(s.facts, b);
    }
  }

  /** One entity gets two values of an attribute of many values in one transaction, and keeps those it had. */
  lemma TwoValues(s: State, key: TxKey, k: Keyword, a: I64, e: I64, v: DataType, w: DataType, error: Octets)
    returns (s': State)
    requires Inv(s) && InTurn(s, key) && Attr(s, k, a) && GetAttribute(s.schema, k).value.attr.multival
    requires FitsOne(s, Datom(e, k, v, Assert)) && FitsOne(s, Datom(e, k, w, Assert)) && a !in UniqueAttrs(s.schema)
    ensures var ops := [Add(RefId(e), k, v), Add(RefId(e), k, w)];
            ValidOps(ops) && Step(s, s', key, ops, [], error, Committed) && Inv(s') && s'.latest == key
    ensures Live(s'.facts, e, a, v) && Live(s'.facts, e, a, w)
    ensures forall u :: Live(s.facts, e, a, u) ==> Live(s'.facts, e, a, u)
  {
    hide Inv, InTurn, Fits, ChangesSchema, Live, Tells, Undisputed, Step, ValidOps, Contains, Valid, WellTyped,
         UniqueAttrs, TxEid, IsSchemaAttr;
    var d, f := Datom(e, k, v, Assert), Datom(e, k, w, Assert);
    ManyFit(s, k, a, d, f);
    ManyUndisputed(s, k, a, d, f);
    s' := Performed(s, key, [d, f], error);
    assert OpsOf([d, f]) == [Add(RefId(e), k, v), Add(RefId(e), k, w)];
    TxFacts(s, key);
    forall u, op ensures Tells([d, f], s.schema, e, a, u, op) <==> op.Assert? && (u == v || u == w) {
      PairTells(s, k, a, d, f, e, a, u, op);
    }
  }

  // --- Equal numbers ---------------------------------------------------------------------

  /** The assertion of a value while another value that equals it is live changes nothing. */
  ghost predicate Absorbable(s: State, d: Datom, a: I64, u: DataType) {
    && Attr(s, d.a, a) && Single(s.schema, a) && d.op.Assert? && FitsOne(s, d)
    && Live(s.facts, d.e, a, u) && u != d.v && ValueEq(u, d.v)
  }

  lemma AloneFits(s: State, d: Datom, a: I64)
    requires Attr(s, d.a, a) && FitsOne(s, d)
    ensures Fits(s, [d]) && !ChangesSchema([d])
  {
    hide Contains, Valid, WellTyped, IsSchemaAttr;
  }

  lemma AloneTells(schema: Schema, d: Datom, e: I64, a: I64, v: DataType, op: Op)
    ensures Tells([d], schema, e, a, v, op) <==> e == d.e && a == AttrId(d, schema) && v == d.v && op == d.op
  {
    hide AttrId;
    assert d in [d];
  }

  lemma AbsorbedEffect(s: State, d: Datom, a: I64, u: DataType, e: I64, b: I64, v: DataType)
    requires Inv(s) && Absorbable(s, d, a, u)
    ensures LiveThen(s, [d], e, b, v) <==> Live(s.facts, e, b, v)
  {
    hide Inv, Live, Tells, ValueEq, FitsOne, IsSchemaAttr, GetAttribute;
    forall w, op ensures Tells([d], s.schema, e, b, w, op) <==> e == d.e && b == a && w == d.v && op.Assert? {
      AloneTells(s.schema, d, e, b, w, op);
    }
    if e == d.e && b == a {
      InvParts(s);
      assert OneValue(s.facts, a);
    } else {
      UntoldStays(s, [d], e, b, v);
    }
  }

  lemma AbsorbedUndisputed(s: State, d: Datom, a: I64, u: DataType)
    requires Inv(s) && Absorbable(s, d, a, u)
    ensures Undisputed(s, [d])
  {
    hide Inv, Live, LiveThen, Absorbable, UniqueAttrs, Reflexive;
    InvParts(s);
    forall b: I64, v, p: I64, q: I64 |
      b in UniqueAttrs(s.schema) && Reflexive(v) && LiveThen(s, [d], p, b, v) && LiveThen(s, [d], q, b, v)
      ensures p == q
    {
      assert OneOwner(s.facts, b);
      AbsorbedEffect(s, d, a, u, p, b, v);
      AbsorbedEffect(s, d, a, u, q, b, v);
    }
  }

  /** Such an assertion commits, and the asserted value is not live. */
  lemma Absorbs(s: State, key: TxKey, d: Datom, a: I64, u: DataType, error: Octets) returns (s': State)
    requires Inv(s) && InTurn(s, key) && Absorbable(s, d, a, u)
    ensures var ops := [Add(RefId(d.e), d.a, d.v)];
            ValidOps(ops) && Step(s, s', key, ops, [], error, Committed) && Inv(s') && s'.latest == key
    ensures Live(s'.facts, d.e, a, u) && !Live(s'.facts, d.e, a, d.v)
  {
    hide Inv, InTurn, Fits, ChangesSchema, Live, LiveThen, Undisputed, Step, ValidOps, Contains, Valid, ValueEq,
         WellTyped, Attr, TxEid;
    AloneFits(s, d, a);
    AbsorbedUndisputed(s, d, a, u);
    s' := Performed(s, key, [d], error);
    assert OpsOf([d]) == [Add(RefId(d.e), d.a, d.v)];
    TxFacts(s, key);
    AbsorbedEffect(s, d, a, u, d.e, a, u);
    AbsorbedEffect(s, d, a, u, d.e, a, d.v);
    if Live(s.facts, d.e, a, d.v) { NotAbsorbed(s, d.e, a, d.v); }
  }
}
