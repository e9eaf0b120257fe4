/** What a commit makes live and what it ends, told from the resolved datoms and the store before. */
module Effect {
  import opened Octets
  import opened Values
  import opened Facts
  import opened Model
  import opened Partition
  import opened SchemaRules
  import opened Expand
  import opened Tempids
  import opened Transact
  import opened Invariant
  import opened Sources
  import opened Preserve
  import opened Runs

  // --- The intended effect ---------------------------------------------------------------

  /** Some datom says this of the triple. */
  ghost predicate Tells(ds: seq<Datom>, schema: Schema, e: I64, a: I64, v: DataType, op: Op) {
    exists d :: d in ds && d.e == e && AttrId(d, schema) == a && d.v == v && d.op == op
  }

  predicate Single(schema: Schema, a: I64) { a in schema.attrs && !schema.attrs[a].multival }

  /** A live value of a single-valued attribute equals `v` as a number but not bit by bit: it is kept instead. */
  ghost predicate Absorbed(s: State, e: I64, a: I64, v: DataType) {
    Single(s.schema, a) && exists u :: Live(s.facts, e, a, u) && u != v && ValueEq(u, v)
  }

  /** A value that is not equal to `v` is asserted of the single-valued attribute. */
  ghost predicate Displaced(s: State, ds: seq<Datom>, e: I64, a: I64, v: DataType) {
    Single(s.schema, a) && exists w :: Tells(ds, s.schema, e, a, w, Assert) && !ValueEq(v, w)
  }

  /** Asserted and not absorbed, or live before and neither retracted nor displaced. */
  ghost predicate LiveThen(s: State, ds: seq<Datom>, e: I64, a: I64, v: DataType) {
    || (Tells(ds, s.schema, e, a, v, Assert) && !Absorbed(s, e, a, v))
    || (Live(s.facts, e, a, v) && !Tells(ds, s.schema, e, a, v, Retract) && !Displaced(s, ds, e, a, v))
  }

  // --- The finalized datoms --------------------------------------------------------------

  lemma {:induction false} EqualsItself(v: DataType)
    requires Reflexive(v)
    ensures ValueEq(v, v)
    decreases v, 1
  {
    match v
    case Vector(xs) => AllEqual(xs);
    case Map(es) => EntriesEqual(es);
    case _ =>
  }

  lemma {:induction false} AllEqual(xs: seq<DataType>)
    requires AllReflexive(xs)
    ensures AllEq(xs, xs)
    decreases xs, 0
  {
    if xs != [] {
      EqualsItself(xs[0]);
      AllEqual(xs[1..]);
    }
  }

  lemma {:induction false} EntriesEqual(es: seq<Entry>)
    requires EntriesReflexive(es)
    ensures EntriesEq(es, es)
    decreases es, 0
  {
    if es != [] {
      EqualsItself(es[0].val);
      EntriesEqual(es[1..]);
    }
  }

  /** The value an assertion replaces is the live one. */
  lemma ReplacedIs(s: State, d: Datom, a: I64, u: DataType)
    requires Inv(s) && GetAttribute(s.schema, d.a).Some? && AttrId(d, s.schema) == a
    ensures Replaced(d, s.schema, s.facts, s.pm) == Some(u) <==>
            d.op.Assert? && Single(s.schema, a) && Live(s.facts, d.e, a, u)
  {
    hide Inv, Live, Contains;
    InvParts(s);
    if Single(s.schema, a) { assert OneValue(s.facts, a); }
    if Live(s.facts, d.e, a, u) { LiveTyped(s, d.e, a, u); }
  }

  lemma AssertedIff(s: State, ds: seq<Datom>, e: I64, a: I64, v: DataType)
    requires Inv(s) && Validates(ds, s.schema)
    ensures Has(Finalize(ds, s.schema, s.facts, s.pm), s.schema, e, a, v, Assert) <==>
            Tells(ds, s.schema, e, a, v, Assert) &&
            !(Single(s.schema, a) && exists u :: Live(s.facts, e, a, u) && ValueEq(u, v))
  {
    hide Inv, Validates, Live, Replaced, AttrId, Single, WellTyped;
    var final := Finalize(ds, s.schema, s.facts, s.pm);
    forall d | d in ds && d.e == e && AttrId(d, s.schema) == a && d.v == v && d.op == Assert
      ensures d in final <==> !(Single(s.schema, a) && exists u :: Live(s.facts, e, a, u) && ValueEq(u, v))
    {
      KeptIff(s, ds, d, a);
    }
    if Has(final, s.schema, e, a, v, Assert) {
      var d :| d in final && AttrId(d, s.schema) == a && d.e == e && d.v == v && d.op == Assert;
      AssertKept(s, ds, d);
    }
  }

  lemma KeptIff(s: State, ds: seq<Datom>, d: Datom, a: I64)
    requires Inv(s) && Validates(ds, s.schema) && d in ds && d.op.Assert? && AttrId(d, s.schema) == a
    ensures d in Finalize(ds, s.schema, s.facts, s.pm) <==>
            !(Single(s.schema, a) && exists u :: Live(s.facts, d.e, a, u) && ValueEq(u, d.v))
  {
    hide Inv, Validates, Live, Replaced, AttrId, Single;
    KnownAttribute(s, ds, d);
    forall u ensures Replaced(d, s.schema, s.facts, s.pm) == Some(u) <==>
                     Single(s.schema, a) && Live(s.facts, d.e, a, u)
    {
      ReplacedIs(s, d, a, u);
    }
  }

  lemma RetractedIff(s: State, ds: seq<Datom>, e: I64, a: I64, v: DataType)
    requires Inv(s) && Validates(ds, s.schema)
    ensures Has(Finalize(ds, s.schema, s.facts, s.pm), s.schema, e, a, v, Retract) <==>
            Tells(ds, s.schema, e, a, v, Retract) || (Live(s.facts, e, a, v) && Displaced(s, ds, e, a, v))
  {
    hide Inv, Validates, Live, Replaced, AttrId, Single, WellTyped;
    var final := Finalize(ds, s.schema, s.facts, s.pm);
    if Has(final, s.schema, e, a, v, Retract) {
      var d :| d in final && AttrId(d, s.schema) == a && d.e == e && d.v == v && d.op == Retract;
      if d !in ds { AutoMeans(s, ds, d, a); }
    }
    if Tells(ds, s.schema, e, a, v, Retract) {
      var d :| d in ds && d.e == e && AttrId(d, s.schema) == a && d.v == v && d.op == Retract;
      RetractionKept(s, ds, d);
      HasThis(final, s.schema, d, a);
    }
    if Live(s.facts, e, a, v) && Displaced(s, ds, e, a, v) {
      var w :| Tells(ds, s.schema, e, a, w, Assert) && !ValueEq(v, w);
      var x :| x in ds && x.e == e && AttrId(x, s.schema) == a && x.v == w && x.op == Assert;
      AutoAdded(s, ds, x, a, v);
    }
  }

  /** Explicit retractions are never rewritten. */
  lemma RetractionKept(s: State, ds: seq<Datom>, d: Datom)
    requires d in ds && d.op.Retract?
    ensures d in Finalize(ds, s.schema, s.facts, s.pm)
  {
  }

  lemma AutoMeans(s: State, ds: seq<Datom>, d: Datom, a: I64)
    requires Inv(s) && Validates(ds, s.schema) && d in Finalize(ds, s.schema, s.facts, s.pm) && d !in ds
    requires AttrId(d, s.schema) == a
    ensures Live(s.facts, d.e, a, d.v) && Displaced(s, ds, d.e, a, d.v)
  {
    hide Inv, Validates, Live, Replaced, Single;
    var x :| x in ds && Replaced(x, s.schema, s.facts, s.pm).Some? && !NoChange(x, s.schema, s.facts, s.pm) &&
             d == Datom(x.e, x.a, Replaced(x, s.schema, s.facts, s.pm).value, Retract);
    KnownAttribute(s, ds, x);
    ReplacedIs(s, x, a, d.v);
    assert Tells(ds, s.schema, d.e, a, x.v, Assert);
  }

  lemma AutoAdded(s: State, ds: seq<Datom>, x: Datom, a: I64, v: DataType)
    requires Inv(s) && Validates(ds, s.schema) && x in ds && x.op.Assert? && AttrId(x, s.schema) == a
    requires Single(s.schema, a) && Live(s.facts, x.e, a, v) && !ValueEq(v, x.v)
    ensures Has(Finalize(ds, s.schema, s.facts, s.pm), s.schema, x.e, a, v, Retract)
  {
    hide Inv, Validates, Live, Replaced, Single;
    KnownAttribute(s, ds, x);
    ReplacedIs(s, x, a, v);
    var d := Datom(x.e, x.a, v, Retract);
    assert d in AutoRetracts(ds, s.schema, s.facts, s.pm);
    HasThis(Finalize(ds, s.schema, s.facts, s.pm), s.schema, d, a);
  }

  // --- The effect of a write -------------------------------------------------------------

  /** A value asserted while it is live is not retracted or displaced in the same transaction. */
  lemma Reasserted(s: State, ds: seq<Datom>, e: I64, a: I64, v: DataType)
    requires Inv(s) && Validates(ds, s.schema) && Single(s.schema, a) && Reflexive(v)
    requires Tells(ds, s.schema, e, a, v, Assert)
    ensures !Tells(ds, s.schema, e, a, v, Retract) && !Displaced(s, ds, e, a, v)
  {
    hide Inv, Live, AttrId, Validates, Reflexive, ValueEq;
    EqualsItself(v);
    var d :| d in ds && d.e == e && AttrId(d, s.schema) == a && d.v == v && d.op == Assert;
    forall f | f in ds && f.e == e && AttrId(f, s.schema) == a
      ensures (f.op.Assert? ==> f.v == v) && (f.op.Retract? ==> f.v != v)
    {
      Compatible(s.schema, ds, d, f, a);
    }
  }

  lemma Compatible(schema: Schema, ds: seq<Datom>, d: Datom, f: Datom, a: I64)
    requires Validates(ds, schema) && d in ds && f in ds && d.op.Assert? && Reflexive(d.v) && Single(schema, a)
    requires d.e == f.e && AttrId(d, schema) == a && AttrId(f, schema) == a
    ensures (f.op.Assert? ==> f.v == d.v) && (f.op.Retract? ==> f.v != d.v)
  {
    hide Reflexive;
    var i: nat :| i < |ds| && ds[i] == d;
    var j: nat :| j < |ds| && ds[j] == f;
    assert WellTyped(ds[i], schema) && WellTyped(ds[j], schema);
    if i < j { assert !Conflict(ds[i], ds[j], schema); }
    if j < i { assert !Conflict(ds[j], ds[i], schema); }
  }

  /**
   * Which triples are live once the finalized datoms are written, from the datoms before the rewrite
   * and the store before the write.
   */
  lemma WriteEffect(s: State, ds: seq<Datom>, tx: I64, e: I64, a: I64, v: DataType)
    requires Inv(s) && Validates(ds, s.schema) && Before(s.facts, tx)
    ensures Live(s.facts + FactsOf(Finalize(ds, s.schema, s.facts, s.pm), s.schema, tx), e, a, v) <==>
            LiveThen(s, ds, e, a, v)
  {
    hide Inv, Validates, Live, Has, Tells, Single, Finalize, FactsOf, Before;
    var final := Finalize(ds, s.schema, s.facts, s.pm);
    LiveNow(s, final, tx, e, a, v);
    AssertedIff(s, ds, e, a, v);
    RetractedIff(s, ds, e, a, v);
    if Tells(ds, s.schema, e, a, v, Assert) && Single(s.schema, a) {
      if Live(s.facts, e, a, v) && ValueEq(v, v) {
        EqualIsReflexive(v);
        Reasserted(s, ds, e, a, v);
      }
    }
  }

  lemma {:induction false} EqualIsReflexive(v: DataType)
    requires ValueEq(v, v)
    ensures Reflexive(v)
    decreases v, 1
  {
    match v
    case Vector(xs) => AllEqualReflexive(xs);
    case Map(es) => EntriesEqualReflexive(es);
    case _ =>
  }

  lemma {:induction false} AllEqualReflexive(xs: seq<DataType>)
    requires AllEq(xs, xs)
    ensures AllReflexive(xs)
    decreases xs, 0
  {
    if xs != [] {
      EqualIsReflexive(xs[0]);
      AllEqualReflexive(xs[1..]);
    }
  }

  lemma {:induction false} EntriesEqualReflexive(es: seq<Entry>)
    requires EntriesEq(es, es)
    ensures EntriesReflexive(es)
    decreases es, 0
  {
    if es != [] {
      EqualIsReflexive(es[0].val);
      EntriesEqualReflexive(es[1..]);
    }
  }

  // --- The effect of a commit ------------------------------------------------------------

  /** The transaction expands to `input` and resolves to `ds`. */
  ghost predicate ResolvesTo(s: State, key: TxKey, ops: seq<TxOp>, rets: seq<TDatom>, input: seq<TDatom>,
                             ds: seq<Datom>)
  {
    && key.txId >= 0 && SetTx(s.pm, key.txId).Ok? && ExpandTx(ops, rets, s.schema, s.facts, s.pm) == Ok(input)
    && var r := ResolveTempids(input, s.schema, s.facts, SetTx(s.pm, key.txId).value); r.Ok? && r.value.datoms == ds
  }

  /** The datoms of the transaction entity say nothing of other entities. */
  lemma OtherEntities(s: State, ds: seq<Datom>, key: TxKey, tx: I64, e: I64, a: I64, v: DataType)
    requires e != tx
    ensures LiveThen(s, ds + TxDatoms(tx, key, None), e, a, v) <==> LiveThen(s, ds, e, a, v)
  {
    hide Live, Absorbed, Single;
    forall w, op
      ensures Tells(ds + TxDatoms(tx, key, None), s.schema, e, a, w, op) <==> Tells(ds, s.schema, e, a, w, op)
    {
      TellsOther(s.schema, ds, key, tx, e, a, w, op);
    }
    hide Tells;
  }

  lemma TellsOther(schema: Schema, ds: seq<Datom>, key: TxKey, tx: I64, e: I64, a: I64, v: DataType, op: Op)
    requires e != tx
    ensures Tells(ds + TxDatoms(tx, key, None), schema, e, a, v, op) <==> Tells(ds, schema, e, a, v, op)
  {
    hide AttrId;
    if Tells(ds, schema, e, a, v, op) {
      var d :| d in ds && d.e == e && AttrId(d, schema) == a && d.v == v && d.op == op;
      assert d in ds + TxDatoms(tx, key, None);
    }
  }

  /**
   * The effect of a commit, exactly: for every triple of another entity than the transaction's, live
   * after the commit if and only if the resolved datoms assert it and no equal value absorbs it, or it
   * was live and they neither retract it nor assert an unequal value of that single-valued attribute.
   */
  lemma CommitEffect(s: State, s': State, key: TxKey, ops: seq<TxOp>, rets: seq<TDatom>, error: Octets,
                     e: I64, a: I64, v: DataType) returns (input: seq<TDatom>, ds: seq<Datom>)
    requires Inv(s) && ValidOps(ops) && Step(s, s', key, ops, rets, error, Committed)
    ensures ResolvesTo(s, key, ops, rets, input, ds) && forall d :: d in ds ==> d.e != TxEid(key.txId)
    ensures e != TxEid(key.txId) ==> (Live(s'.facts, e, a, v) <==> LiveThen(s, ds, e, a, v))
  {
    hide *;
    var b, g := Stages(s, s', key, ops, rets, error);
    input, ds := g.input, g.res.datoms;
    StagedMeans(s, key, ops, rets, b, g);
    CommitCounters(s, key, ops, rets, b, g);
    forall d | d in ds ensures d.e != TxEid(key.txId) {
      ResolvedSound(s, key, ops, rets, b, g, d);
      KnownNotTx(s.pm, b.pm, d.e, key.txId);
    }
    if e != TxEid(key.txId) {
      WriteEffect(s, g.ds, g.tx, e, a, v);
      OtherEntities(s, ds, key, g.tx, e, a, v);
    }
  }

  lemma Stages(s: State, s': State, key: TxKey, ops: seq<TxOp>, rets: seq<TDatom>, error: Octets)
    returns (b: Batch, g: Stage)
    requires Inv(s) && ValidOps(ops) && Step(s, s', key, ops, rets, error, Committed)
    ensures StepContext(s, key, ops, rets) && Staged(s, key, ops, rets, b, g)
    ensures s'.facts == s.facts + FactsOf(b.datoms, s.schema, g.tx)
  {
    hide Inv, ValidOps, Prepare, RetractsLive, TargetsOf, FactsOf, ExpandTx, ResolveTempids, Validates, Finalize,
         UniqueOk, ChangesSchema, Preparable, Prepared, Applied, TxDatoms, SetTx;
    b := Prepare(s, key, ops, rets).value;
    g := CommitStages(s, key, ops, rets);
  }

  lemma StagedMeans(s: State, key: TxKey, ops: seq<TxOp>, rets: seq<TDatom>, b: Batch, g: Stage)
    requires Staged(s, key, ops, rets, b, g)
    ensures 0 <= key.txId < COUNTER_SPAN && g.tx == TxEid(key.txId) && Validates(g.ds, s.schema)
    ensures g.ds == g.res.datoms + TxDatoms(g.tx, key, None) && b.datoms == Finalize(g.ds, s.schema, s.facts, s.pm)
    ensures ResolvesTo(s, key, ops, rets, g.input, g.res.datoms)
  {
    hide ExpandTx, ResolveTempids, Validates, Finalize, UniqueOk, ChangesSchema, Preparable, Prepared, Applied,
         TxDatoms, SetTx;
  }
}
