/** Uniqueness fails exactly for values that are not equal to themselves. */
module SharedValue {
  import opened Octets
  import opened Values
  import opened Facts
  import opened Model
  import opened Partition
  import opened SchemaRules
  import opened Expand
  import opened Transact
  import opened Invariant
  import opened Sources
  import opened Preserve
  import opened SchemaKept
  import opened Runs
  import opened Asserting
  import opened Bootstrap
  import opened Theorems
  import opened Installing
  import opened FreshRuns

  // --- Values that are not equal to themselves -------------------------------------------

  /** Nothing equals such a value. */
  lemma {:induction false} NothingEquals(w: DataType, v: DataType)
    requires !Reflexive(v)
    ensures !ValueEq(w, v)
    decreases v, 1
  {
    match w
    case Vector(xs) => if v.Vector? { NoneEqual(xs, v.elems); }
    case Map(es) => if v.Map? { NoEntriesEqual(es, v.entries); }
    case _ =>
  }

  lemma {:induction false} NoneEqual(ws: seq<DataType>, vs: seq<DataType>)
    requires !AllReflexive(vs)
    ensures !AllEq(ws, vs)
    decreases vs, 0
  {
    if ws != [] {
      if Reflexive(vs[0]) { NoneEqual(ws[1..], vs[1..]); } else { NothingEquals(ws[0], vs[0]); }
    }
  }

  lemma {:induction false} NoEntriesEqual(ws: seq<Entry>, vs: seq<Entry>)
    requires !EntriesReflexive(vs)
    ensures !EntriesEq(ws, vs)
    decreases vs, 0
  {
    if ws != [] {
      if Reflexive(vs[0].val) { NoEntriesEqual(ws[1..], vs[1..]); } else { NothingEquals(ws[0].val, vs[0].val); }
    }
  }

  /** Such a value has a type that is not a reference, a keyword or any other scalar of the schema. */
  lemma NotScalar(t: ValueType, v: DataType)
    requires Matches(t, v) && !Reflexive(v)
    ensures !t.VtRef? && !t.VtKeyword? && !v.Long?
  {
  }

  // --- Two owners ------------------------------------------------------------------------

  function TwoDatoms(k: Keyword, v: DataType, d: I64, e: I64): seq<Datom> {
    [Datom(d, k, v, Assert), Datom(e, k, v, Assert)]
  }

  function TwoAdds(k: Keyword, v: DataType, d: I64, e: I64): seq<TxOp> { OpsOf(TwoDatoms(k, v, d, e)) }

  ghost predicate TwoOwnerContext(s: State, key: TxKey, k: Keyword, v: DataType, d: I64, e: I64) {
    && Inv(s) && Valid(v) && !Reflexive(v) && d != e && Contains(s.pm, d) && Contains(s.pm, e)
    && GetAttribute(s.schema, k).Some? && GetAttribute(s.schema, k).value.attr.unique.Some?
    && Matches(GetAttribute(s.schema, k).value.attr.valueType, v)
    && CounterOf(s.pm, TX_PARTITION) <= key.txId < COUNTER_SPAN
  }

  lemma NotSchemaAttr(s: State, k: Keyword, v: DataType)
    requires Inv(s) && !Reflexive(v) && GetAttribute(s.schema, k).Some? &&
             Matches(GetAttribute(s.schema, k).value.attr.valueType, v)
    ensures !IsSchemaAttr(k)
  {
    hide Inv, Reflexive, Inverse, HasSystem, GetAttribute, Matches;
    InvParts(s);
    SystemEntry(s.schema, DB_IDENT);
    SystemEntry(s.schema, DB_VALUE_TYPE);
    SystemEntry(s.schema, DB_CARDINALITY);
    SystemEntry(s.schema, DB_UNIQUE);
    NotScalar(GetAttribute(s.schema, k).value.attr.valueType, v);
  }

  /** The pair is fit to be asserted: no assertion of it counts against uniqueness. */
  lemma TwoFit(s: State, key: TxKey, k: Keyword, v: DataType, d: I64, e: I64)
    requires TwoOwnerContext(s, key, k, v, d, e)
    ensures Fits(s, TwoDatoms(k, v, d, e)) && Claimable(s, TwoDatoms(k, v, d, e)) &&
            !ChangesSchema(TwoDatoms(k, v, d, e))
  {
    hide Inv, Contains, Valid, Reflexive, Matches, GetAttribute, IsSchemaAttr, Owner;
    NotScalar(GetAttribute(s.schema, k).value.attr.valueType, v);
    NotSchemaAttr(s, k, v);
  }

  /** The transaction commits. */
  lemma TwoPrepared(s: State, key: TxKey, k: Keyword, v: DataType, d: I64, e: I64)
    requires TwoOwnerContext(s, key, k, v, d, e)
    ensures Prepare(s, key, TwoAdds(k, v, d, e), []).Ok?
    ensures Prepare(s, key, TwoAdds(k, v, d, e), []).value.datoms ==
            Finalize(WithTx(TwoDatoms(k, v, d, e), key), s.schema, s.facts, s.pm)
    ensures RetractsLive([], TargetsOf(TwoAdds(k, v, d, e), s.schema, s.facts), s.schema, s.facts) &&
            ValidOps(TwoAdds(k, v, d, e))
  {
    hide Inv, Contains, Valid, Reflexive, Matches, GetAttribute, Fits, Claimable, UniqueOk, ChangesSchema, Preparable,
         Prepare, Finalize, RetractsLive, TargetsOf, ValidOps, OpsOf, WithTx, TwoDatoms, Prepared, Applied;
    TwoFit(s, key, k, v, d, e);
    ClaimsOk(s, key, TwoDatoms(k, v, d, e));
    PlainPrepared(s, key, TwoDatoms(k, v, d, e));
  }

  lemma NewValueKept(s: State, ds: seq<Datom>, d: Datom)
    requires d in ds && !Reflexive(d.v)
    ensures d in Finalize(ds, s.schema, s.facts, s.pm)
  {
    hide Replaced, Reflexive;
    var r := Replaced(d, s.schema, s.facts, s.pm);
    if r.Some? { NothingEquals(r.value, d.v); }
  }

  /**
   * In every state with a unique attribute that admits a value not equal to itself, one
   * transaction gives that value to any two allocated entities.
   */
  lemma SharedByTwo(s: State, key: TxKey, k: Keyword, v: DataType, d: I64, e: I64, error: Octets)
    requires TwoOwnerContext(s, key, k, v, d, e)
    ensures var a := GetAttribute(s.schema, k).value.id;
            exists s' :: Step(s, s', key, TwoAdds(k, v, d, e), [], error, Committed) && Live(s'.facts, d, a, v) &&
              Live(s'.facts, e, a, v)
  {
    hide Inv, Contains, Valid, Reflexive, Matches, TargetsOf, Prepare, Finalize, TxDatoms, GetAttribute, Live, Has,
         FactsOf;
    InvParts(s);
    TwoPrepared(s, key, k, v, d, e);
    var b := Prepare(s, key, TwoAdds(k, v, d, e), []).value;
    var s' := Commit(s, key, b);
    var tx, a := TxEid(key.txId), GetAttribute(s.schema, k).value.id;
    BeforeTx(s.facts, s.pm, key.txId);
    var ds := WithTx(TwoDatoms(k, v, d, e), key);
    var p, q := Datom(d, k, v, Assert), Datom(e, k, v, Assert);
    assert p == ds[0] && q == ds[1];
    NewValueKept(s, ds, p);
    NewValueKept(s, ds, q);
    HasThis(b.datoms, s.schema, p, a);
    HasThis(b.datoms, s.schema, q, a);
    LiveNow(s, b.datoms, tx, d, a, v);
    LiveNow(s, b.datoms, tx, e, a, v);
    assert Step(s, s', key, TwoAdds(k, v, d, e), [], error, Committed);
  }

  /** At most one entity has the value. */
  ghost predicate OwnedOnce(facts: set<Fact>, a: I64, v: DataType) {
    forall d: I64, e: I64 :: Live(facts, d, a, v) && Live(facts, e, a, v) ==> d == e
  }

  /** A value that equals itself has one owner after every step. */
  lemma ReflexiveOwnedOnce(s: State, s': State, key: TxKey, ops: seq<TxOp>, rets: seq<TDatom>, error: Octets,
                           out: Outcome, a: I64, v: DataType)
    requires Inv(s) && ValidOps(ops) && Step(s, s', key, ops, rets, error, out) && a in UniqueAttrs(s.schema) &&
             Reflexive(v)
    ensures OwnedOnce(s'.facts, a, v)
  {
    hide Inv, Step, Live, Reflexive, ValidOps;
    StepKeeps(s, s', key, ops, rets, error, out);
    StepGrowsSchema(s, s', key, ops, rets, error, out);
    InvParts(s');
    assert OneOwner(s'.facts, a);
  }

  /** Some step of the transaction `key` gives the value to two entities. */
  ghost predicate CanBeShared(s: State, key: TxKey, a: I64, v: DataType) {
    exists s', ops, rets, error, out ::
      ValidOps(ops) && Step(s, s', key, ops, rets, error, out) && !OwnedOnce(s'.facts, a, v)
  }

  /**
   * The uniqueness promise, exactly: for a value a unique attribute admits, some next transaction
   * can give it to two entities if and only if the value is not equal to itself.
   */
  lemma UniqueExactly(s: State, key: TxKey, k: Keyword, v: DataType)
    requires Inv(s) && Valid(v) && CounterOf(s.pm, TX_PARTITION) <= key.txId < COUNTER_SPAN
    requires GetAttribute(s.schema, k).Some? && GetAttribute(s.schema, k).value.attr.unique.Some?
    requires Matches(GetAttribute(s.schema, k).value.attr.valueType, v)
    ensures CanBeShared(s, key, GetAttribute(s.schema, k).value.id, v) <==> !Reflexive(v)
  {
    hide Inv, Step, Live, Reflexive, Valid, Matches, Contains;
    var a := GetAttribute(s.schema, k).value.id;
    if Reflexive(v) {
      forall s', ops, rets, error, out | ValidOps(ops) && Step(s, s', key, ops, rets, error, out)
        ensures OwnedOnce(s'.facts, a, v)
      {
        ReflexiveOwnedOnce(s, s', key, ops, rets, error, out, a, v);
      }
    } else {
      InvParts(s);
      SystemContained(s.pm, DB_IDENT);
      SystemContained(s.pm, DB_UNIQUE);
      SharedByTwo(s, key, k, v, DB_IDENT, DB_UNIQUE, []);
      var s' :| Step(s, s', key, TwoAdds(k, v, DB_IDENT, DB_UNIQUE), [], [], Committed) &&
        Live(s'.facts, DB_IDENT, a, v) && Live(s'.facts, DB_UNIQUE, a, v);
      assert ValidOps(TwoAdds(k, v, DB_IDENT, DB_UNIQUE));
      assert !OwnedOnce(s'.facts, a, v);
    }
  }

  // --- Such a run ------------------------------------------------------------------------

  const SCORE: Keyword := Ns("person", "score")
  const SCORE_ATTR: Definition := Definition(500, SCORE, VtDouble, false, Some(UniqueValue))

  /** A quiet NaN. */
  const NAN: DataType := Double(0x7FF8_0000_0000_0000)

  lemma NanIs()
    ensures !Reflexive(NAN) && Valid(NAN) && Matches(VtDouble, NAN) && |SCORE.ns| == 6
  {
  }

  /** A fresh database, one unique attribute of doubles, and a transaction that gives a NaN to two entities. */
  lemma UniqueCanFail() returns (states: seq<State>, events: seq<Event>)
    ensures FreshRun(states, events) && states != []
    ensures var s := states[|states| - 1];
            && GetAttribute(s.schema, SCORE) == Some(AttrEntry(500, DefinedAs(SCORE_ATTR)))
            && Live(s.facts, 600, 500, NAN) && Live(s.facts, 601, 500, NAN)
  {
    hide *;
    StartRun();
    LastOfOne(BOOT);
    NanIs();
    ScoreIs();
    BootFree(500, SCORE);
    var before, done := InstallNext([BOOT], [], SCORE_ATTR, 1);
    RunLast(before, done);
    LastIs(before);
    var s', v := Shares(BOOT, Last(before));
    OneMoreStep(before, done, s', v);
    states, events := before + [s'], done + [v];
  }

  lemma LastOfOne(s: State)
    ensures Last([s]) == s
  {
  }

  lemma ScoreIs()
    ensures SCORE_ATTR.e == 500 && SCORE_ATTR.k == SCORE && DB_FLOOR == 1000 && COUNTER_SPAN > 2
  {
  }

  lemma Shares(s0: State, s: State) returns (s': State, v: Event)
    requires Installed(s0, SCORE_ATTR, s) && s.latest.txId == 1
    ensures StepOf(s, s', v) && ValidOps(v.ops) &&
            GetAttribute(s'.schema, SCORE) == Some(AttrEntry(500, DefinedAs(SCORE_ATTR)))
    ensures Live(s'.facts, 600, 500, NAN) && Live(s'.facts, 601, 500, NAN)
  {
    hide Inv, Live, Contains, Step, ValidOps, SchemaGrows, CountersOk, Valid, Reflexive, Free, SCORE, NAN, TwoAdds;
    NanIs();
    InvParts(s);
    SystemContained(s.pm, 600);
    SystemContained(s.pm, 601);
    var key := TxKey(2, 0);
    SharedByTwo(s, key, SCORE, NAN, 600, 601, []);
    TwoPrepared(s, key, SCORE, NAN, 600, 601);
    var ops := TwoAdds(SCORE, NAN, 600, 601);
    s' :| Step(s, s', key, ops, [], [], Committed) && Live(s'.facts, 600, 500, NAN) && Live(s'.facts, 601, 500, NAN);
    v := Event(key, ops, [], [], Committed);
    StepKeeps(s, s', key, ops, [], [], Committed);
    StepGrowsSchema(s, s', key, ops, [], [], Committed);
    AttributeKept(s, s', SCORE);
  }
}
