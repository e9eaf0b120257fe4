/** Transactions that assert datoms about allocated entities, and what it takes for them to commit. */
module Asserting {
  import opened Octets
  import opened Values
  import opened Facts
  import opened Model
  import opened Partition
  import opened SchemaRules
  import opened Expand
  import opened Upsert
  import opened Evolution
  import opened Labels
  import opened Tempids
  import opened Transact
  import opened Invariant
  import opened Sources
  import opened Preserve
  import opened Runs

  // --- Transactions without tempids ------------------------------------------------------

  ghost predicate Plain(ds: seq<TDatom>, schema: Schema) {
    forall i :: 0 <= i < |ds| ==> ds[i].e.Id? && ds[i].v.Data? && GetAttribute(schema, ds[i].a).Some?
  }

  function PlainDatoms(ds: seq<TDatom>): (r: seq<Datom>)
    requires forall i :: 0 <= i < |ds| ==> ds[i].e.Id? && ds[i].v.Data?
    ensures |r| == |ds| && forall i :: 0 <= i < |ds| ==> r[i] == Datom(ds[i].e.id, ds[i].a, ds[i].v.v, ds[i].op)
  {
    seq(|ds|, i requires 0 <= i < |ds| => Datom(ds[i].e.id, ds[i].a, ds[i].v.v, ds[i].op))
  }

  lemma {:induction false} PlainSplit(ds: seq<TDatom>, schema: Schema, s: Split)
    requires Plain(ds, schema)
    ensures SplitAll(ds, schema, s) == Ok(s.(inert := s.inert + PlainDatoms(ds)))
  {
    if ds == [] {
      assert s.inert + PlainDatoms([]) == s.inert;
    } else {
      var d := Datom(ds[0].e.id, ds[0].a, ds[0].v.v, ds[0].op);
      var next := s.(inert := s.inert + [d]);
      assert Classify(ds[0], schema, s) == Ok(next);
      PlainSplit(ds[1..], schema, next);
      assert s.inert + [d] + PlainDatoms(ds[1..]) == s.inert + PlainDatoms(ds);
    }
  }

  lemma NoLabels(schema: Schema)
    ensures LabelCount(LabelsOf([], schema)) == 0 && Allocatable([], schema)
  {
    hide Labelling;
    var labels := LabelsOf([], schema);
    LabelsDense(EntityTempIds([]), IdentityEdges([], schema));
    assert labels.Keys == {};
    var n := LabelCount(labels);
    assert n > 0 ==> Used(labels, 0);
  }

  lemma NothingAllocated(datoms: seq<TDatom>, schema: Schema, pm: Counters)
    ensures AllocateAll(ClassPartitions(datoms, LabelsOf([], schema)), pm) == Ok(Allocation([], pm))
  {
    hide LabelCount, Labelling, ClassNamesIdent;
    NoLabels(schema);
  }

  /** Datoms without tempids pass through unchanged. */
  lemma PlainResolves(ds: seq<TDatom>, schema: Schema, facts: set<Fact>, pm: Counters)
    requires Plain(ds, schema)
    ensures ResolveTempids(ds, schema, facts, pm).Ok?
    ensures ResolveTempids(ds, schema, facts, pm).value.datoms == PlainDatoms(ds) &&
            ResolveTempids(ds, schema, facts, pm).value.pm == pm
  {
    hide SplitAll, EvolveAll, Drain, Allocatable, LabelCount, Labelling, AllocateAll, ClassPartitions, IdentityEdges,
         EntityTempIds, Assign;
    PlainSplit(ds, schema, Split(EMPTY, []));
    assert [] + PlainDatoms(ds) == PlainDatoms(ds);
    EvolveEmpty(schema, facts);
    DrainEmpty(schema);
    NoLabels(schema);
    NothingAllocated(ds, schema, pm);
    assert Finals([], Assign(LabelsOf([], schema), [])) == Ok([]);
    assert [] + [] + [] + PlainDatoms(ds) == PlainDatoms(ds);
  }

  lemma EvolveEmpty(schema: Schema, facts: set<Fact>)
    ensures EvolveAll(EMPTY, map[], schema, facts) == Ok(Evolved(EMPTY, map[], [], 0))
  {
  }

  lemma DrainEmpty(schema: Schema)
    ensures Drain(EMPTY, schema) == Ok([])
  {
    assert AsEVs(schema, EMPTY.evs) == [];
    assert EMPTY.allocs + AsEVs(schema, EMPTY.evs) == [];
  }

  // --- One operation per datom -----------------------------------------------------------

  function OpsOf(ds: seq<Datom>): seq<TxOp> {
    seq(|ds|, i requires 0 <= i < |ds| => PlainOp(ds[i]))
  }

  function PlainOp(d: Datom): TxOp {
    if d.op.Assert? then Add(RefId(d.e), d.a, d.v) else Remove(RefId(d.e), d.a, d.v)
  }

  function InputOf(ds: seq<Datom>): (r: seq<TDatom>)
    ensures |r| == |ds| && forall i :: 0 <= i < |ds| ==> r[i] == TDatom(Id(ds[i].e), ds[i].a, Data(ds[i].v), ds[i].op)
  {
    seq(|ds|, i requires 0 <= i < |ds| => TDatom(Id(ds[i].e), ds[i].a, Data(ds[i].v), ds[i].op))
  }

  function PlainX(ds: seq<Datom>): (r: seq<DatomX>)
    ensures |r| == |ds| && forall i :: 0 <= i < |ds| ==> r[i] == DatomX(XId(ds[i].e), ds[i].a, XData(ds[i].v), ds[i].op)
  {
    seq(|ds|, i requires 0 <= i < |ds| => DatomX(XId(ds[i].e), ds[i].a, XData(ds[i].v), ds[i].op))
  }

  /** Datoms about allocated entities that pass validation. */
  ghost predicate Fits(s: State, ds: seq<Datom>) {
    Validates(ds, s.schema) && forall d :: d in ds ==> FitsOne(s, d)
  }

  ghost predicate FitsOne(s: State, d: Datom) {
    && Valid(d.v) && WellTyped(d, s.schema) && Contains(s.pm, d.e)
    && (IsRef(d.a, s.schema) && d.v.Long? ==> Contains(s.pm, d.v.i))
  }

  lemma PlainOpExpands(d: Datom, schema: Schema, x: Expanded)
    requires WellTyped(d, schema)
    ensures ExpandOp(PlainOp(d), schema, x) ==
            Ok(x.(datoms := x.datoms + [DatomX(XId(d.e), d.a, XData(d.v), d.op)]))
  {
  }

  lemma {:induction false} PlainOpsExpand(ds: seq<Datom>, schema: Schema, x: Expanded)
    requires forall d :: d in ds ==> WellTyped(d, schema)
    ensures ExpandOps(OpsOf(ds), schema, x) == Ok(x.(datoms := x.datoms + PlainX(ds)))
  {
    hide ExpandOp, WellTyped, PlainOp;
    if ds == [] {
      assert OpsOf(ds) == [] && PlainX(ds) == [] && x.datoms + [] == x.datoms;
    } else {
      assert ds[0] in ds;
      PlainOpExpands(ds[0], schema, x);
      var first := DatomX(XId(ds[0].e), ds[0].a, XData(ds[0].v), ds[0].op);
      assert OpsOf(ds)[1..] == OpsOf(ds[1..]) && OpsOf(ds)[0] == PlainOp(ds[0]);
      assert x.datoms + [first] + PlainX(ds[1..]) == x.datoms + PlainX(ds);
      PlainOpsExpand(ds[1..], schema, x.(datoms := x.datoms + [first]));
    }
  }

  lemma {:induction false} PlainXs(ds: seq<Datom>, schema: Schema, facts: set<Fact>)
    ensures ResolveXs(PlainX(ds), schema, facts) == Ok(InputOf(ds))
  {
    if ds == [] {
      assert PlainX(ds) == [] && InputOf(ds) == [];
    } else {
      PlainXs(ds[1..], schema, facts);
      var d := TDatom(Id(ds[0].e), ds[0].a, Data(ds[0].v), ds[0].op);
      assert PlainX(ds)[1..] == PlainX(ds[1..]);
      assert ResolveX(PlainX(ds)[0], schema, facts) == Ok(d);
      assert [d] + InputOf(ds[1..]) == InputOf(ds);
    }
  }

  lemma InputAllocated(s: State, ds: seq<Datom>)
    requires forall d :: d in ds ==> FitsOne(s, d)
    ensures Allocated(InputOf(ds), s.schema, s.pm)
  {
    hide Contains, Valid, Matches;
    forall t | t in InputOf(ds) ensures AllocatedDatom(t, s.schema, s.pm) {
      var i: nat :| i < |ds| && InputOf(ds)[i] == t;
      assert FitsOne(s, ds[i]);
    }
  }

  lemma PlainExpandTx(s: State, ds: seq<Datom>)
    requires forall d :: d in ds ==> FitsOne(s, d)
    ensures ExpandTx(OpsOf(ds), [], s.schema, s.facts, s.pm) == Ok(InputOf(ds))
    ensures TargetsOf(OpsOf(ds), s.schema, s.facts) == {} && RetractsLive([], {}, s.schema, s.facts)
  {
    hide ExpandOps, ResolveXs, Allocated, Contains, Valid, Live;
    PlainOpsExpand(ds, s.schema, Expanded([], [], 0));
    assert [] + PlainX(ds) == PlainX(ds);
    PlainXs(ds, s.schema, s.facts);
    InputAllocated(s, ds);
    assert InputOf(ds) + [] == InputOf(ds);
  }

  lemma PlainOpsValid(s: State, ds: seq<Datom>)
    requires forall d :: d in ds ==> FitsOne(s, d)
    ensures ValidOps(OpsOf(ds))
  {
    hide Contains, Valid, WellTyped;
    forall op | op in OpsOf(ds) ensures ValidOp(op) {
      var i: nat :| i < |ds| && OpsOf(ds)[i] == op;
      assert FitsOne(s, ds[i]);
    }
  }

  // --- From datoms to a commit -----------------------------------------------------------

  /** No two of the assertions share a unique value, and nobody else owns one. */
  ghost predicate Claimable(s: State, ds: seq<Datom>) {
    && (forall d, f :: d in ds && f in ds ==> !Clash(d, f, s.schema))
    && (forall d :: d in ds && IsUnique(d, s.schema) ==> ClaimableOne(s, d))
  }

  ghost predicate ClaimableOne(s: State, d: Datom) {
    var owner := Hit(s.facts, AttrId(d, s.schema), d.v);
    owner.None? || owner.value == d.e
  }

  ghost predicate InTurn(s: State, key: TxKey) {
    CounterOf(s.pm, TX_PARTITION) <= key.txId < COUNTER_SPAN
  }

  function WithTx(ds: seq<Datom>, key: TxKey): seq<Datom>
    requires 0 <= key.txId < COUNTER_SPAN
  {
    ds + TxDatoms(TxEid(key.txId), key, None)
  }

  /** What is known of the transaction entity. */
  lemma TxFacts(s: State, key: TxKey)
    requires Inv(s) && InTurn(s, key)
    ensures SetTx(s.pm, key.txId).Ok?
    ensures var pm, tx := SetTx(s.pm, key.txId).value, TxEid(key.txId);
            CountersOk(pm) && Contains(pm, tx) && !Contains(s.pm, tx) && Before(s.facts, tx)
  {
    hide Inv, CountersOk, Contains, Grows;
    InvParts(s);
    TxCounters(s.pm, key.txId);
    BeforeTx(s.facts, s.pm, key.txId);
  }

  lemma TxIs(s: State, key: TxKey, d: Datom)
    requires Inv(s) && InTurn(s, key) && d in TxDatoms(TxEid(key.txId), key, None)
    ensures WellTyped(d, s.schema) && d.e == TxEid(key.txId) && !IsSchemaAttr(d.a) && !IsUnique(d, s.schema)
  {
    hide Inv, InTurn, CountersOk, Contains, TxDatoms, WellTyped, IsSchemaAttr, IsUnique, SetTx;
    TxFacts(s, key);
    TxDatomsSound(s, key, TxEid(key.txId), SetTx(s.pm, key.txId).value, None, d);
  }

  lemma FitsWithTx(s: State, key: TxKey, ds: seq<Datom>)
    requires Inv(s) && InTurn(s, key) && Fits(s, ds)
    ensures Validates(WithTx(ds, key), s.schema)
  {
    hide Inv, CountersOk, Contains, TxDatoms, WellTyped, IsSchemaAttr, IsUnique, SetTx, Conflict;
    TxFacts(s, key);
    var rest := TxDatoms(TxEid(key.txId), key, None);
    TxDatomsValidate(s, key, TxEid(key.txId), SetTx(s.pm, key.txId).value, None);
    var all := ds + rest;
    forall i | 0 <= i < |all| ensures WellTyped(all[i], s.schema) {
      if i >= |ds| { assert all[i] == rest[i - |ds|]; }
    }
    forall i, j | 0 <= i < j < |all| ensures !Conflict(all[i], all[j], s.schema) {
      if i >= |ds| {
        assert all[i] == rest[i - |ds|] && all[j] == rest[j - |ds|];
      } else if j >= |ds| {
        assert all[i] in ds && FitsOne(s, all[i]) && all[j] in rest;
        TxIs(s, key, all[j]);
        OtherEntity(all[i], all[j], s.schema);
      }
    }
  }

  lemma OtherEntity(d: Datom, f: Datom, schema: Schema)
    requires d.e != f.e
    ensures !Conflict(d, f, schema)
  {
  }

  lemma ClaimsOk(s: State, key: TxKey, ds: seq<Datom>)
    requires Inv(s) && InTurn(s, key) && Claimable(s, ds)
    ensures UniqueOk(Finalize(WithTx(ds, key), s.schema, s.facts, s.pm), s.schema, s.facts)
  {
    hide Inv, CounterOf, Finalize, IsUnique, TxDatoms, AttrId, Hit, Released, SameKey, NoChange, Replaced, IsSchemaAttr,
         WellTyped;
    var all := WithTx(ds, key);
    forall d | d in Finalize(all, s.schema, s.facts, s.pm) && d.op.Assert? && IsUnique(d, s.schema) ensures d in ds {
      AssertKept(s, all, d);
      if d in TxDatoms(TxEid(key.txId), key, None) { TxIs(s, key, d); }
    }
  }

  lemma ChangesWithTx(s: State, key: TxKey, ds: seq<Datom>)
    requires Inv(s) && InTurn(s, key)
    ensures ChangesSchema(WithTx(ds, key)) <==> ChangesSchema(ds)
  {
    hide Inv, CounterOf, TxDatoms, IsSchemaAttr, WellTyped, IsUnique;
    var all := WithTx(ds, key);
    if d :| d in all && IsSchemaAttr(d.a) {
      if d in TxDatoms(TxEid(key.txId), key, None) { TxIs(s, key, d); }
    }
    if d :| d in ds && IsSchemaAttr(d.a) { assert d in all; }
  }

  /** A transaction that resolves to fitting datoms and passes the unique check has all it needs to commit. */
  lemma Preparing(s: State, key: TxKey, ops: seq<TxOp>, rets: seq<TDatom>, input: seq<TDatom>, ds: seq<Datom>)
    requires Inv(s) && InTurn(s, key) && Fits(s, ds)
    requires UniqueOk(Finalize(WithTx(ds, key), s.schema, s.facts, s.pm), s.schema, s.facts)
    requires ExpandTx(ops, rets, s.schema, s.facts, s.pm) == Ok(input) && SetTx(s.pm, key.txId).Ok?
    requires var r := ResolveTempids(input, s.schema, s.facts, SetTx(s.pm, key.txId).value);
             r.Ok? && r.value.datoms == ds && r.value.pm == SetTx(s.pm, key.txId).value
    requires ChangesSchema(ds) ==> Preparable(Finalize(WithTx(ds, key), s.schema, s.facts, s.pm), s.schema)
    ensures var final := Finalize(WithTx(ds, key), s.schema, s.facts, s.pm);
            Prepare(s, key, ops, rets) ==
            Ok(Batch(final, SetTx(s.pm, key.txId).value,
              if ChangesSchema(ds) then Applied(s.schema, Prepared(final)) else s.schema))
  {
    hide Inv, Fits, ExpandTx, ResolveTempids, Validates, Finalize, UniqueOk, ChangesSchema, Preparable, Prepared,
         Applied, TxDatoms, SetTx, CounterOf;
    FitsWithTx(s, key, ds);
    ChangesWithTx(s, key, ds);
  }

  lemma PlainPrepared(s: State, key: TxKey, ds: seq<Datom>)
    requires Inv(s) && InTurn(s, key) && Fits(s, ds)
    requires UniqueOk(Finalize(WithTx(ds, key), s.schema, s.facts, s.pm), s.schema, s.facts)
    requires ChangesSchema(ds) ==> Preparable(Finalize(WithTx(ds, key), s.schema, s.facts, s.pm), s.schema)
    ensures var final := Finalize(WithTx(ds, key), s.schema, s.facts, s.pm);
            && SetTx(s.pm, key.txId).Ok?
            && Prepare(s, key, OpsOf(ds), []) ==
               Ok(Batch(final, SetTx(s.pm, key.txId).value,
                 if ChangesSchema(ds) then Applied(s.schema, Prepared(final)) else s.schema))
            && RetractsLive([], TargetsOf(OpsOf(ds), s.schema, s.facts), s.schema, s.facts) && ValidOps(OpsOf(ds))
  {
    hide Inv, CounterOf, UniqueOk, ExpandTx, ResolveTempids, Validates, Finalize, ChangesSchema, Preparable, Prepared,
         Applied, FitsOne, Prepare, SetTx, RetractsLive, TargetsOf, ValidOps, CountersOk, Contains, Before;
    TxFacts(s, key);
    PlainExpandTx(s, ds);
    PlainOpsValid(s, ds);
    InputPlain(s, ds);
    PlainResolves(InputOf(ds), s.schema, s.facts, SetTx(s.pm, key.txId).value);
    Preparing(s, key, OpsOf(ds), [], InputOf(ds), ds);
  }

  lemma InputPlain(s: State, ds: seq<Datom>)
    requires forall d :: d in ds ==> FitsOne(s, d)
    ensures Plain(InputOf(ds), s.schema) && PlainDatoms(InputOf(ds)) == ds
  {
    hide Contains, Valid, Matches;
    forall i | 0 <= i < |ds|
      ensures GetAttribute(s.schema, ds[i].a).Some?
    {
      assert FitsOne(s, ds[i]);
    }
  }

  // --- Assertions that replace nothing ---------------------------------------------------

  /** The entities have no old value the assertions would replace. */
  ghost predicate Unset(s: State, ds: seq<Datom>) {
    forall d :: d in ds ==> Replaced(d, s.schema, s.facts, s.pm).None?
  }

  /** Some assertion says that `e` has value `v` of attribute `a`. */
  ghost predicate Says(ds: seq<Datom>, schema: Schema, e: I64, a: I64, v: DataType) {
    exists d :: d in ds && d.e == e && AttrId(d, schema) == a && d.v == v
  }

  lemma UnsetFinal(s: State, key: TxKey, ds: seq<Datom>)
    requires Inv(s) && InTurn(s, key) && Unset(s, ds)
    ensures Finalize(WithTx(ds, key), s.schema, s.facts, s.pm) == Elements(WithTx(ds, key))
  {
    hide Inv, CounterOf, Replaced, TxDatoms, Contains, IsSchemaAttr, WellTyped, IsUnique, CountersOk;
    TxFacts(s, key);
    forall d | d in TxDatoms(TxEid(key.txId), key, None) ensures Replaced(d, s.schema, s.facts, s.pm).None? {
      TxIs(s, key, d);
      NotLookedUp(s, d);
    }
  }

  lemma NotLookedUp(s: State, d: Datom)
    requires !Contains(s.pm, d.e)
    ensures Replaced(d, s.schema, s.facts, s.pm).None?
  {
  }

  predicate IsTxAttr(a: I64) { DB_TX_INSTANT <= a <= DB_TX_ERROR }

  lemma TxAttr(s: State, key: TxKey, d: Datom)
    requires Inv(s) && InTurn(s, key) && d in TxDatoms(TxEid(key.txId), key, None)
    ensures IsTxAttr(AttrId(d, s.schema))
  {
    hide Inv, CounterOf, Inverse, HasSystem, GetAttribute, KW_TX_INSTANT, KW_TX_ID, KW_TX_RESULT, KW_TX_ERROR;
    InvParts(s);
    TxEntries(s.schema);
  }

  /** What is live after the commit, apart from the transaction attributes. */
  lemma LiveAsserted(s: State, key: TxKey, ds: seq<Datom>, e: I64, a: I64, v: DataType)
    requires Inv(s) && InTurn(s, key) && !IsTxAttr(a) && forall d :: d in ds ==> d.op.Assert?
    ensures Live(s.facts + FactsOf(Elements(WithTx(ds, key)), s.schema, TxEid(key.txId)), e, a, v) <==>
            Live(s.facts, e, a, v) || Says(ds, s.schema, e, a, v)
  {
    hide Inv, CounterOf, Live, TxDatoms, FactsOf, AttrId, CountersOk, Contains, Before;
    TxFacts(s, key);
    var all := Elements(WithTx(ds, key));
    LiveNow(s, all, TxEid(key.txId), e, a, v);
    forall d | d in TxDatoms(TxEid(key.txId), key, None) ensures AttrId(d, s.schema) != a { TxAttr(s, key, d); }
    TxAsserts(key);
    if Says(ds, s.schema, e, a, v) {
      var d :| d in ds && d.e == e && AttrId(d, s.schema) == a && d.v == v;
      assert d in all;
    }
  }

  lemma TxAsserts(key: TxKey)
    requires 0 <= key.txId < COUNTER_SPAN
    ensures forall d :: d in TxDatoms(TxEid(key.txId), key, None) ==> d.op.Assert?
  {
  }

  /** Such a transaction commits, and afterwards holds what was live and what it says. */
  lemma Asserted(s: State, key: TxKey, ds: seq<Datom>, error: Octets) returns (s': State)
    requires Inv(s) && InTurn(s, key) && Fits(s, ds) && Claimable(s, ds) && Unset(s, ds)
    requires forall d :: d in ds ==> d.op.Assert?
    requires ChangesSchema(ds) ==> Preparable(Elements(WithTx(ds, key)), s.schema)
    ensures ValidOps(OpsOf(ds)) && Step(s, s', key, OpsOf(ds), [], error, Committed) && Inv(s')
    ensures SetTx(s.pm, key.txId) == Ok(s'.pm) && s'.latest == key
    ensures s'.facts == s.facts + FactsOf(Elements(WithTx(ds, key)), s.schema, TxEid(key.txId))
    ensures SchemaGrows(s.schema, s'.schema) && (!ChangesSchema(ds) ==> s'.schema == s.schema)
    ensures forall e: I64, a: I64, v ::
            !IsTxAttr(a) ==> (Live(s'.facts, e, a, v) <==> Live(s.facts, e, a, v) || Says(ds, s.schema, e, a, v))
  {
    hide Inv, CounterOf, Claimable, FitsOne, Unset, Validates, Finalize, UniqueOk, ChangesSchema, Preparable, Prepared,
         Applied, Prepare, SetTx, RetractsLive, TargetsOf, ValidOps, Live, Says, FactsOf, TxDatoms, SchemaGrows,
         Elements, OpsOf;
    UnsetFinal(s, key, ds);
    ClaimsOk(s, key, ds);
    PlainPrepared(s, key, ds);
    var b := Prepare(s, key, OpsOf(ds), []).value;
    s' := Commit(s, key, b);
    assert Step(s, s', key, OpsOf(ds), [], error, Committed);
    hide Step;
    StepKeeps(s, s', key, OpsOf(ds), [], error, Committed);
    StepGrowsSchema(s, s', key, OpsOf(ds), [], error, Committed);
    forall e: I64, a: I64, v | !IsTxAttr(a)
      ensures Live(s'.facts, e, a, v) <==> Live(s.facts, e, a, v) || Says(ds, s.schema, e, a, v)
    {
      LiveAsserted(s, key, ds, e, a, v);
    }
  }
}
