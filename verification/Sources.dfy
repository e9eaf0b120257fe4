/** Where the datoms of a transaction come from: allocated ids, stored entities and new ids. */
module Sources {
  import opened Octets
  import opened Values
  import opened Facts
  import opened Model
  import opened Partition
  import opened Expand
  import opened Upsert
  import opened Evolution
  import opened Labels
  import opened Tempids
  import opened Transact
  import opened Invariant

  // --- Entities --------------------------------------------------------------------------

  /** `e` was allocated before, or is new in the schema or user partition. */
  ghost predicate Known(pm: Counters, pm': Counters, e: I64) {
    || Contains(pm, e)
    || (!Contains(pm, e) && Contains(pm', e) && ExtractPartition(e) in {DB_PARTITION, USER_PARTITION})
  }

  lemma StoredContained(s: State, e: I64)
    requires Inv(s) && Stored(s.facts, e)
    ensures Contains(s.pm, e)
  {
    var a: I64, v :| Live(s.facts, e, a, v);
    var t: I64 :| LiveAt(s.facts, e, a, v, t);
    assert ReferencedFact(Fact(e, a, v, t, Assert), s.schema, s.pm);
  }

  lemma NewIdKnown(pm: Counters, txId: nat, pm': Counters, p: nat, e: I64)
    requires SetTx(pm, txId).Ok? && NewId(SetTx(pm, txId).value, pm', p, e) && p in {DB_PARTITION, USER_PARTITION}
    ensures Known(pm, pm', e)
  {
  }

  /** Every tempid of the input ends at a known entity. */
  lemma SigmaKnown(s: State, input: seq<TDatom>, txId: nat, t: TempId)
    requires Inv(s) && SetTx(s.pm, txId).Ok? && ResolveTempids(input, s.schema, s.facts, SetTx(s.pm, txId).value).Ok?
    requires t in AllTempIds(input)
    ensures var res := ResolveTempids(input, s.schema, s.facts, SetTx(s.pm, txId).value).value;
            t in res.sigma && Known(s.pm, res.pm, res.sigma[t])
  {
    hide *;
    var pm := SetTx(s.pm, txId).value;
    var res := ResolveTempids(input, s.schema, s.facts, pm).value;
    InvInverse(s);
    ResolutionConserves(input, s.schema, s.facts, pm);
    var bound, allocs, given := ResolutionAssigns(input, s.schema, s.facts, pm);
    if t in given {
      var p := GivenNew(input, EntityTempIds(allocs), IdentityEdges(allocs, s.schema), given, pm, res.pm, t);
      NewIdKnown(s.pm, txId, res.pm, p, given[t]);
    } else {
      BoundStored(s.facts, bound, t);
      StoredContained(s, bound[t]);
      KnownOld(s.pm, res.pm, bound[t]);
    }
  }

  lemma BoundStored(facts: set<Fact>, bound: TempMap, t: TempId)
    requires AllStored(facts, bound) && t in bound
    ensures Stored(facts, bound[t])
  {
  }

  lemma KnownOld(pm: Counters, pm': Counters, e: I64)
    requires Contains(pm, e)
    ensures Known(pm, pm', e)
  {
  }

  lemma GivenNew(datoms: seq<TDatom>, tempids: set<TempId>, edges: Edges, m: TempMap, pm: Counters, pm': Counters,
                 t: TempId) returns (p: nat)
    requires OnePerClass(datoms, tempids, edges, m, pm, pm') && t in m
    ensures p in {DB_PARTITION, USER_PARTITION} && NewId(pm, pm', p, m[t])
  {
    p := if IdentInClass(datoms, tempids, edges, t) then DB_PARTITION else USER_PARTITION;
  }

  // --- Datoms ----------------------------------------------------------------------------

  /** Every datom of the output is an input datom under the assignment. */
  lemma OutputSource(input: seq<TDatom>, schema: Schema, facts: set<Fact>, pm: Counters, d: Datom) returns (i: TDatom)
    requires Inverse(schema) && ResolveTempids(input, schema, facts, pm).Ok? &&
             d in ResolveTempids(input, schema, facts, pm).value.datoms
    ensures i in input && d == Img(ResolveTempids(input, schema, facts, pm).value.sigma, i)
  {
    hide ResolveTempids, Inverse;
    ResolutionConserves(input, schema, facts, pm);
    var res := ResolveTempids(input, schema, facts, pm).value;
    assert d in multiset(res.datoms) + multiset(Datoms(res.dropped));
    assert d in multiset(Imgs(res.sigma, input));
    var j: nat :| j < |input| && Imgs(res.sigma, input)[j] == d;
    i := input[j];
  }

  lemma TempIdOf(input: seq<TDatom>, i: TDatom, t: TempId)
    requires i in input && t in TempIdsOf(i)
    ensures t in AllTempIds(input)
  {
  }

  /** The entity, and the reference if there is one, are known. */
  ghost predicate KnownDatom(d: Datom, schema: Schema, pm: Counters, pm': Counters) {
    && GetAttribute(schema, d.a).Some? && Known(pm, pm', d.e)
    && (IsRef(d.a, schema) && d.v.Long? ==> Known(pm, pm', d.v.i))
  }

  lemma OutputKnown(s: State, input: seq<TDatom>, txId: nat, d: Datom)
    requires Inv(s) && SetTx(s.pm, txId).Ok? && ResolveTempids(input, s.schema, s.facts, SetTx(s.pm, txId).value).Ok?
    requires Allocated(input, s.schema, s.pm)
    requires d in ResolveTempids(input, s.schema, s.facts, SetTx(s.pm, txId).value).value.datoms
    ensures KnownDatom(d, s.schema, s.pm, ResolveTempids(input, s.schema, s.facts, SetTx(s.pm, txId).value).value.pm)
  {
    hide Inv, SetTx, ResolveTempids, Known, GetAttribute, Contains;
    InvInverse(s);
    var pm := SetTx(s.pm, txId).value;
    var res := ResolveTempids(input, s.schema, s.facts, pm).value;
    var i := OutputSource(input, s.schema, s.facts, pm, d);
    assert AllocatedDatom(i, s.schema, s.pm);
    if i.e.Temp? {
      TempIdOf(input, i, i.e.t);
      SigmaKnown(s, input, txId, i.e.t);
    } else {
      KnownOld(s.pm, res.pm, i.e.id);
    }
    if i.v.TempRef? {
      TempIdOf(input, i, i.v.t);
      SigmaKnown(s, input, txId, i.v.t);
    } else if IsRef(d.a, s.schema) && d.v.Long? {
      KnownOld(s.pm, res.pm, i.v.v.i);
    }
  }

  lemma ExpandedAllocated(ops: seq<TxOp>, rets: seq<TDatom>, schema: Schema, facts: set<Fact>, pm: Counters)
    requires ExpandTx(ops, rets, schema, facts, pm).Ok?
    ensures Allocated(ExpandTx(ops, rets, schema, facts, pm).value, schema, pm)
  {
  }

  // --- References ------------------------------------------------------------------------

  predicate RefTypedX(d: DatomX, schema: Schema) { d.v.XTempRef? ==> IsRef(d.a, schema) }

  predicate RefTyped(d: TDatom, schema: Schema) { d.v.TempRef? ==> IsRef(d.a, schema) }

  ghost predicate RefsTyped(ds: seq<DatomX>, schema: Schema) {
    forall d :: d in ds ==> RefTypedX(d, schema)
  }

  lemma {:induction false} FieldsRefTyped(e: EntityX, fields: seq<Field>, schema: Schema)
    requires ExpandFields(e, fields, schema).Ok?
    ensures RefsTyped(ExpandFields(e, fields, schema).value, schema)
  {
    if fields != [] { FieldsRefTyped(e, fields[1..], schema); }
  }

  lemma OpRefTyped(op: TxOp, schema: Schema, x: Expanded)
    requires RefsTyped(x.datoms, schema) && ExpandOp(op, schema, x).Ok?
    ensures RefsTyped(ExpandOp(op, schema, x).value.datoms, schema)
  {
    hide ExpandFields, ResolveDbId, ResolveEntityRef, AutoTempId;
    if op.Put? {
      var id := DbId(op.fields);
      var e := if id.Some? then ResolveDbId(id.value, schema) else Ok(XTemp(AutoTempId(x.autos)));
      FieldsRefTyped(e.value, op.fields, schema);
    }
  }

  lemma {:induction false} OpsRefTyped(ops: seq<TxOp>, schema: Schema, x: Expanded)
    requires RefsTyped(x.datoms, schema) && ExpandOps(ops, schema, x).Ok?
    ensures RefsTyped(ExpandOps(ops, schema, x).value.datoms, schema)
  {
    if ops != [] {
      hide ExpandOp, RefTypedX;
      OpRefTyped(ops[0], schema, x);
      OpsRefTyped(ops[1..], schema, ExpandOp(ops[0], schema, x).value);
    }
  }

  lemma {:induction false} XsRefTyped(ds: seq<DatomX>, schema: Schema, facts: set<Fact>)
    requires RefsTyped(ds, schema) && ResolveXs(ds, schema, facts).Ok?
    ensures forall d :: d in ResolveXs(ds, schema, facts).value ==> RefTyped(d, schema)
  {
    if ds != [] {
      hide LookupRef;
      assert ds[0] in ds && RefTypedX(ds[0], schema);
      forall d | d in ds[1..] ensures RefTypedX(d, schema) { assert d in ds; }
      XsRefTyped(ds[1..], schema, facts);
    }
  }

  /** A tempid in value position stands for a reference. */
  lemma InputRefTyped(ops: seq<TxOp>, rets: seq<TDatom>, targets: set<I64>, schema: Schema, facts: set<Fact>,
                      pm: Counters)
    requires RetractsLive(rets, targets, schema, facts) && ExpandTx(ops, rets, schema, facts, pm).Ok?
    ensures forall d :: d in ExpandTx(ops, rets, schema, facts, pm).value ==> RefTyped(d, schema)
  {
    hide TargetsNamed, Allocated, ExpandOps, ResolveXs, ResolveTargets, RefTypedX, IsRef, Live;
    var x := ExpandOps(ops, schema, Expanded([], [], 0)).value;
    OpsRefTyped(ops, schema, Expanded([], [], 0));
    XsRefTyped(x.datoms, schema, facts);
  }

  // --- Values ----------------------------------------------------------------------------

  ghost predicate ValidRef(r: EntityRef) { r.RefLookup? ==> Valid(r.v) }

  ghost predicate ValidOp(op: TxOp) {
    match op
    case Put(fields) => forall f :: f in fields ==> Valid(f.v)
    case Add(e, a, v) => ValidRef(e) && Valid(v)
    case Remove(e, a, v) => ValidRef(e) && Valid(v)
    case RetractEntity(e) => ValidRef(e)
    case Erase(e) => ValidRef(e)
  }

  /** The values of a transaction are values of the data model: map keys in order, at every depth. */
  ghost predicate ValidOps(ops: seq<TxOp>) {
    forall op :: op in ops ==> ValidOp(op)
  }

  ghost predicate ValidX(d: DatomX) { d.v.XData? ==> Valid(d.v.v) }

  ghost predicate ValidXs(ds: seq<DatomX>) {
    forall d :: d in ds ==> ValidX(d)
  }

  ghost predicate ValidT(d: TDatom) { d.v.Data? ==> Valid(d.v.v) }

  lemma {:induction false} FieldsValid(e: EntityX, fields: seq<Field>, schema: Schema)
    requires ExpandFields(e, fields, schema).Ok? && forall f :: f in fields ==> Valid(f.v)
    ensures ValidXs(ExpandFields(e, fields, schema).value)
  {
    hide Valid, ResolveValue;
    if fields != [] {
      forall f | f in fields[1..] ensures Valid(f.v) { assert f in fields; }
      FieldsValid(e, fields[1..], schema);
      assert fields[0] in fields;
      if fields[0].a != KW_DB_ID { ValueValid(fields[0].v, fields[0].a, schema); }
    }
  }

  lemma ValueValid(v: DataType, a: Keyword, schema: Schema)
    requires ResolveValue(v, a, schema).Ok? && Valid(v)
    ensures var r := ResolveValue(v, a, schema).value;
            r.XData? ==> Valid(r.v)
  {
  }

  lemma {:induction false} OpsValid(ops: seq<TxOp>, schema: Schema, x: Expanded)
    requires ValidOps(ops) && ValidXs(x.datoms) && ExpandOps(ops, schema, x).Ok?
    ensures ValidXs(ExpandOps(ops, schema, x).value.datoms)
  {
    if ops != [] {
      hide ExpandOp, ValidOp, ValidX;
      assert ops[0] in ops;
      OpValid(ops[0], schema, x);
      forall op | op in ops[1..] ensures ValidOp(op) { assert op in ops; }
      OpsValid(ops[1..], schema, ExpandOp(ops[0], schema, x).value);
    }
  }

  lemma OpValid(op: TxOp, schema: Schema, x: Expanded)
    requires ValidOp(op) && ValidXs(x.datoms) && ExpandOp(op, schema, x).Ok?
    ensures ValidXs(ExpandOp(op, schema, x).value.datoms)
  {
    hide Valid, ResolveValue, ExpandFields, ResolveDbId, ResolveEntityRef, AutoTempId;
    match op
    case Put(fields) =>
      var id := DbId(fields);
      var e := if id.Some? then ResolveDbId(id.value, schema) else Ok(XTemp(AutoTempId(x.autos)));
      FieldsValid(e.value, fields, schema);
    case Add(r, a, v) => ValueValid(v, a, schema);
    case Remove(r, a, v) => ValueValid(v, a, schema);
    case RetractEntity(r) =>
    case Erase(_) =>
  }

  lemma {:induction false} XsValid(ds: seq<DatomX>, schema: Schema, facts: set<Fact>)
    requires ValidXs(ds) && ResolveXs(ds, schema, facts).Ok?
    ensures forall d :: d in ResolveXs(ds, schema, facts).value ==> ValidT(d)
  {
    if ds != [] {
      assert ds[0] in ds;
      XValid(ds[0], schema, facts);
      hide ResolveX, ValidX, ValidT;
      forall d | d in ds[1..] ensures ValidX(d) { assert d in ds; }
      XsValid(ds[1..], schema, facts);
    }
  }

  lemma XValid(d: DatomX, schema: Schema, facts: set<Fact>)
    requires ValidX(d) && ResolveX(d, schema, facts).Ok?
    ensures ValidT(ResolveX(d, schema, facts).value)
  {
    hide LookupRef;
  }

  lemma RetsValid(s: State, rets: seq<TDatom>, targets: set<I64>)
    requires Inv(s) && RetractsLive(rets, targets, s.schema, s.facts)
    ensures forall d :: d in rets ==> ValidT(d)
  {
    forall d | d in rets ensures ValidT(d) {
      assert d == TDatom(Id(d.e.id), d.a, Data(d.v.v), Retract);
      var a: I64 :| a in s.schema.entids && s.schema.entids[a] == d.a && Live(s.facts, d.e.id, a, d.v.v);
      LiveValid(s, d.e.id, a, d.v.v);
    }
  }

  lemma LiveValid(s: State, e: I64, a: I64, v: DataType)
    requires Inv(s) && Live(s.facts, e, a, v)
    ensures Valid(v)
  {
    hide Valid, Matches;
    var t: I64 :| LiveAt(s.facts, e, a, v, t);
    assert TypedFact(Fact(e, a, v, t, Assert), s.schema);
  }

  /** The values of an expanded transaction are valid. */
  lemma InputValid(s: State, ops: seq<TxOp>, rets: seq<TDatom>)
    requires Inv(s) && ValidOps(ops) && RetractsLive(rets, TargetsOf(ops, s.schema, s.facts), s.schema, s.facts)
    requires ExpandTx(ops, rets, s.schema, s.facts, s.pm).Ok?
    ensures forall d :: d in ExpandTx(ops, rets, s.schema, s.facts, s.pm).value ==> ValidT(d)
  {
    hide Inv, ValidOps, ValidT, RetractsLive, TargetsNamed, Allocated, ExpandOps, ResolveXs, ResolveTargets, TargetsOf,
         ValidX;
    var x := ExpandOps(ops, s.schema, Expanded([], [], 0)).value;
    OpsValid(ops, s.schema, Expanded([], [], 0));
    XsValid(x.datoms, s.schema, s.facts);
    RetsValid(s, rets, TargetsOf(ops, s.schema, s.facts));
  }
}
