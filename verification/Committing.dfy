/** When a transaction commits, told from its operations, the store, the schema and the counters. */
module Committing {
  import opened Octets
  import opened Values
  import opened Facts
  import opened Model
  import opened Partition
  import opened SchemaRules
  import opened Expand
  import opened Upsert
  import opened Tempids
  import opened Transact
  import opened Invariant
  import opened Sources
  import opened Preserve
  import opened Runs
  import opened Asserting
  import opened Transfers
  import opened Performing
  import opened Operations
  import opened Outcomes
  import opened Resolvable
  import opened SchemaAccepted

  // --- The condition ---------------------------------------------------------------------

  /** Well typed and compatible, no unique value with two owners afterwards, no forbidden change of the schema. */
  ghost predicate Passes(s: State, ds: seq<Datom>) {
    Validates(ds, s.schema) && Undisputed(s, ds) && SchemaPasses(s, ds)
  }

  /** The datoms of the transaction, before and after its tempids are resolved, in turn. */
  ghost predicate Resolves(s: State, key: TxKey, ops: seq<TxOp>, rets: seq<TDatom>)
    requires 0 <= key.txId
  {
    && SetTx(s.pm, key.txId).Ok? && Accepted(s, ops)
    && var input := ExpandTx(ops, rets, s.schema, s.facts, s.pm);
       input.Ok? && CanResolve(input.value, s.schema, s.facts)
  }

  ghost predicate HasRoomFor(s: State, key: TxKey, ops: seq<TxOp>, rets: seq<TDatom>)
    requires 0 <= key.txId && Resolves(s, key, ops, rets)
  {
    Roomy(ExpandTx(ops, rets, s.schema, s.facts, s.pm).value, s.schema, s.facts, SetTx(s.pm, key.txId).value)
  }

  // --- The resolved datoms ---------------------------------------------------------------

  /** The resolved datoms are about entities and references that are allocated by then, never the transaction's own. */
  lemma OutputSound(s: State, key: TxKey, ops: seq<TxOp>, rets: seq<TDatom>, input: seq<TDatom>, res: Resolution,
                    d: Datom)
    requires Inv(s) && ValidOps(ops) && RetractsLive(rets, TargetsOf(ops, s.schema, s.facts), s.schema, s.facts)
    requires InTurn(s, key) && ResolvedWith(s, key, ops, rets, input, res) && d in res.datoms
    ensures Grows(s.pm, res.pm) && CountersOk(res.pm) && Contains(res.pm, TxEid(key.txId))
    ensures Sound(d, s.schema, res.pm) && d.e != TxEid(key.txId)
  {
    hide Inv, ExpandTx, ResolveTempids, Contains, Known, RetractsLive, TargetsOf, ValidOps, Allocated, Valid, SetTx,
         IsRef, CountersOk, Grows, CounterOf, TxEid, Img;
    OutputCounters(s, key, ops, rets, input, res);
    InvInverse(s);
    ExpandedAllocated(ops, rets, s.schema, s.facts, s.pm);
    OutputKnown(s, input, key.txId, d);
    KnownContained(s.pm, res.pm, d.e);
    if IsRef(d.a, s.schema) && d.v.Long? { KnownContained(s.pm, res.pm, d.v.i); }
    var i := OutputSource(input, s.schema, s.facts, SetTx(s.pm, key.txId).value, d);
    InputValid(s, ops, rets);
    ImageValid(res.sigma, i);
    TxFacts(s, key);
    KnownNotTx(s.pm, res.pm, d.e, key.txId);
  }

  lemma OutputCounters(s: State, key: TxKey, ops: seq<TxOp>, rets: seq<TDatom>, input: seq<TDatom>, res: Resolution)
    requires Inv(s) && InTurn(s, key) && ResolvedWith(s, key, ops, rets, input, res)
    ensures Grows(s.pm, res.pm) && CountersOk(res.pm) && Contains(res.pm, TxEid(key.txId))
  {
    hide Inv, ExpandTx, ResolveTempids, Contains, TxEid;
    InvParts(s);
    var pm := SetTx(s.pm, key.txId).value;
    TxCounters(s.pm, key.txId);
    ResolutionCounters(input, s.schema, s.facts, pm);
    CountersGrow(pm, res.pm);
    GrowsContains(pm, res.pm, TxEid(key.txId));
  }

  /** The datoms of the transaction entity neither help nor hurt the others. */
  lemma ValidatesWithTx(s: State, key: TxKey, ds: seq<Datom>)
    requires Inv(s) && InTurn(s, key) && forall d :: d in ds ==> d.e != TxEid(key.txId)
    ensures Validates(WithTx(ds, key), s.schema) <==> Validates(ds, s.schema)
  {
    hide Inv, CounterOf, CountersOk, Contains, TxDatoms, WellTyped, IsSchemaAttr, IsUnique, SetTx, Conflict;
    TxFacts(s, key);
    var rest := TxDatoms(TxEid(key.txId), key, None);
    TxDatomsValidate(s, key, TxEid(key.txId), SetTx(s.pm, key.txId).value, None);
    var all := ds + rest;
    assert forall i :: 0 <= i < |ds| ==> all[i] == ds[i];
    assert forall i :: 0 <= i < |rest| ==> all[|ds| + i] == rest[i];
    if Validates(ds, s.schema) {
      forall i | 0 <= i < |all| ensures WellTyped(all[i], s.schema) {
        if i >= |ds| { assert all[i] == rest[i - |ds|]; }
      }
      forall i, j | 0 <= i < j < |all| ensures !Conflict(all[i], all[j], s.schema) {
        if i >= |ds| {
          assert all[i] == rest[i - |ds|] && all[j] == rest[j - |ds|];
        } else if j >= |ds| {
          assert all[i] in ds && all[j] in rest;
          TxIs(s, key, all[j]);
          OtherEntity(all[i], all[j], s.schema);
        }
      }
    }
  }

  lemma SchemaWithTx(s: State, key: TxKey, ds: seq<Datom>)
    requires Inv(s) && InTurn(s, key)
    ensures SchemaPasses(s, WithTx(ds, key)) <==> SchemaPasses(s, ds)
  {
    hide Inv, CounterOf, TxDatoms, IsSchemaAttr, WellTyped, IsUnique, Settled, Introduces, KW_IDENT, KW_VALUE_TYPE,
         KW_CARDINALITY;
    var all := WithTx(ds, key);
    forall d | d in TxDatoms(TxEid(key.txId), key, None) ensures !IsSchemaAttr(d.a) { TxIs(s, key, d); }
    DefinitionNames();
    forall e: I64, k | IsSchemaAttr(k) ensures Gets(s, all, e, k) <==> Gets(s, ds, e, k) {
      if Gets(s, ds, e, k) {
        var d :| d in ds && d.e == e && d.a == k && Introduces(s, d);
        assert d in all;
      }
    }
  }

  /** The checks on the resolved datoms, exactly. */
  lemma PassesIff(s: State, key: TxKey, ops: seq<TxOp>, rets: seq<TDatom>, input: seq<TDatom>, res: Resolution)
    requires Inv(s) && ValidOps(ops) && RetractsLive(rets, TargetsOf(ops, s.schema, s.facts), s.schema, s.facts)
    requires InTurn(s, key) && ResolvedWith(s, key, ops, rets, input, res)
    ensures var ds, final := WithTx(res.datoms, key), Finalize(WithTx(res.datoms, key), s.schema, s.facts, s.pm);
            Validates(ds, s.schema) && UniqueOk(final, s.schema, s.facts) &&
              (ChangesSchema(ds) ==> Preparable(final, s.schema))
            <==> Passes(s, res.datoms)
  {
    hide Inv, ValidOps, RetractsLive, TargetsOf, CounterOf, ResolvedWith, Validates, Finalize, UniqueOk, ChangesSchema,
         Preparable, Undisputed, SchemaPasses, TxDatoms, Sound, Grows, CountersOk, Contains, Before, Written,
         UniqueAttrs;
    var ds := WithTx(res.datoms, key);
    forall d | d in res.datoms ensures d.e != TxEid(key.txId) { OutputSound(s, key, ops, rets, input, res, d); }
    ValidatesWithTx(s, key, res.datoms);
    SchemaPassesIff(s, ds);
    SchemaWithTx(s, key, res.datoms);
    UndisputedWithTx(s, key, res.datoms);
    if Validates(ds, s.schema) {
      OutputWritable(s, key, ops, rets, input, res);
      UniqueOkIff(s, ds, TxEid(key.txId), res.pm);
    }
  }

  lemma OutputWritable(s: State, key: TxKey, ops: seq<TxOp>, rets: seq<TDatom>, input: seq<TDatom>, res: Resolution)
    requires Inv(s) && ValidOps(ops) && RetractsLive(rets, TargetsOf(ops, s.schema, s.facts), s.schema, s.facts)
    requires InTurn(s, key) && ResolvedWith(s, key, ops, rets, input, res) &&
             Validates(WithTx(res.datoms, key), s.schema)
    ensures Writable(s, WithTx(res.datoms, key), TxEid(key.txId), res.pm)
  {
    hide Inv, ValidOps, RetractsLive, TargetsOf, CounterOf, ResolvedWith, Validates, TxDatoms, Sound, Grows, CountersOk,
         Contains, Before, WellTyped, IsSchemaAttr, IsUnique;
    TxFacts(s, key);
    OutputCounters(s, key, ops, rets, input, res);
    forall d | d in WithTx(res.datoms, key) ensures Sound(d, s.schema, res.pm) {
      if d in res.datoms {
        OutputSound(s, key, ops, rets, input, res, d);
      } else {
        TxDatomsSound(s, key, TxEid(key.txId), res.pm, None, d);
      }
    }
  }

  // --- Commit ----------------------------------------------------------------------------

  lemma PrepareUnfolds(s: State, key: TxKey, ops: seq<TxOp>, rets: seq<TDatom>)
    requires 0 <= key.txId < COUNTER_SPAN && SetTx(s.pm, key.txId).Ok?
    ensures var input := ExpandTx(ops, rets, s.schema, s.facts, s.pm);
            && (input.Err? ==> Prepare(s, key, ops, rets) == Err(input.halt))
            && (input.Ok? ==>
                 var res := ResolveTempids(input.value, s.schema, s.facts, SetTx(s.pm, key.txId).value);
                 && (res.Err? ==> Prepare(s, key, ops, rets) == Err(res.halt))
                 && (res.Ok? ==>
                      var ds := WithTx(res.value.datoms, key);
                      var final := Finalize(ds, s.schema, s.facts, s.pm);
                      && (Prepare(s, key, ops, rets).Ok? <==>
                           Validates(ds, s.schema) && UniqueOk(final, s.schema, s.facts) &&
                           (ChangesSchema(ds) ==> Preparable(final, s.schema)))
                      && (Prepare(s, key, ops, rets).Err? ==> Prepare(s, key, ops, rets) == Err(false))))
  {
    hide ExpandTx, ResolveTempids, Validates, Finalize, UniqueOk, ChangesSchema, Preparable, Prepared, Applied,
         TxDatoms, SetTx;
  }

  /**
   * When a transaction commits, exactly: its id is next or later, its operations are accepted, its
   * tempids can be resolved with room in the counters, and the resolved datoms pass. It stops the
   * indexer exactly if its id or the ids it needs do not fit, and aborts otherwise.
   */
  lemma CommitsIff(s: State, key: TxKey, ops: seq<TxOp>, rets: seq<TDatom>)
    requires Inv(s) && ValidOps(ops) && RetractsLive(rets, TargetsOf(ops, s.schema, s.facts), s.schema, s.facts)
    ensures Prepare(s, key, ops, rets).Ok? <==>
            && 0 <= key.txId < COUNTER_SPAN && Resolves(s, key, ops, rets) && HasRoomFor(s, key, ops, rets)
            && exists input, res :: ResolvedWith(s, key, ops, rets, input, res) && Passes(s, res.datoms)
    ensures Prepare(s, key, ops, rets) == Err(true) <==>
            !(0 <= key.txId < COUNTER_SPAN) || (Resolves(s, key, ops, rets) && !HasRoomFor(s, key, ops, rets))
  {
    hide Inv, ValidOps, RetractsLive, TargetsOf, CounterOf, SetTx, ExpandTx, ResolveTempids, Accepted, CanResolve,
         Roomy, Passes, Validates, Finalize, UniqueOk, ChangesSchema, Preparable, TxDatoms, Prepare;
    if 0 <= key.txId < COUNTER_SPAN {
      if SetTx(s.pm, key.txId).Ok? {
        PrepareUnfolds(s, key, ops, rets);
        NextTurn(s, key);
        ExpansionMeans(s, ops, rets, TDatom(Id(0), KW_DB_ID, Data(Long(0)), Assert));
        var input := ExpandTx(ops, rets, s.schema, s.facts, s.pm);
        if input.Ok? {
          InvInverse(s);
          var pm := SetTx(s.pm, key.txId).value;
          ResolvesIff(input.value, s.schema, s.facts, pm);
          var res := ResolveTempids(input.value, s.schema, s.facts, pm);
          if res.Ok? { PassesIff(s, key, ops, rets, input.value, res.value); }
        }
      } else {
        PrepareLate(s, key, ops, rets);
      }
    } else {
      PrepareOut(s, key, ops, rets);
    }
  }

  lemma NextTurn(s: State, key: TxKey)
    requires 0 <= key.txId < COUNTER_SPAN
    ensures SetTx(s.pm, key.txId).Ok? <==> InTurn(s, key)
  {
  }

  lemma PrepareLate(s: State, key: TxKey, ops: seq<TxOp>, rets: seq<TDatom>)
    requires 0 <= key.txId < COUNTER_SPAN && SetTx(s.pm, key.txId).Err?
    ensures Prepare(s, key, ops, rets) == Err(false)
  {
  }

  lemma PrepareOut(s: State, key: TxKey, ops: seq<TxOp>, rets: seq<TDatom>)
    requires !(0 <= key.txId < COUNTER_SPAN)
    ensures Prepare(s, key, ops, rets) == Err(true)
  {
  }
}
