/** The indexer: stored keys, counters and schema changed by one transaction after another. */
module Indexer {
  import opened Octets
  import opened Values
  import opened Facts
  import opened Model
  import opened Store
  import opened Lookup
  import opened Partition
  import opened SchemaRules
  import opened Expand
  import opened Expander
  import opened Tempids
  import opened Resolver
  import opened Transact
  import opened Validate
  import opened Stages
  import opened Invariant
  import opened Sources
  import opened Preserve
  import opened SchemaKept
  import opened Runs

  // --- The stages of a transaction, with their failures ----------------------------------

  /** After the tempids are resolved. */
  ghost predicate CheckStage(s: State, ds: seq<Datom>, pm: Counters, out: Result<Batch>) {
    if !Validates(ds, s.schema) then out == Err(false)
    else
      var final := Finalize(ds, s.schema, s.facts, s.pm);
      if !UniqueOk(final, s.schema, s.facts) then out == Err(false)
      else if !ChangesSchema(ds) then out == Ok(Batch(final, pm, s.schema))
      else if !Preparable(final, s.schema) then out == Err(false)
      else out == Ok(Batch(final, pm, Applied(s.schema, Prepared(final))))
  }

  ghost predicate ResolveStage(s: State, key: TxKey, input: seq<TDatom>, pm: Counters, out: Result<Batch>)
    requires 0 <= key.txId < COUNTER_SPAN
  {
    var res := ResolveTempids(input, s.schema, s.facts, pm);
    if res.Err? then out == Err(res.halt)
    else CheckStage(s, res.value.datoms + TxDatoms(TxEid(key.txId), key, None), res.value.pm, out)
  }

  lemma PrepareOutcome(s: State, key: TxKey, ops: seq<TxOp>, rets: seq<TDatom>)
    requires 0 <= key.txId < COUNTER_SPAN
    ensures var out, pm, input := Prepare(s, key, ops, rets), SetTx(s.pm, key.txId),
            ExpandTx(ops, rets, s.schema, s.facts, s.pm);
            if pm.Err? then out == Err(pm.halt)
            else if input.Err? then out == Err(input.halt)
            else ResolveStage(s, key, input.value, pm.value, out)
  {
    hide ExpandTx, ResolveTempids, Validates, Finalize, UniqueOk, ChangesSchema, Preparable, Prepared, Applied,
         TxDatoms, SetTx;
  }

  // --- What the methods need of a state --------------------------------------------------

  lemma StoreReady(s: State)
    requires Inv(s)
    ensures ValidValues(s.facts) && OneOwnerAll(s.facts, UniqueAttrs(s.schema)) && OneValueAll(s.facts, s.schema)
  {
    hide Mirrors, Inverse, HasSystem, Referenced, InTime, CountersOk, AllWritten, LatestStored, OneValue, OneOwner,
         UniqueAttrs, Valid, Matches;
    forall f | f in s.facts ensures Valid(f.v) { assert TypedFact(f, s.schema); }
  }

  lemma FinalOneEach(s: State, ds: seq<Datom>)
    requires Inv(s) && Validates(ds, s.schema)
    ensures OneEach(Finalize(ds, s.schema, s.facts, s.pm))
  {
    hide Inv, Finalize, Validates, GetAttribute;
    InvParts(s);
    var final := Finalize(ds, s.schema, s.facts, s.pm);
    forall d, f | d in final && f in final && IsSchemaAttr(d.a) && d.op.Assert? && f.op.Assert? && d.e == f.e &&
      d.a == f.a
      ensures d.v == f.v
    {
      AssertKept(s, ds, d);
      AssertKept(s, ds, f);
      SchemaAttrSingle(s.schema, d.a);
      OneAssertion(s.schema, ds, d, f);
    }
  }

  lemma SchemaAttrSingle(schema: Schema, k: Keyword)
    requires Inverse(schema) && HasSystem(schema) && IsSchemaAttr(k)
    ensures GetAttribute(schema, k).Some? && !GetAttribute(schema, k).value.attr.multival
  {
    hide Inverse, HasSystem, GetAttribute;
    SystemEntry(schema, DB_IDENT);
    SystemEntry(schema, DB_VALUE_TYPE);
    SystemEntry(schema, DB_CARDINALITY);
    SystemEntry(schema, DB_UNIQUE);
  }

  /** The names of an accepted delta differ. */
  lemma DeltaNamesDiffer(s: State, key: TxKey, ops: seq<TxOp>, rets: seq<TDatom>, d: I64, e: I64)
    requires StepContext(s, key, ops, rets)
    requires var u := Prepared(Prepare(s, key, ops, rets).value.datoms).idents;
             d in u && e in u && u[d] == u[e] && Preparable(Prepare(s, key, ops, rets).value.datoms, s.schema)
    ensures d == e
  {
    hide *;
    ContextInv(s, key, ops, rets);
    var b := Prepare(s, key, ops, rets).value;
    var g := CommitStages(s, key, ops, rets);
    CommitReady(s, key, ops, rets, b, g);
    NewNames(s, g.ds, b.datoms, g.tx, b.pm, d, e);
  }

  lemma FinalKnown(s: State, key: TxKey, ops: seq<TxOp>, rets: seq<TDatom>)
    requires StepContext(s, key, ops, rets)
    ensures AllKnown(Prepare(s, key, ops, rets).value.datoms, s.schema)
  {
    hide *;
    ContextInv(s, key, ops, rets);
    var b := Prepare(s, key, ops, rets).value;
    var g := CommitStages(s, key, ops, rets);
    CommitReady(s, key, ops, rets, b, g);
    forall d | d in b.datoms ensures GetAttribute(s.schema, d.a).Some? {
      FinalSound(s, g.ds, b.datoms, g.tx, b.pm, d);
      TypedKnown(d, s.schema);
    }
    KnownAllOf(b.datoms, s.schema);
  }

  lemma ContextInv(s: State, key: TxKey, ops: seq<TxOp>, rets: seq<TDatom>)
    requires StepContext(s, key, ops, rets)
    ensures Inv(s) && Prepare(s, key, ops, rets).Ok?
  {
    hide Inv, Prepare, RetractsLive, ValidOps, TargetsOf;
  }

  lemma TypedKnown(d: Datom, schema: Schema)
    requires WellTyped(d, schema)
    ensures GetAttribute(schema, d.a).Some?
  {
  }

  lemma KnownAllOf(ds: set<Datom>, schema: Schema)
    requires forall d :: d in ds ==> GetAttribute(schema, d.a).Some?
    ensures AllKnown(ds, schema)
  {
  }

  /** The keys stay those of the facts through a commit. */
  lemma CommitHolds(s: State, key: TxKey, ops: seq<TxOp>, rets: seq<TDatom>, db: set<Octets>)
    requires StepContext(s, key, ops, rets) && DbHolds(db, s.facts, UniqueAttrs(s.schema)) &&
             0 <= key.txId < COUNTER_SPAN
    ensures var b := Prepare(s, key, ops, rets).value;
            var added := FactsOf(b.datoms, s.schema, TxEid(key.txId));
            DbHolds(db + AllKeys(added, UniqueAttrs(s.schema)), s.facts + added, UniqueAttrs(b.schema))
  {
    hide *;
    ContextInv(s, key, ops, rets);
    var b := Prepare(s, key, ops, rets).value;
    var g := CommitStages(s, key, ops, rets);
    StagedDatoms(s, key, ops, rets, b, g);
    CommitReady(s, key, ops, rets, b, g);
    SchemaInvariant(s, g.ds, b.datoms, g.tx, b.pm, b.schema);
    TypedKept(s, g.ds, b.datoms, g.tx, b.pm, b.schema);
    var added := FactsOf(b.datoms, s.schema, g.tx);
    WrittenHolds(db, s.facts, added, UniqueAttrs(s.schema));
    UniqueGrows(s.schema, b.schema, s.facts + added);
    MoreUnique(db + AllKeys(added, UniqueAttrs(s.schema)), s.facts + added, UniqueAttrs(s.schema),
               UniqueAttrs(b.schema));
  }

  lemma UniqueGrows(schema: Schema, more: Schema, facts: set<Fact>)
    requires SchemaGrows(schema, more) && forall f :: f in facts ==> f.a in schema.attrs
    ensures UniqueAttrs(schema) <= UniqueAttrs(more) && forall f ::
            f in facts && f.a in UniqueAttrs(more) ==> f.a in UniqueAttrs(schema)
  {
  }

  /** The finalized datoms and the schema delta, if there is one. */
  datatype Checked = Checked(final: set<Datom>, update: Option<SchemaUpdate>)

  datatype Computed = Computed(checked: Checked, pm: Counters)

  ghost function CheckedDatoms(s: State, ds: seq<Datom>): Result<Checked> {
    if !Validates(ds, s.schema) then Err(false)
    else
      var final := Finalize(ds, s.schema, s.facts, s.pm);
      if !UniqueOk(final, s.schema, s.facts) then Err(false)
      else if !ChangesSchema(ds) then Ok(Checked(final, None))
      else if !Preparable(final, s.schema) then Err(false)
      else Ok(Checked(final, Some(Prepared(final))))
  }

  ghost function BatchOf(schema: Schema, c: Computed): Batch {
    Batch(c.checked.final, c.pm, if c.checked.update.Some? then Applied(schema, c.checked.update.value) else schema)
  }

  /** A delta is the one prepared from the finalized datoms. */
  ghost predicate DeltaIs(c: Checked, schema: Schema) {
    c.update.Some? ==> Preparable(c.final, schema) && c.update.value == Prepared(c.final)
  }

  lemma CheckedIs(s: State, ds: seq<Datom>, pm: Counters, out: Result<Batch>)
    requires CheckStage(s, ds, pm, out)
    ensures var r := CheckedDatoms(s, ds);
            && out == (if r.Ok? then Ok(BatchOf(s.schema, Computed(r.value, pm))) else Err(r.halt))
            && (r.Ok? ==> DeltaIs(r.value, s.schema))
  {
    hide Validates, Finalize, UniqueOk, ChangesSchema, Preparable, Prepared, Applied;
  }

  lemma {:induction false} Listing(s: set<TDatom>) returns (r: seq<TDatom>)
    ensures forall d :: d in r <==> d in s
  {
    if s == {} {
      r := [];
    } else {
      var d :| d in s;
      var rest := Listing(s - {d});
      r := [d] + rest;
    }
  }

  /** There is always a list of the retractions the entity scan would deliver. */
  lemma SomeRetractions(targets: set<I64>, schema: Schema, facts: set<Fact>) returns (rets: seq<TDatom>)
    ensures RetractsLive(rets, targets, schema, facts)
  {
    var all := set f | f in facts && f.e in targets && f.a in schema.entids && Live(facts, f.e, f.a, f.v) ::
                 TDatom(Id(f.e), schema.entids[f.a], Data(f.v), Retract);
    rets := Listing(all);
    forall e, k, v ensures TDatom(Id(e), k, Data(v), Retract) in rets <==>
      e in targets && exists a: I64 :: a in schema.entids && schema.entids[a] == k && Live(facts, e, a, v)
    {
      if e in targets {
        forall a: I64 | a in schema.entids && schema.entids[a] == k && Live(facts, e, a, v)
          ensures TDatom(Id(e), k, Data(v), Retract) in all
        {
          var t: I64 :| LiveAt(facts, e, a, v, t);
          assert Fact(e, a, v, t, Assert) in facts;
        }
      }
    }
  }

  lemma OutOfRange(s: State, key: TxKey, ops: seq<TxOp>, rets: seq<TDatom>)
    requires !(0 <= key.txId < COUNTER_SPAN)
    ensures Prepare(s, key, ops, rets) == Err(true)
  {
  }

  lemma ContextKeeps(s: State, key: TxKey, ops: seq<TxOp>, rets: seq<TDatom>)
    requires StepContext(s, key, ops, rets) && 0 <= key.txId < COUNTER_SPAN
    ensures Prepare(s, key, ops, rets).Ok? && Inv(Commit(s, key, Prepare(s, key, ops, rets).value))
  {
    hide *;
    ContextInv(s, key, ops, rets);
    CommitKeeps(s, key, ops, rets);
  }

  /** The keys stay those of the facts through an abort. */
  lemma AbortWrites(s: State, key: TxKey, error: Octets, db: set<Octets>)
    requires Inv(s) && Abort(s, key, error).Ok? && DbHolds(db, s.facts, UniqueAttrs(s.schema))
    ensures var tx := TxEid(key.txId);
            var ds := Elements(TxDatoms(tx, key, Some(error)));
            && AllKnown(ds, s.schema)
            && DbHolds(db + AllKeys(FactsOf(ds, s.schema, tx), UniqueAttrs(s.schema)), s.facts +
               FactsOf(ds, s.schema, tx), UniqueAttrs(s.schema))
  {
    hide Inv, DbHolds, UniqueAttrs, AllKeys, FactsOf, Ready, TxDatoms, SchemaChange, WellTyped, Elements;
    AbortReady(s, key, error);
    var tx := TxEid(key.txId);
    var ds := TxDatoms(tx, key, Some(error));
    forall d | d in Elements(ds) ensures GetAttribute(s.schema, d.a).Some? {
      FinalSound(s, ds, Elements(ds), tx, Abort(s, key, error).value.pm, d);
      TypedKnown(d, s.schema);
    }
    WrittenHolds(db, s.facts, FactsOf(Elements(ds), s.schema, tx), UniqueAttrs(s.schema));
  }

  class Indexer {
    var db: set<Octets>
    var counters: Counters
    var schema: Schema
    var latest: TxKey
    var sent: seq<Completion>
    ghost var facts: set<Fact>

    ghost function State(): State
      reads this
    {
      Transact.State(facts, counters, schema, latest)
    }

    /** The invariants hold and the keys are exactly those of the facts. */
    ghost predicate Valid()
      reads this
    {
      Inv(State()) && DbHolds(db, facts, UniqueAttrs(schema))
    }

    constructor (db: set<Octets>, counters: Counters, schema: Schema, latest: TxKey, ghost facts: set<Fact>)
      requires Inv(Transact.State(facts, counters, schema, latest)) && DbHolds(db, facts, UniqueAttrs(schema))
      ensures Valid() && State() == Transact.State(facts, counters, schema, latest) && sent == []
    {
      this.db, this.counters, this.schema, this.latest, this.facts, this.sent := db, counters, schema, latest, facts,
        [];
    }

    /** Steps 5 to 8 of a transaction: validate, rewrite, check uniqueness, prepare the schema delta. */
    method CheckDatoms(ds: seq<Datom>) returns (r: Result<Checked>)
      requires Valid()
      ensures r == CheckedDatoms(State(), ds)
    {
      hide Inv, Validates, Finalize, UniqueOk, ChangesSchema, Preparable, Prepared, DbHolds, UniqueAttrs, ValidValues,
           OneOwnerAll, OneValueAll;
      StoreReady(State());
      var changes := ValidateDatoms(ds, schema);
      if changes.Err? { return Err(false); }
      var final := FinalizeDatoms(ds, schema, counters, db, facts, UniqueAttrs(schema));
      var ok := ValidateUnique(final, schema, db, facts);
      if !ok { return Err(false); }
      if !changes.value { return Ok(Checked(final, None)); }
      FinalOneEach(State(), ds);
      var update := PrepareSchemaUpdate(final, schema);
      if update.Err? { return Err(false); }
      return Ok(Checked(final, Some(update.value)));
    }

    /** Steps 1 to 8 of `transact_tx_inner`; nothing is changed. */
    method ComputeTx(key: TxKey, ops: seq<TxOp>) returns (r: Result<Computed>, ghost rets: seq<TDatom>)
      requires Valid()
      ensures RetractsLive(rets, TargetsOf(ops, schema, facts), schema, facts)
      ensures Prepare(State(), key, ops, rets) == if r.Ok? then Ok(BatchOf(schema, r.value)) else Err(r.halt)
      ensures r.Ok? ==> DeltaIs(r.value.checked, schema)
    {
      hide Inv, DbHolds, UniqueAttrs, ValidValues, OneOwnerAll, OneValueAll, RetractsLive, TargetsOf, ExpandTx,
           ResolveTempids, Prepare, CheckStage, CheckedDatoms, BatchOf, TxDatoms, DeltaIs;
      ghost var s := State();
      StoreReady(s);
      if !(0 <= key.txId < COUNTER_SPAN) {
        rets := SomeRetractions(TargetsOf(ops, schema, facts), schema, facts);
        OutOfRange(s, key, ops, rets);
        r := Err(true);
        return;
      }
      var pending := new PartitionMap(counters);
      var ok := pending.SetTxCounter(key.txId);
      if !ok {
        rets := SomeRetractions(TargetsOf(ops, schema, facts), schema, facts);
        PrepareOutcome(s, key, ops, rets);
        r := Err(false);
        return;
      }
      ghost var pm := pending.counters;
      var input: Result<seq<TDatom>>;
      input, rets := ExpandTransaction(ops, schema, counters, db, facts);
      PrepareOutcome(s, key, ops, rets);
      if input.Err? { r := Err(input.halt); return; }
      var datoms := ResolveDatoms(input.value, schema, db, pending, facts);
      if datoms.Err? { r := Err(datoms.halt); return; }
      var ds := datoms.value + TxDatoms(TxEid(key.txId), key, None);
      var checked := CheckDatoms(ds);
      CheckedIs(s, ds, pending.counters, Prepare(s, key, ops, rets));
      if checked.Err? { r := Err(checked.halt); return; }
      r := Ok(Computed(checked.value, pending.counters));
    }

    /** Steps 9 and 10: write the keys, then take over counters and schema. */
    method CommitTx(key: TxKey, c: Computed, ghost ops: seq<TxOp>, ghost rets: seq<TDatom>)
      requires Valid() && StepContext(State(), key, ops, rets) && 0 <= key.txId < COUNTER_SPAN
      requires Prepare(State(), key, ops, rets).value == BatchOf(schema, c)
      requires DeltaIs(c.checked, schema)
      modifies this
      ensures Valid() && State() == Commit(old(State()), key, Prepare(old(State()), key, ops, rets).value)
      ensures sent == old(sent) + [Completion(key, Committed)]
    {
      hide Inv, DbHolds, UniqueAttrs, StepContext, Prepare, Preparable, Prepared, Applied, AllKeys, FactsOf, AllKnown;
      ghost var s := State();
      FinalKnown(s, key, ops, rets);
      CommitHolds(s, key, ops, rets, db);
      ContextKeeps(s, key, ops, rets);
      var keys := WriteIndexEntries(c.checked.final, schema, TxEid(key.txId));
      var next := schema;
      if c.checked.update.Some? {
        var u := c.checked.update.value;
        forall d, e | d in u.idents && e in u.idents && u.idents[d] == u.idents[e] ensures d == e {
          DeltaNamesDiffer(s, key, ops, rets, d, e);
        }
        next := ApplySchemaUpdate(schema, u);
      }
      db := db + keys.value;
      facts := facts + FactsOf(c.checked.final, schema, TxEid(key.txId));
      counters := c.pm;
      schema := next;
      latest := key;
      sent := sent + [Completion(key, Committed)];
    }

    /** `write_aborted_tx`: only the transaction entity is written. */
    method WriteAbortedTx(key: TxKey, error: Octets) returns (r: Result<()>)
      requires Valid()
      modifies this
      ensures Valid() && sent == old(sent)
      ensures var out := Abort(old(State()), key, error);
              if out.Ok? then r.Ok? && State() == out.value else r == Err(out.halt) && State() == old(State())
    {
      hide Inv, DbHolds, UniqueAttrs, AllKeys, FactsOf, AllKnown, TxDatoms, Elements;
      ghost var s := State();
      if !(0 <= key.txId < COUNTER_SPAN) { return Err(true); }
      var pending := new PartitionMap(counters);
      var ok := pending.SetTxCounter(key.txId);
      if !ok { return Err(false); }
      var tx := TxEid(key.txId);
      var ds := TxDatoms(tx, key, Some(error));
      AbortKeeps(s, key, error);
      AbortWrites(s, key, error, db);
      var keys := WriteIndexEntries(Elements(ds), schema, tx);
      db := db + keys.value;
      facts := facts + FactsOf(Elements(ds), schema, tx);
      counters := pending.counters;
      latest := key;
      return Ok(());
    }

    /**
     * `transact_tx`: a step of the specified machine, so every commit and abort keeps the
     * invariants and the keys, and every written or failed transaction is announced once.
     */
    method TransactTx(key: TxKey, ops: seq<TxOp>, error: Octets) returns (out: Outcome, ghost rets: seq<TDatom>)
      requires Valid() && ValidOps(ops)
      modifies this
      ensures Valid() && Step(old(State()), State(), key, ops, rets, error, out)
      ensures sent == if out.Halted? then old(sent) else old(sent) + [Completion(key, out)]
    {
      hide Inv, DbHolds, UniqueAttrs, Prepare, Commit, Abort, RetractsLive, TargetsOf, BatchOf, ValidOps, DeltaIs;
      ghost var s := State();
      var r: Result<Computed>;
      r, rets := ComputeTx(key, ops);
      if r.Ok? {
        PrepareMonotone(s, key, ops, rets);
        CommitTx(key, r.value, ops, rets);
        return Committed, rets;
      }
      if r.halt { return Halted, rets; }
      var aborted := WriteAbortedTx(key, error);
      if aborted.Ok? {
        sent := sent + [Completion(key, Aborted)];
        return Aborted, rets;
      }
      if aborted.halt { return Halted, rets; }
      sent := sent + [Completion(key, Failed)];
      return Failed, rets;
    }
  }
}
