/** Every step keeps the invariants, so every state of every run has them. */
module Runs {
  import opened Octets
  import opened Values
  import opened Facts
  import opened Model
  import opened Partition
  import opened SchemaRules
  import opened Expand
  import opened Upsert
  import opened Evolution
  import opened Tempids
  import opened Transact
  import opened Invariant
  import opened Sources
  import opened Preserve
  import opened SchemaKept

  // --- Counters --------------------------------------------------------------------------

  lemma ClassPartsTwo(datoms: seq<TDatom>, labels: map<TempId, nat>)
    ensures forall p :: p in ClassPartitions(datoms, labels) ==> p in {DB_PARTITION, USER_PARTITION}
  {
  }

  /** Resolution only advances the schema and user counters, within their range. */
  lemma ResolutionCounters(input: seq<TDatom>, schema: Schema, facts: set<Fact>, pm: Counters)
    requires ResolveTempids(input, schema, facts, pm).Ok? && forall p :: p in pm ==> pm[p] <= COUNTER_SPAN
    ensures var out := ResolveTempids(input, schema, facts, pm).value.pm;
            && Grows(pm, out) && CounterOf(out, TX_PARTITION) == CounterOf(pm, TX_PARTITION)
            && (forall p :: p in out ==> out[p] <= COUNTER_SPAN && (p in pm || p in {DB_PARTITION, USER_PARTITION}))
  {
    hide ResolveTempids, AllocateAll, ClassPartitions, LabelsOf, CounterOf;
    var st := ResolutionUnfolds(input, schema, facts, pm);
    var labels := LabelsOf(st.allocs, schema);
    var parts := ClassPartitions(input, labels);
    ClassPartsTwo(input, labels);
    AllocateGrows(parts, pm);
    AllocateBound(parts, pm);
    assert TX_PARTITION !in parts;
  }

  lemma TxCounters(pm: Counters, txId: nat)
    requires CountersOk(pm) && SetTx(pm, txId).Ok? && txId < COUNTER_SPAN
    ensures var out := SetTx(pm, txId).value;
            Grows(pm, out) && CountersOk(out) && CounterOf(out, TX_PARTITION) == txId + 1 &&
              Contains(out, TxEid(txId)) && !Contains(pm, TxEid(txId))
    ensures forall p :: p in {DB_PARTITION, USER_PARTITION} ==> CounterOf(SetTx(pm, txId).value, p) == CounterOf(pm, p)
  {
  }

  lemma CountersGrow(pm: Counters, out: Counters)
    requires CountersOk(pm) && Grows(pm, out) && CounterOf(out, TX_PARTITION) == CounterOf(pm, TX_PARTITION)
    requires forall p :: p in out ==> out[p] <= COUNTER_SPAN && (p in pm || p in {DB_PARTITION, USER_PARTITION})
    ensures CountersOk(out)
  {
    assert out.Keys == pm.Keys;
  }

  lemma BeforeTx(facts: set<Fact>, pm: Counters, txId: nat)
    requires InTime(facts, pm) && SetTx(pm, txId).Ok? && txId < COUNTER_SPAN
    ensures Before(facts, TxEid(txId)) && TxEid(txId) == COUNTER_SPAN + txId
  {
  }

  lemma InTimeKept(facts: set<Fact>, pm: Counters, added: set<Fact>, txId: nat, out: Counters)
    requires InTime(facts, pm) && CounterOf(pm, TX_PARTITION) <= txId < COUNTER_SPAN &&
             CounterOf(out, TX_PARTITION) == txId + 1
    requires forall f :: f in added ==> f.tx == TxEid(txId)
    ensures InTime(facts + added, out)
  {
  }

  // --- A commit is ready to be written ---------------------------------------------------

  ghost predicate StepContext(s: State, key: TxKey, ops: seq<TxOp>, rets: seq<TDatom>) {
    && Inv(s) && ValidOps(ops) && RetractsLive(rets, TargetsOf(ops, s.schema, s.facts), s.schema, s.facts)
    && Prepare(s, key, ops, rets).Ok?
  }

  /** The counters after a commit. */
  lemma CommitCounters(s: State, key: TxKey, ops: seq<TxOp>, rets: seq<TDatom>, b: Batch, g: Stage)
    requires Inv(s) && Staged(s, key, ops, rets, b, g)
    ensures CountersOk(b.pm) && Grows(s.pm, b.pm) && Grows(g.pm, b.pm) && CounterOf(b.pm, TX_PARTITION) == key.txId + 1
    ensures Contains(b.pm, g.tx) && !Contains(s.pm, g.tx) && Before(s.facts, g.tx) &&
            CounterOf(s.pm, TX_PARTITION) <= key.txId
  {
    hide Inv, ExpandTx, ResolveTempids, Validates, Finalize, UniqueOk, Preparable, Prepared, Applied, ChangesSchema,
         TxDatoms, Contains;
    InvParts(s);
    TxCounters(s.pm, key.txId);
    ResolutionCounters(g.input, s.schema, s.facts, g.pm);
    CountersGrow(g.pm, b.pm);
    GrowsContains(g.pm, b.pm, g.tx);
    BeforeTx(s.facts, s.pm, key.txId);
  }

  lemma KnownContained(pm: Counters, pm': Counters, e: I64)
    requires Grows(pm, pm') && Known(pm, pm', e)
    ensures Contains(pm', e)
  {
  }

  lemma ResolvedSound(s: State, key: TxKey, ops: seq<TxOp>, rets: seq<TDatom>, b: Batch, g: Stage, d: Datom)
    requires StepContext(s, key, ops, rets) && Staged(s, key, ops, rets, b, g) && d in g.res.datoms
    ensures Sound(d, s.schema, b.pm) && Known(s.pm, b.pm, d.e)
  {
    hide Inv, ExpandTx, ResolveTempids, Validates, Finalize, UniqueOk, Preparable, Prepared, Applied, ChangesSchema,
         TxDatoms, Contains, Known, Prepare, RetractsLive, TargetsOf, ValidOps, Allocated, Valid, SetTx, IsRef;
    InvInverse(s);
    ExpandedAllocated(ops, rets, s.schema, s.facts, s.pm);
    CommitCounters(s, key, ops, rets, b, g);
    OutputKnown(s, g.input, key.txId, d);
    KnownContained(s.pm, b.pm, d.e);
    if IsRef(d.a, s.schema) && d.v.Long? { KnownContained(s.pm, b.pm, d.v.i); }
    var i := OutputSource(g.input, s.schema, s.facts, g.pm, d);
    InputValid(s, ops, rets);
    ImageValid(g.res.sigma, i);
  }

  lemma ImageValid(sigma: TempMap, i: TDatom)
    requires ValidT(i)
    ensures Valid(Img(sigma, i).v)
  {
  }

  lemma TxDatomsSound(s: State, key: TxKey, tx: I64, pm': Counters, error: Option<Octets>, d: Datom)
    requires Inv(s) && CountersOk(pm') && Contains(pm', tx) && d in TxDatoms(tx, key, error)
    ensures Sound(d, s.schema, pm') && WellTyped(d, s.schema) && d.e == tx && !IsSchemaAttr(d.a) &&
            !IsUnique(d, s.schema)
  {
    hide Inv, HasSystem, Inverse, GetAttribute, Contains, IsSchemaAttr, KW_TX_INSTANT, KW_TX_ID, KW_TX_RESULT,
         KW_TX_ERROR, CountersOk;
    InvParts(s);
    TxEntries(s.schema);
    TxNames();
    SystemContained(pm', TX_COMMITTED);
    SystemContained(pm', TX_ABORTED);
  }

  lemma SystemContained(pm: Counters, e: I64)
    requires CountersOk(pm) && 0 <= e < DB_FLOOR
    ensures Contains(pm, e)
  {
  }

  lemma TxEntries(schema: Schema)
    requires Inverse(schema) && HasSystem(schema)
    ensures GetAttribute(schema, KW_TX_INSTANT) == Some(AttrEntry(DB_TX_INSTANT, Attribute(VtInstant, false, None)))
    ensures GetAttribute(schema, KW_TX_ID) == Some(AttrEntry(DB_TX_ID, Attribute(VtLong, false, None)))
    ensures GetAttribute(schema, KW_TX_RESULT) == Some(AttrEntry(DB_TX_RESULT, Attribute(VtRef, false, None)))
    ensures GetAttribute(schema, KW_TX_ERROR) == Some(AttrEntry(DB_TX_ERROR, Attribute(VtString, false, None)))
  {
    assert SystemAttribute(DB_TX_INSTANT).Some? && SystemAttribute(DB_TX_ID).Some?;
    assert SystemAttribute(DB_TX_RESULT).Some? && SystemAttribute(DB_TX_ERROR).Some?;
  }

  lemma TxNames()
    ensures !IsSchemaAttr(KW_TX_INSTANT) && !IsSchemaAttr(KW_TX_ID) && !IsSchemaAttr(KW_TX_RESULT) &&
            !IsSchemaAttr(KW_TX_ERROR)
    ensures KW_TX_INSTANT != KW_TX_ID && KW_TX_INSTANT != KW_TX_RESULT && KW_TX_INSTANT != KW_TX_ERROR
  {
    assert |KW_IDENT.name| == 5 && |KW_VALUE_TYPE.name| == 9 && |KW_CARDINALITY.name| == 11 && |KW_UNIQUE.name| == 6;
    assert |KW_TX_INSTANT.name| == 9 && |KW_TX_ID.name| == 4 && |KW_TX_RESULT.name| == 8 && |KW_TX_ERROR.name| == 7;
    assert KW_VALUE_TYPE.name[0] != KW_TX_INSTANT.name[0];
  }

  lemma CommitReady(s: State, key: TxKey, ops: seq<TxOp>, rets: seq<TDatom>, b: Batch, g: Stage)
    requires StepContext(s, key, ops, rets) && Staged(s, key, ops, rets, b, g)
    ensures Ready(s, g.ds, b.datoms, g.tx, b.pm) && SchemaChange(s, g.ds, b.datoms, b.schema)
  {
    hide Inv, ExpandTx, ResolveTempids, Validates, Finalize, UniqueOk, Preparable, Prepared, Applied, ChangesSchema,
         TxDatoms, Contains, Known, Prepare, RetractsLive, TargetsOf, ValidOps, SetTx, Sound, WellTyped, Grows,
         CountersOk, CounterOf, IsSchemaAttr, IsUnique;
    CommitCounters(s, key, ops, rets, b, g);
    forall d | d in g.ds ensures Sound(d, s.schema, b.pm) {
      if d in g.res.datoms {
        ResolvedSound(s, key, ops, rets, b, g, d);
      } else {
        TxDatomsSound(s, key, g.tx, b.pm, None, d);
      }
    }
  }

  // --- Every new id is written -----------------------------------------------------------

  lemma FreshKept(s: State, ds: seq<Datom>, d: Datom)
    requires d in ds && !Contains(s.pm, d.e)
    ensures d in Finalize(ds, s.schema, s.facts, s.pm)
  {
  }

  lemma NewIdWritten(s: State, key: TxKey, ops: seq<TxOp>, rets: seq<TDatom>, b: Batch, g: Stage, p: nat, c: nat)
    requires Inv(s) && Staged(s, key, ops, rets, b, g) && p in {DB_PARTITION, USER_PARTITION}
    requires CounterOf(s.pm, p) <= c < CounterOf(b.pm, p) && c < COUNTER_SPAN
    ensures HasFact(FactsOf(b.datoms, s.schema, g.tx), MakeEntityId(p, c))
  {
    hide Inv, ExpandTx, ResolveTempids, Validates, Finalize, UniqueOk, Preparable, Prepared, Applied, ChangesSchema,
         TxDatoms, AllocateAll, ClassPartitions, LabelsOf, SetTx;
    InvParts(s);
    TxCounters(s.pm, key.txId);
    var e := MakeEntityId(p, c);
    var st := ResolutionUnfolds(g.input, s.schema, s.facts, g.pm);
    AllocateCovers(ClassPartitions(g.input, LabelsOf(st.allocs, s.schema)), g.pm, p, c);
    NewIdsWritten(g.input, s.schema, s.facts, g.pm, e);
    var d :| d in g.res.datoms && d.e == e && d.op.Assert?;
    FreshKept(s, g.ds, d);
    assert Fact(d.e, AttrId(d, s.schema), d.v, g.tx, d.op) in FactsOf(b.datoms, s.schema, g.tx);
  }

  lemma AllWrittenKept(s: State, key: TxKey, ops: seq<TxOp>, rets: seq<TDatom>, b: Batch, g: Stage)
    requires Inv(s) && Staged(s, key, ops, rets, b, g)
    ensures AllWritten(s.facts + FactsOf(b.datoms, s.schema, g.tx), b.pm)
  {
    hide Inv, Staged, FactsOf, MakeEntityId;
    InvParts(s);
    var added := FactsOf(b.datoms, s.schema, g.tx);
    forall p: nat, c: nat | p in {DB_PARTITION, USER_PARTITION} && Floor(p) <= c < CounterOf(b.pm, p) &&
      c < COUNTER_SPAN
      ensures HasFact(s.facts + added, MakeEntityId(p, c))
    {
      if c < CounterOf(s.pm, p) {
        assert HasFact(s.facts, MakeEntityId(p, c));
      } else {
        NewIdWritten(s, key, ops, rets, b, g, p, c);
      }
      HasFactMore(s.facts, added, MakeEntityId(p, c));
    }
  }

  lemma HasFactMore(facts: set<Fact>, added: set<Fact>, e: I64)
    requires HasFact(facts, e) || HasFact(added, e)
    ensures HasFact(facts + added, e)
  {
    if HasFact(facts, e) {
      var f :| f in facts && f.e == e;
      assert f in facts + added;
    } else {
      var f :| f in added && f.e == e;
      assert f in facts + added;
    }
  }

  // --- The transaction entity ------------------------------------------------------------

  lemma FactContained(s: State, f: Fact)
    requires Inv(s) && f in s.facts
    ensures Contains(s.pm, f.e)
  {
    assert ReferencedFact(f, s.schema, s.pm);
  }

  /** The only time stored for the new transaction entity is its own. */
  lemma TimeOfTx(s: State, key: TxKey, pre: seq<Datom>, error: Option<Octets>, final: set<Datom>, tx: I64,
                 pm': Counters, f: Fact)
    requires Inv(s) && Ready(s, pre + TxDatoms(tx, key, error), final, tx, pm')
    requires !Contains(s.pm, tx) && forall d :: d in pre ==> d.e != tx
    requires f in s.facts + FactsOf(final, s.schema, tx) && f.e == tx && f.a == DB_TX_INSTANT
    ensures f.v == Instant(key.systemTime)
  {
    hide Inv, Ready, Contains, TxDatoms, Finalize, Validates, UniqueOk, Has, AttrId, Live, GetAttribute, Inverse,
         HasSystem;
    InvParts(s);
    if f in s.facts {
      FactContained(s, f);
    } else {
      FactIff(final, s.schema, tx, f.e, f.a, f.v, f.op);
      assert f == Fact(f.e, f.a, f.v, tx, f.op);
      var ds := pre + TxDatoms(tx, key, error);
      var d := HasMeans(s, ds, final, tx, pm', f.e, f.a, f.v, f.op);
      ReadyGrows(s, ds, final, tx, pm');
      if d !in ds {
        RetractFrom(s, ds, d);
        UncontainedNotLive(s, d.e, AttrId(d, s.schema), d.v);
      } else {
        TxEntries(s.schema);
        InstantName(s.schema, d.a);
        OneInstant(tx, key, error, d);
      }
    }
  }

  lemma InstantName(schema: Schema, k: Keyword)
    requires Inverse(schema) && HasSystem(schema) && DB_TX_INSTANT in schema.entids && schema.entids[DB_TX_INSTANT] == k
    ensures k == KW_TX_INSTANT
  {
    assert SystemAttribute(DB_TX_INSTANT).Some?;
  }

  lemma OneInstant(tx: I64, key: TxKey, error: Option<Octets>, d: Datom)
    requires d in TxDatoms(tx, key, error) && d.a == KW_TX_INSTANT
    ensures d.v == Instant(key.systemTime)
  {
    TxNames();
    hide KW_TX_INSTANT, KW_TX_ID, KW_TX_RESULT, KW_TX_ERROR;
  }

  lemma TimeWritten(s: State, key: TxKey, pre: seq<Datom>, error: Option<Octets>, final: set<Datom>, tx: I64,
                    pm': Counters)
    requires Inv(s) && Ready(s, pre + TxDatoms(tx, key, error), final, tx, pm') && !Contains(s.pm, tx)
    ensures Fact(tx, DB_TX_INSTANT, Instant(key.systemTime), tx, Assert) in FactsOf(final, s.schema, tx)
  {
    hide Inv, Ready, Contains, Finalize, GetAttribute, Inverse, HasSystem;
    InvParts(s);
    TxEntries(s.schema);
    var ds := pre + TxDatoms(tx, key, error);
    var d := Datom(tx, KW_TX_INSTANT, Instant(key.systemTime), Assert);
    assert d == TxDatoms(tx, key, error)[0] && d in ds;
    ReadyGrows(s, ds, final, tx, pm');
    FreshKept(s, ds, d);
  }

  lemma LatestKept(s: State, key: TxKey, pre: seq<Datom>, error: Option<Octets>, final: set<Datom>, tx: I64, s': State)
    requires Inv(s) && Ready(s, pre + TxDatoms(tx, key, error), final, tx, s'.pm)
    requires 0 <= key.txId < COUNTER_SPAN && tx == TxEid(key.txId) && CounterOf(s'.pm, TX_PARTITION) == key.txId + 1
    requires !Contains(s.pm, tx) && forall d :: d in pre ==> d.e != tx
    requires s'.facts == s.facts + FactsOf(final, s.schema, tx) && s'.latest == key
    ensures LatestStored(s')
  {
    hide Inv, Ready, Contains, TxDatoms, FactsOf;
    TimeWritten(s, key, pre, error, final, tx, s'.pm);
    forall f | f in s'.facts && f.e == tx && f.a == DB_TX_INSTANT ensures f.v == Instant(key.systemTime) {
      TimeOfTx(s, key, pre, error, final, tx, s'.pm, f);
    }
  }

  // --- Commit and abort ------------------------------------------------------------------

  /** What every write keeps. */
  lemma WriteKeeps(s: State, ds: seq<Datom>, final: set<Datom>, tx: I64, s': State)
    requires Inv(s) && Ready(s, ds, final, tx, s'.pm) && SchemaChange(s, ds, final, s'.schema)
    requires s'.facts == s.facts + FactsOf(final, s.schema, tx)
    requires CountersOk(s'.pm) && AllWritten(s'.facts, s'.pm) && LatestStored(s') && InTime(s'.facts, s'.pm)
    ensures Inv(s')
  {
    hide Ready, Inverse, HasSystem, Mirrors, Typed, Referenced, SingleValued, SingleOwner, CountersOk, AllWritten,
         LatestStored, InTime, SchemaChange, FactsOf, SchemaGrows;
    assert Inv(s);
    SchemaInvariant(s, ds, final, tx, s'.pm, s'.schema);
    TypedKept(s, ds, final, tx, s'.pm, s'.schema);
    SingleValuedKept(s, ds, final, tx, s'.pm, s'.schema);
    SingleOwnerKept(s, ds, final, tx, s'.pm, s'.schema);
  }

  lemma KnownNotTx(pm: Counters, pm': Counters, e: I64, txId: nat)
    requires Known(pm, pm', e) && txId < COUNTER_SPAN && !Contains(pm, TxEid(txId))
    ensures e != TxEid(txId)
  {
  }

  lemma CommitKeeps(s: State, key: TxKey, ops: seq<TxOp>, rets: seq<TDatom>)
    requires StepContext(s, key, ops, rets) && 0 <= key.txId < COUNTER_SPAN
    ensures Inv(Commit(s, key, Prepare(s, key, ops, rets).value))
  {
    hide Inv, Staged, Prepare, ValidOps, RetractsLive, TargetsOf, Ready, FactsOf, CountersOk, AllWritten, LatestStored,
         InTime, TxDatoms, CounterOf, Contains, Known, SchemaChange, Sound;
    var b := Prepare(s, key, ops, rets).value;
    var s' := Commit(s, key, b);
    var g := CommitStages(s, key, ops, rets);
    CommitCounters(s, key, ops, rets, b, g);
    CommitReady(s, key, ops, rets, b, g);
    StagedDatoms(s, key, ops, rets, b, g);
    AllWrittenKept(s, key, ops, rets, b, g);
    forall d | d in g.res.datoms ensures d.e != g.tx {
      ResolvedSound(s, key, ops, rets, b, g, d);
      KnownNotTx(s.pm, b.pm, d.e, key.txId);
    }
    LatestKept(s, key, g.res.datoms, None, b.datoms, g.tx, s');
    InvParts(s);
    TxOfFacts(b.datoms, s.schema, g.tx);
    InTimeKept(s.facts, s.pm, FactsOf(b.datoms, s.schema, g.tx), key.txId, b.pm);
    WriteKeeps(s, g.ds, b.datoms, g.tx, s');
  }

  lemma StagedDatoms(s: State, key: TxKey, ops: seq<TxOp>, rets: seq<TDatom>, b: Batch, g: Stage)
    requires Staged(s, key, ops, rets, b, g)
    ensures g.ds == g.res.datoms + TxDatoms(g.tx, key, None) && 0 <= key.txId < COUNTER_SPAN && g.tx == TxEid(key.txId)
  {
  }

  lemma TxOfFacts(ds: set<Datom>, schema: Schema, tx: I64)
    ensures forall f :: f in FactsOf(ds, schema, tx) ==> f.tx == tx
  {
  }

  /** The datoms of a transaction entity have four different attributes. */
  lemma TxDatomsValidate(s: State, key: TxKey, tx: I64, pm': Counters, error: Option<Octets>)
    requires Inv(s) && CountersOk(pm') && Contains(pm', tx)
    ensures Validates(TxDatoms(tx, key, error), s.schema)
  {
    hide Inv, CountersOk, Contains, WellTyped, Conflict, TxDatoms;
    var ds := TxDatoms(tx, key, error);
    forall i | 0 <= i < |ds| ensures WellTyped(ds[i], s.schema) { TxDatomsSound(s, key, tx, pm', error, ds[i]); }
    InvParts(s);
    forall i, j | 0 <= i < j < |ds|
      ensures !Conflict(ds[i], ds[j], s.schema)
    {
      TxNoConflict(s.schema, key, tx, error, i, j);
    }
  }

  lemma TxNoConflict(schema: Schema, key: TxKey, tx: I64, error: Option<Octets>, i: nat, j: nat)
    requires Inverse(schema) && HasSystem(schema) && i < j < |TxDatoms(tx, key, error)|
    ensures !Conflict(TxDatoms(tx, key, error)[i], TxDatoms(tx, key, error)[j], schema)
  {
    hide Inverse, HasSystem, GetAttribute, KW_TX_INSTANT, KW_TX_ID, KW_TX_RESULT, KW_TX_ERROR;
    TxEntries(schema);
  }

  lemma TxUniqueOk(s: State, key: TxKey, tx: I64, pm': Counters, error: Option<Octets>)
    requires Inv(s) && CountersOk(pm') && Contains(pm', tx)
    ensures UniqueOk(Elements(TxDatoms(tx, key, error)), s.schema, s.facts)
  {
    hide Inv, CountersOk, Contains, TxDatoms, IsUnique, Hit, Released;
    forall d | d in Elements(TxDatoms(tx, key, error))
      ensures !IsUnique(d, s.schema)
    {
      TxDatomsSound(s, key, tx, pm', error, d);
    }
  }

  lemma TxFinalize(s: State, key: TxKey, tx: I64, error: Option<Octets>)
    requires !Contains(s.pm, tx)
    ensures Finalize(TxDatoms(tx, key, error), s.schema, s.facts, s.pm) == Elements(TxDatoms(tx, key, error))
  {
    hide Contains;
    var ds := TxDatoms(tx, key, error);
    assert forall d :: d in ds ==> d.e == tx && Replaced(d, s.schema, s.facts, s.pm).None?;
  }

  lemma AbortReady(s: State, key: TxKey, error: Octets)
    requires Inv(s) && Abort(s, key, error).Ok?
    ensures var tx := TxEid(key.txId);
            var ds := TxDatoms(tx, key, Some(error));
            && Ready(s, ds, Elements(ds), tx, Abort(s, key, error).value.pm) &&
               SchemaChange(s, ds, Elements(ds), s.schema)
  {
    hide Inv, CountersOk, TxDatoms, Finalize, Validates, UniqueOk, Sound, Contains, Grows, CounterOf, WellTyped,
         IsSchemaAttr, IsUnique;
    InvParts(s);
    var tx := TxEid(key.txId);
    var pm := SetTx(s.pm, key.txId).value;
    var ds := TxDatoms(tx, key, Some(error));
    TxCounters(s.pm, key.txId);
    BeforeTx(s.facts, s.pm, key.txId);
    TxDatomsValidate(s, key, tx, pm, Some(error));
    TxUniqueOk(s, key, tx, pm, Some(error));
    TxFinalize(s, key, tx, Some(error));
    forall d | d in ds
      ensures Sound(d, s.schema, pm) && !IsSchemaAttr(d.a)
    {
      TxDatomsSound(s, key, tx, pm, Some(error), d);
    }
  }

  lemma AbortKeeps(s: State, key: TxKey, error: Octets)
    requires Inv(s) && Abort(s, key, error).Ok?
    ensures Inv(Abort(s, key, error).value)
  {
    hide Inv, Ready, TxDatoms, FactsOf, CountersOk, LatestStored, InTime, Contains, SchemaChange, Elements, CounterOf,
         Grows;
    InvParts(s);
    AbortReady(s, key, error);
    var s' := Abort(s, key, error).value;
    var tx := TxEid(key.txId);
    var ds := TxDatoms(tx, key, Some(error));
    TxCounters(s.pm, key.txId);
    assert [] + ds == ds;
    LatestKept(s, key, [], Some(error), Elements(ds), tx, s');
    TxOfFacts(Elements(ds), s.schema, tx);
    SetTxMeans(s.pm, key.txId);
    InTimeKept(s.facts, s.pm, FactsOf(Elements(ds), s.schema, tx), key.txId, s'.pm);
    AllWrittenAbort(s.facts, s.pm, FactsOf(Elements(ds), s.schema, tx), s'.pm);
    WriteKeeps(s, ds, Elements(ds), tx, s');
  }

  lemma SetTxMeans(pm: Counters, txId: nat)
    requires SetTx(pm, txId).Ok?
    ensures CounterOf(pm, TX_PARTITION) <= txId
  {
  }

  lemma AllWrittenAbort(facts: set<Fact>, pm: Counters, added: set<Fact>, pm': Counters)
    requires AllWritten(facts, pm) && forall p ::
             p in {DB_PARTITION, USER_PARTITION} ==> CounterOf(pm', p) == CounterOf(pm, p)
    ensures AllWritten(facts + added, pm')
  {
    hide MakeEntityId, HasFact;
    forall p: nat, c: nat | p in {DB_PARTITION, USER_PARTITION} && Floor(p) <= c < CounterOf(pm', p) && c < COUNTER_SPAN
      ensures HasFact(facts + added, MakeEntityId(p, c))
    {
      assert HasFact(facts, MakeEntityId(p, c));
      HasFactMore(facts, added, MakeEntityId(p, c));
    }
  }

  // --- Runs ------------------------------------------------------------------------------

  /** Every step keeps the invariants, whatever the operations. */
  lemma StepKeeps(s: State, s': State, key: TxKey, ops: seq<TxOp>, rets: seq<TDatom>, error: Octets, out: Outcome)
    requires Inv(s) && ValidOps(ops) && Step(s, s', key, ops, rets, error, out)
    ensures Inv(s')
  {
    hide Inv, Prepare, Abort, Commit, RetractsLive, TargetsOf, ValidOps;
    match out
    case Committed => CommitKeeps(s, key, ops, rets);
    case Aborted => AbortKeeps(s, key, error);
    case Failed =>
    case Halted =>
  }

  /** A log record and what became of it. */
  datatype Event = Event(key: TxKey, ops: seq<TxOp>, rets: seq<TDatom>, error: Octets, out: Outcome)

  ghost predicate IsRun(states: seq<State>, events: seq<Event>) {
    && |states| == |events| + 1
    && forall i :: 0 <= i < |events| ==> ValidOps(events[i].ops) && StepOf(states[i], states[i + 1], events[i])
  }

  ghost predicate StepOf(s: State, s': State, v: Event) {
    Step(s, s', v.key, v.ops, v.rets, v.error, v.out)
  }

  /** From a state with the invariants, every state of every run has them. */
  lemma {:induction false} RunKeeps(states: seq<State>, events: seq<Event>, i: nat)
    requires IsRun(states, events) && Inv(states[0]) && i < |states|
    ensures Inv(states[i])
  {
    hide *;
    if i > 0 {
      RunAt(states, events, i - 1);
      RunKeeps(states, events, i - 1);
      StepOfKeeps(states[i - 1], states[i], events[i - 1]);
    }
  }

  lemma RunAt(states: seq<State>, events: seq<Event>, i: nat)
    requires IsRun(states, events) && i + 1 < |states|
    ensures i < |events| && ValidOps(events[i].ops) && StepOf(states[i], states[i + 1], events[i])
  {
    hide StepOf, ValidOps;
  }

  lemma RunExtends(states: seq<State>, events: seq<Event>, s': State, v: Event)
    requires IsRun(states, events) && ValidOps(v.ops) && StepOf(states[|states| - 1], s', v)
    ensures IsRun(states + [s'], events + [v]) && states != []
  {
    hide StepOf, ValidOps;
    var more, all := states + [s'], events + [v];
    forall i | 0 <= i < |all| ensures ValidOps(all[i].ops) && StepOf(more[i], more[i + 1], all[i]) {
      if i < |events| { assert all[i] == events[i] && more[i] == states[i] && more[i + 1] == states[i + 1]; }
    }
  }

  lemma StepOfKeeps(s: State, s': State, v: Event)
    requires Inv(s) && ValidOps(v.ops) && StepOf(s, s', v)
    ensures Inv(s')
  {
    hide Inv, Step, ValidOps;
    StepKeeps(s, s', v.key, v.ops, v.rets, v.error, v.out);
  }

  /** The schema only grows. */
  lemma StepGrowsSchema(s: State, s': State, key: TxKey, ops: seq<TxOp>, rets: seq<TDatom>, error: Octets, out: Outcome)
    requires Inv(s) && ValidOps(ops) && Step(s, s', key, ops, rets, error, out)
    ensures SchemaGrows(s.schema, s'.schema)
  {
    hide Inv, Prepare, RetractsLive, TargetsOf, ValidOps, Staged, Ready, SchemaChange, SchemaGrows, FactsOf, TxDatoms;
    GrowsSelf(s.schema);
    if out.Committed? {
      var b := Prepare(s, key, ops, rets).value;
      var g := CommitStages(s, key, ops, rets);
      CommitReady(s, key, ops, rets, b, g);
      SchemaInvariant(s, g.ds, b.datoms, g.tx, b.pm, b.schema);
    }
  }

  // --- What a step adds ------------------------------------------------------------------

  /** A written transaction has a new, later id and adds only facts of its own; the others add nothing. */
  lemma StepAdvances(s: State, s': State, key: TxKey, ops: seq<TxOp>, rets: seq<TDatom>, error: Octets, out: Outcome)
    requires Inv(s) && Step(s, s', key, ops, rets, error, out)
    ensures out.Committed? || out.Aborted? ==>
      && s.latest.txId < key.txId < COUNTER_SPAN && s'.latest == key
      && s.facts <= s'.facts && (forall f :: f in s'.facts - s.facts ==> f.tx == TxEid(key.txId))
      && Before(s.facts, TxEid(key.txId))
    ensures out.Failed? || out.Halted? ==> s' == s
  {
    hide Inv, Prepare, FactsOf, RetractsLive, TargetsOf, TxDatoms, CounterOf;
    if out.Committed? || out.Aborted? {
      InvParts(s);
      if out.Committed? {
        var b := Prepare(s, key, ops, rets).value;
        PrepareMonotone(s, key, ops, rets);
        TxOfFacts(b.datoms, s.schema, TxEid(key.txId));
      } else {
        TxOfFacts(Elements(TxDatoms(TxEid(key.txId), key, Some(error))), s.schema, TxEid(key.txId));
      }
      SetTxMeans(s.pm, key.txId);
      BeforeTx(s.facts, s.pm, key.txId);
    }
  }

  lemma PrepareMonotone(s: State, key: TxKey, ops: seq<TxOp>, rets: seq<TDatom>)
    requires Prepare(s, key, ops, rets).Ok?
    ensures 0 <= key.txId < COUNTER_SPAN && SetTx(s.pm, key.txId).Ok?
  {
    hide ExpandTx, ResolveTempids, Validates, Finalize, UniqueOk, ChangesSchema, Preparable, Prepared, Applied,
         TxDatoms, SetTx;
  }

  /**
   * The frame of an abort: schema and both allocation counters stay, no other entity gains or
   * loses a live datom, and the transaction entity gets exactly its four.
   */
  lemma AbortFrame(s: State, key: TxKey, error: Octets, e: I64, a: I64, v: DataType)
    requires Inv(s) && Abort(s, key, error).Ok?
    ensures var s', tx := Abort(s, key, error).value, TxEid(key.txId);
            && s'.schema == s.schema
            && s'.pm[DB_PARTITION] == s.pm[DB_PARTITION] && s'.pm[USER_PARTITION] == s.pm[USER_PARTITION]
            && (e != tx ==> (Live(s'.facts, e, a, v) <==> Live(s.facts, e, a, v)))
            && (Live(s'.facts, tx, a, v) <==>
                  || (a == DB_TX_INSTANT && v == Instant(key.systemTime)) || (a == DB_TX_ID && v == Long(key.txId))
                  || (a == DB_TX_RESULT && v == Long(TX_ABORTED)) || (a == DB_TX_ERROR && v == String(error)))
  {
    hide Inv, Ready, TxDatoms, FactsOf, Live, Has, Contains, Elements, CounterOf, Grows, SchemaChange, CountersOk;
    InvParts(s);
    AbortReady(s, key, error);
    var tx := TxEid(key.txId);
    var ds := TxDatoms(tx, key, Some(error));
    TxCounters(s.pm, key.txId);
    ReadyGrows(s, ds, Elements(ds), tx, Abort(s, key, error).value.pm);
    LiveNow(s, Elements(ds), tx, e, a, v);
    LiveNow(s, Elements(ds), tx, tx, a, v);
    UncontainedNotLive(s, tx, a, v);
    TxHas(s.schema, key, tx, error, e, a, v, Assert);
    TxHas(s.schema, key, tx, error, e, a, v, Retract);
    TxHas(s.schema, key, tx, error, tx, a, v, Assert);
    SameCounters(s.pm, key.txId);
  }

  lemma SameCounters(pm: Counters, txId: nat)
    requires CountersOk(pm) && SetTx(pm, txId).Ok?
    ensures var out := SetTx(pm, txId).value;
            DB_PARTITION in out && USER_PARTITION in out && DB_PARTITION in pm && USER_PARTITION in pm &&
            out[DB_PARTITION] == pm[DB_PARTITION] && out[USER_PARTITION] == pm[USER_PARTITION]
  {
  }

  lemma TxHas(schema: Schema, key: TxKey, tx: I64, error: Octets, e: I64, a: I64, v: DataType, op: Op)
    requires Inverse(schema) && HasSystem(schema)
    ensures Has(Elements(TxDatoms(tx, key, Some(error))), schema, e, a, v, op) <==>
            e == tx && op.Assert? &&
            (|| (a == DB_TX_INSTANT && v == Instant(key.systemTime)) || (a == DB_TX_ID && v == Long(key.txId))
             || (a == DB_TX_RESULT && v == Long(TX_ABORTED)) || (a == DB_TX_ERROR && v == String(error)))
  {
    hide Inverse, HasSystem, GetAttribute, KW_TX_INSTANT, KW_TX_ID, KW_TX_RESULT, KW_TX_ERROR;
    TxEntries(schema);
    var ds := TxDatoms(tx, key, Some(error));
    assert ds[0] in ds && ds[1] in ds && ds[2] in ds && ds[3] in ds;
    assert forall d :: d in Elements(ds) <==> d == ds[0] || d == ds[1] || d == ds[2] || d == ds[3];
  }
}
