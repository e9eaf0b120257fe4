/** What every state of an indexer satisfies. */
module Invariant {
  import opened Octets
  import opened Values
  import opened Facts
  import opened Model
  import opened Partition
  import opened SchemaRules
  import opened Expand
  import opened Upsert
  import opened Tempids
  import opened Transact

  // --- The invariants --------------------------------------------------------------------

  /** Every fact has a named attribute of the schema and a value of its type. */
  ghost predicate Typed(facts: set<Fact>, schema: Schema) {
    forall f :: f in facts ==> TypedFact(f, schema)
  }

  ghost predicate TypedFact(f: Fact, schema: Schema) {
    f.a in schema.attrs && f.a in schema.entids && Matches(schema.attrs[f.a].valueType, f.v) && Valid(f.v)
  }

  /** Every entity and every reference of a fact is an allocated id. */
  ghost predicate Referenced(facts: set<Fact>, schema: Schema, pm: Counters) {
    forall f :: f in facts ==> ReferencedFact(f, schema, pm)
  }

  ghost predicate ReferencedFact(f: Fact, schema: Schema, pm: Counters) {
    Contains(pm, f.e) && (f.a in schema.attrs && schema.attrs[f.a].valueType.VtRef? && f.v.Long? ==>
      Contains(pm, f.v.i))
  }

  /** Facts belong to transactions before the transaction counter. */
  ghost predicate InTime(facts: set<Fact>, pm: Counters) {
    forall f :: f in facts ==> f.tx < COUNTER_SPAN + CounterOf(pm, TX_PARTITION)
  }

  /** One live value per entity and single-valued attribute. */
  ghost predicate SingleValued(facts: set<Fact>, schema: Schema) {
    forall a :: a in schema.attrs && !schema.attrs[a].multival ==> OneValue(facts, a)
  }

  /** One live owner per unique attribute and value that equals itself. */
  ghost predicate SingleOwner(facts: set<Fact>, schema: Schema) {
    forall a :: a in UniqueAttrs(schema) ==> OneOwner(facts, a)
  }

  /** The value the schema tables give to a schema attribute of `e`. */
  function SchemaValue(schema: Schema, e: I64, a: I64): Option<DataType> {
    if a == DB_IDENT then (if e in schema.entids then Some(Keyword(schema.entids[e])) else None)
    else if e !in schema.attrs then None
    else if a == DB_VALUE_TYPE then Some(Long(TypeId(schema.attrs[e].valueType)))
    else if a == DB_CARDINALITY then Some(Long(CardinalityId(schema.attrs[e].multival)))
    else if a == DB_UNIQUE && schema.attrs[e].unique.Some? then Some(Long(UniqueId(schema.attrs[e].unique.value)))
    else None
  }

  /** The schema tables say exactly what the live schema datoms say. */
  ghost predicate Mirrors(facts: set<Fact>, schema: Schema) {
    forall e: I64, a: I64, v ::
      DB_IDENT <= a <= DB_UNIQUE ==> (Live(facts, e, a, v) <==> SchemaValue(schema, e, a) == Some(v))
  }

  function SystemAttribute(a: I64): Option<(Keyword, Attribute)> {
    if a == DB_IDENT then Some((KW_IDENT, Attribute(VtKeyword, false, Some(UniqueIdentity))))
    else if a == DB_VALUE_TYPE then Some((KW_VALUE_TYPE, Attribute(VtRef, false, None)))
    else if a == DB_CARDINALITY then Some((KW_CARDINALITY, Attribute(VtRef, false, None)))
    else if a == DB_UNIQUE then Some((KW_UNIQUE, Attribute(VtRef, false, None)))
    else if a == DB_TX_INSTANT then Some((KW_TX_INSTANT, Attribute(VtInstant, false, None)))
    else if a == DB_TX_ID then Some((KW_TX_ID, Attribute(VtLong, false, None)))
    else if a == DB_TX_RESULT then Some((KW_TX_RESULT, Attribute(VtRef, false, None)))
    else if a == DB_TX_ERROR then Some((KW_TX_ERROR, Attribute(VtString, false, None)))
    else None
  }

  /** The attributes of the bootstrap are there and unchanged. */
  ghost predicate HasSystem(schema: Schema) {
    forall a: I64 :: SystemAttribute(a).Some? ==>
      a in schema.entids && a in schema.attrs &&
      schema.entids[a] == SystemAttribute(a).value.0 && schema.attrs[a] == SystemAttribute(a).value.1
  }

  const DB_FLOOR: nat := 1000

  ghost predicate CountersOk(pm: Counters) {
    && pm.Keys == {DB_PARTITION, TX_PARTITION, USER_PARTITION}
    && DB_FLOOR <= pm[DB_PARTITION] <= COUNTER_SPAN && 1 <= pm[TX_PARTITION] <= COUNTER_SPAN &&
       pm[USER_PARTITION] <= COUNTER_SPAN
  }

  ghost predicate HasFact(facts: set<Fact>, e: I64) {
    exists f :: f in facts && f.e == e
  }

  function Floor(p: nat): nat { if p == DB_PARTITION then DB_FLOOR else 0 }

  /** Every id given out to a tempid is the entity of a fact. */
  ghost predicate AllWritten(facts: set<Fact>, pm: Counters) {
    forall p: nat, c: nat ::
      p in {DB_PARTITION, USER_PARTITION} && Floor(p) <= c < CounterOf(pm, p) && c < COUNTER_SPAN ==>
      HasFact(facts, MakeEntityId(p, c))
  }

  /** The transaction counter follows the latest transaction, whose entity has its time and no other. */
  ghost predicate LatestStored(s: State) {
    && 0 <= s.latest.txId < COUNTER_SPAN && CounterOf(s.pm, TX_PARTITION) == s.latest.txId + 1
    && var tx := TxEid(s.latest.txId);
       && Fact(tx, DB_TX_INSTANT, Instant(s.latest.systemTime), tx, Assert) in s.facts
       && forall f :: f in s.facts && f.e == tx && f.a == DB_TX_INSTANT ==> f.v == Instant(s.latest.systemTime)
  }

  ghost predicate Inv(s: State) {
    && Inverse(s.schema) && HasSystem(s.schema) && Mirrors(s.facts, s.schema)
    && Typed(s.facts, s.schema) && Referenced(s.facts, s.schema, s.pm) && InTime(s.facts, s.pm)
    && SingleValued(s.facts, s.schema) && SingleOwner(s.facts, s.schema)
    && CountersOk(s.pm) && AllWritten(s.facts, s.pm) && LatestStored(s)
  }

  lemma InvInverse(s: State)
    requires Inv(s)
    ensures Inverse(s.schema)
  {
  }

  // --- The stages of a commit ------------------------------------------------------------

  /** The intermediate results of a transaction that commits. */
  datatype Stage = Stage(pm: Counters, input: seq<TDatom>, res: Resolution, ds: seq<Datom>, tx: I64)

  ghost predicate Staged(s: State, key: TxKey, ops: seq<TxOp>, rets: seq<TDatom>, b: Batch, g: Stage) {
    && 0 <= key.txId < COUNTER_SPAN && g.tx == TxEid(key.txId)
    && SetTx(s.pm, key.txId) == Ok(g.pm)
    && ExpandTx(ops, rets, s.schema, s.facts, s.pm) == Ok(g.input)
    && ResolveTempids(g.input, s.schema, s.facts, g.pm) == Ok(g.res)
    && g.ds == g.res.datoms + TxDatoms(g.tx, key, None)
    && Validates(g.ds, s.schema) && b.datoms == Finalize(g.ds, s.schema, s.facts, s.pm) &&
       UniqueOk(b.datoms, s.schema, s.facts)
    && b.pm == g.res.pm
    && (if ChangesSchema(g.ds) then Preparable(b.datoms, s.schema) && b.schema == Applied(s.schema, Prepared(b.datoms))
        else b.schema == s.schema)
  }

  lemma CommitStages(s: State, key: TxKey, ops: seq<TxOp>, rets: seq<TDatom>) returns (g: Stage)
    requires Prepare(s, key, ops, rets).Ok?
    ensures Staged(s, key, ops, rets, Prepare(s, key, ops, rets).value, g)
  {
    hide SetTx, ExpandTx, ResolveTempids, Validates, Finalize, UniqueOk, ChangesSchema, Preparable, Prepared, Applied,
         TxDatoms;
    var pm := SetTx(s.pm, key.txId).value;
    var input := ExpandTx(ops, rets, s.schema, s.facts, s.pm).value;
    var res := ResolveTempids(input, s.schema, s.facts, pm).value;
    g := Stage(pm, input, res, res.datoms + TxDatoms(TxEid(key.txId), key, None), TxEid(key.txId));
  }
}
