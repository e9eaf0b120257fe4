/** One transaction: the stages from operations to facts, and what commit, abort and failure leave behind. */
module Transact {
  import opened Octets
  import opened Values
  import opened Facts
  import opened Model
  import opened Partition
  import opened SchemaRules
  import opened Expand
  import opened Tempids

  /** What an indexer holds: stored facts, counters, schema and the latest transaction. */
  datatype State = State(facts: set<Fact>, pm: Counters, schema: Schema, latest: TxKey)

  // --- The transaction entity ------------------------------------------------------------

  function TxEid(txId: nat): I64
    requires txId < COUNTER_SPAN
  {
    MakeEntityId(TX_PARTITION, txId)
  }

  /** `build_tx_entity_datoms`; an aborted transaction records its error. */
  function TxDatoms(tx: I64, key: TxKey, error: Option<Octets>): seq<Datom> {
    [Datom(tx, KW_TX_INSTANT, Instant(key.systemTime), Assert),
     Datom(tx, KW_TX_ID, Long(key.txId), Assert),
     Datom(tx, KW_TX_RESULT, Long(if error.None? then TX_COMMITTED else TX_ABORTED), Assert)] +
    match error
    case Some(text) => [Datom(tx, KW_TX_ERROR, String(text), Assert)]
    case None => []
  }

  // --- Finalize --------------------------------------------------------------------------

  /** The stored value a single-valued assertion replaces; unallocated entities are not looked up. */
  ghost function Replaced(d: Datom, schema: Schema, facts: set<Fact>, pm: Counters): Option<DataType> {
    var attr := GetAttribute(schema, d.a);
    if d.op.Assert? && attr.Some? && !attr.value.attr.multival && Contains(pm, d.e) then
      OldValue(facts, d.e, attr.value.id)
    else None
  }

  ghost predicate NoChange(d: Datom, schema: Schema, facts: set<Fact>, pm: Counters) {
    Replaced(d, schema, facts, pm).Some? && ValueEq(Replaced(d, schema, facts, pm).value, d.v)
  }

  ghost function Kept(ds: seq<Datom>, schema: Schema, facts: set<Fact>, pm: Counters): set<Datom> {
    set d | d in ds && !NoChange(d, schema, facts, pm)
  }

  /** The retractions the rewrite adds. */
  ghost function AutoRetracts(ds: seq<Datom>, schema: Schema, facts: set<Fact>, pm: Counters): set<Datom> {
    set d | d in ds && Replaced(d, schema, facts, pm).Some? && !NoChange(d, schema, facts, pm) ::
      Datom(d.e, d.a, Replaced(d, schema, facts, pm).value, Retract)
  }

  /** `finalize_datoms_for_commit`. */
  ghost function Finalize(ds: seq<Datom>, schema: Schema, facts: set<Fact>, pm: Counters): set<Datom> {
    Kept(ds, schema, facts, pm) + AutoRetracts(ds, schema, facts, pm)
  }

  // --- Unique values ---------------------------------------------------------------------

  predicate IsUnique(d: Datom, schema: Schema) {
    GetAttribute(schema, d.a).Some? && GetAttribute(schema, d.a).value.attr.unique.Some?
  }

  function AttrId(d: Datom, schema: Schema): I64 {
    if GetAttribute(schema, d.a).Some? then GetAttribute(schema, d.a).value.id else 0
  }

  /** Two assertions give one unique value to two entities. */
  predicate Clash(d: Datom, f: Datom, schema: Schema) {
    && d.op.Assert? && f.op.Assert? && IsUnique(d, schema) && IsUnique(f, schema)
    && AttrId(d, schema) == AttrId(f, schema) && SameKey(d.v, f.v) && d.e != f.e
  }

  /** Some datom takes the value from entity `e`. */
  ghost predicate Released(ds: set<Datom>, schema: Schema, e: I64, a: I64, v: DataType) {
    exists f :: f in ds && f.op.Retract? && f.e == e && IsUnique(f, schema) && AttrId(f, schema) == a && SameKey(f.v, v)
  }

  /** Another entity owns the value and keeps it. */
  ghost predicate Taken(ds: set<Datom>, d: Datom, schema: Schema, facts: set<Fact>) {
    && d.op.Assert? && IsUnique(d, schema)
    && var owner := Hit(facts, AttrId(d, schema), d.v);
       owner.Some? && owner.value != d.e && !Released(ds, schema, owner.value, AttrId(d, schema), d.v)
  }

  /** `validate_unique_constraints`. */
  ghost predicate UniqueOk(ds: set<Datom>, schema: Schema, facts: set<Fact>) {
    && (forall d, f :: d in ds && f in ds ==> !Clash(d, f, schema))
    && (forall d :: d in ds ==> !Taken(ds, d, schema, facts))
  }

  // --- Writing ---------------------------------------------------------------------------

  ghost function FactsOf(ds: set<Datom>, schema: Schema, tx: I64): set<Fact> {
    set d | d in ds :: Fact(d.e, AttrId(d, schema), d.v, tx, d.op)
  }

  /** What a transaction has become by the time it is written. */
  datatype Batch = Batch(datoms: set<Datom>, pm: Counters, schema: Schema)

  /** Steps 1 to 8 of `transact_tx_inner`. */
  ghost function Prepare(s: State, key: TxKey, ops: seq<TxOp>, rets: seq<TDatom>): Result<Batch> {
    if !(0 <= key.txId < COUNTER_SPAN) then Err(true)
    else
      var pm :- SetTx(s.pm, key.txId);
      var input :- ExpandTx(ops, rets, s.schema, s.facts, s.pm);
      var res :- ResolveTempids(input, s.schema, s.facts, pm);
      var ds := res.datoms + TxDatoms(TxEid(key.txId), key, None);
      if !Validates(ds, s.schema) then Err(false)
      else
        var final := Finalize(ds, s.schema, s.facts, s.pm);
        if !UniqueOk(final, s.schema, s.facts) then Err(false)
        else if !ChangesSchema(ds) then Ok(Batch(final, res.pm, s.schema))
        else if !Preparable(final, s.schema) then Err(false)
        else Ok(Batch(final, res.pm, Applied(s.schema, Prepared(final))))
  }

  ghost function Commit(s: State, key: TxKey, b: Batch): State
    requires 0 <= key.txId < COUNTER_SPAN
  {
    State(s.facts + FactsOf(b.datoms, s.schema, TxEid(key.txId)), b.pm, b.schema, key)
  }

  function Elements(ds: seq<Datom>): set<Datom> { set d | d in ds }

  /** `write_aborted_tx`: only the transaction entity. */
  ghost function Abort(s: State, key: TxKey, error: Octets): Result<State> {
    if !(0 <= key.txId < COUNTER_SPAN) then Err(true)
    else
      var pm :- SetTx(s.pm, key.txId);
      var tx := TxEid(key.txId);
      Ok(State(s.facts + FactsOf(Elements(TxDatoms(tx, key, Some(error))), s.schema, tx), pm, s.schema, key))
  }

  datatype Outcome = Committed | Aborted | Failed | Halted

  /** A transaction's key and what became of it, as broadcast to waiters. */
  datatype Completion = Completion(key: TxKey, out: Outcome)

  /** `transact_tx` on one log record, for any retractions the entity scan may deliver and any error text. */
  ghost predicate Step(s: State, s': State, key: TxKey, ops: seq<TxOp>, rets: seq<TDatom>, error: Octets, out: Outcome)
  {
    && RetractsLive(rets, TargetsOf(ops, s.schema, s.facts), s.schema, s.facts)
    && var b := Prepare(s, key, ops, rets);
       match out
       case Committed => b.Ok? && 0 <= key.txId < COUNTER_SPAN && s' == Commit(s, key, b.value)
       case Aborted => b == Err(false) && Abort(s, key, error).Ok? && s' == Abort(s, key, error).value
       case Failed => b == Err(false) && Abort(s, key, error) == Err(false) && s' == s
       case Halted => (b == Err(true) || (b == Err(false) && Abort(s, key, error) == Err(true))) && s' == s
  }
}
