/** From transaction operations to datoms with tempids. */
module Expand {
  import opened Octets
  import opened Values
  import opened Facts
  import opened Model
  import opened Partition

  datatype EntityRef = RefId(id: I64) | RefTemp(t: TempId) | RefIdent(k: Keyword) | RefLookup(a: Keyword, v: DataType)

  /** One entry of a put map. */
  datatype Field = Field(a: Keyword, v: DataType)

  /** A put lists the entries of its map in key order. */
  datatype TxOp =
    | Put(fields: seq<Field>)
    | Add(e: EntityRef, a: Keyword, v: DataType)
    | Remove(e: EntityRef, a: Keyword, v: DataType)
    | RetractEntity(e: EntityRef)
    | Erase(e: EntityRef)

  datatype EntityX = XId(id: I64) | XTemp(t: TempId) | XLookup(a: I64, v: DataType)
  datatype ValueX = XData(v: DataType) | XTempRef(t: TempId) | XRef(a: I64, v: DataType)

  /** A datom that may still hold lookup refs. */
  datatype DatomX = DatomX(e: EntityX, a: Keyword, v: ValueX, op: Op)

  const KW_DB_ID: Keyword := Db("id")

  // --- References ------------------------------------------------------------------------

  function Ident(k: Keyword, schema: Schema): Result<I64> {
    if k in schema.idents then Ok(schema.idents[k]) else Err(false)
  }

  function ResolveEntityRef(r: EntityRef, schema: Schema): Result<EntityX> {
    match r
    case RefId(id) => Ok(XId(id))
    case RefTemp(t) => Ok(XTemp(t))
    case RefIdent(k) => (var e :- Ident(k, schema); Ok(XId(e)))
    case RefLookup(k, v) => (var a :- Ident(k, schema); Ok(XLookup(a, v)))
  }

  /** Idents and tempids cannot be retracted as a whole. */
  function RetractTarget(r: EntityRef, schema: Schema): Result<EntityX> {
    match r
    case RefId(id) => Ok(XId(id))
    case RefLookup(k, v) => (var a :- Ident(k, schema); Ok(XLookup(a, v)))
    case _ => Err(false)
  }

  function ResolveDbId(v: DataType, schema: Schema): Result<EntityX> {
    match v
    case Long(id) => Ok(XId(id))
    case String(s) => Ok(XTemp(s))
    case Keyword(k) => (var e :- Ident(k, schema); Ok(XId(e)))
    case Vector(xs) =>
      if |xs| == 2 && xs[0].Keyword? then (var a :- Ident(xs[0].kw, schema); Ok(XLookup(a, xs[1]))) else Err(false)
    case _ => Err(false)
  }

  predicate IsRef(a: Keyword, schema: Schema) {
    GetAttribute(schema, a).Some? && GetAttribute(schema, a).value.attr.valueType.VtRef?
  }

  function ResolveValue(v: DataType, a: Keyword, schema: Schema): Result<ValueX> {
    if !IsRef(a, schema) then Ok(XData(v))
    else
      match v
      case Long(id) => Ok(XData(v))
      case Keyword(k) => (var e :- Ident(k, schema); Ok(XData(Long(e))))
      case String(s) => Ok(XTempRef(s))
      case Vector(xs) =>
        if |xs| == 2 && xs[0].Keyword? then (var b :- Ident(xs[0].kw, schema); Ok(XRef(b, xs[1]))) else Err(false)
      case _ => Err(false)
  }

  // --- Expansion -------------------------------------------------------------------------

  function Decimal(n: nat): (r: Octets)
    ensures r != [] && forall i :: 0 <= i < |r| ==> 48 <= r[i] <= 57
  {
    if n < 10 then [48 + n] else Decimal(n / 10) + [48 + n % 10]
  }

  function AutoTempId(n: nat): TempId { Ascii("__auto_") + Decimal(n) }

  function DbId(fields: seq<Field>): Option<DataType> {
    if fields == [] then None else if fields[0].a == KW_DB_ID then Some(fields[0].v) else DbId(fields[1..])
  }

  function ExpandFields(e: EntityX, fields: seq<Field>, schema: Schema): Result<seq<DatomX>> {
    if fields == [] then Ok([])
    else if fields[0].a == KW_DB_ID then ExpandFields(e, fields[1..], schema)
    else
      var v :- ResolveValue(fields[0].v, fields[0].a, schema);
      var rest :- ExpandFields(e, fields[1..], schema);
      Ok([DatomX(e, fields[0].a, v, Assert)] + rest)
  }

  datatype Expanded = Expanded(datoms: seq<DatomX>, targets: seq<EntityX>, autos: nat)

  function ExpandOp(op: TxOp, schema: Schema, x: Expanded): Result<Expanded> {
    match op
    case Put(fields) =>
      var id := DbId(fields);
      var e :- if id.Some? then ResolveDbId(id.value, schema) else Ok(XTemp(AutoTempId(x.autos)));
      var ds :- ExpandFields(e, fields, schema);
      Ok(Expanded(x.datoms + ds, x.targets, if id.Some? then x.autos else x.autos + 1))
    case Add(r, a, v) =>
      var e :- ResolveEntityRef(r, schema);
      var w :- ResolveValue(v, a, schema);
      Ok(x.(datoms := x.datoms + [DatomX(e, a, w, Assert)]))
    case Remove(r, a, v) =>
      var e :- ResolveEntityRef(r, schema);
      var w :- ResolveValue(v, a, schema);
      Ok(x.(datoms := x.datoms + [DatomX(e, a, w, Retract)]))
    case RetractEntity(r) =>
      var e :- RetractTarget(r, schema);
      Ok(x.(targets := x.targets + [e]))
    case Erase(_) => Err(false)
  }

  function ExpandOps(ops: seq<TxOp>, schema: Schema, x: Expanded): Result<Expanded> {
    if ops == [] then Ok(x)
    else
      var y :- ExpandOp(ops[0], schema, x);
      ExpandOps(ops[1..], schema, y)
  }

  // --- Lookup refs -----------------------------------------------------------------------

  /** Lookup refs need an identity attribute and a value of its type. */
  predicate LookupAllowed(a: I64, v: DataType, schema: Schema) {
    a in schema.attrs && IsIdentity(schema.attrs[a]) && Matches(schema.attrs[a].valueType, v)
  }

  ghost function LookupRef(a: I64, v: DataType, schema: Schema, facts: set<Fact>): Result<I64> {
    if !LookupAllowed(a, v, schema) then Err(false)
    else
      match Hit(facts, a, v)
      case Some(e) => Ok(e)
      case None => Err(false)
  }

  ghost function ResolveX(d: DatomX, schema: Schema, facts: set<Fact>): Result<TDatom> {
    var e: EntityT :-
      match d.e
      case XId(id) => Ok(Id(id))
      case XTemp(t) => Ok(Temp(t))
      case XLookup(a, v) => (var id :- LookupRef(a, v, schema, facts); Ok(Id(id)));
    var v: ValueT :-
      match d.v
      case XData(v) => Ok(Data(v))
      case XTempRef(t) => Ok(TempRef(t))
      case XRef(a, v) => (var id :- LookupRef(a, v, schema, facts); Ok(Data(Long(id))));
    Ok(TDatom(e, d.a, v, d.op))
  }

  ghost function ResolveXs(ds: seq<DatomX>, schema: Schema, facts: set<Fact>): Result<seq<TDatom>> {
    if ds == [] then Ok([])
    else
      var d :- ResolveX(ds[0], schema, facts);
      var rest :- ResolveXs(ds[1..], schema, facts);
      Ok([d] + rest)
  }

  /** Entities of the schema and transaction partitions cannot be retracted. */
  ghost function ResolveTarget(e: EntityX, schema: Schema, facts: set<Fact>): Result<I64> {
    var id :-
      match e
      case XId(id) => Ok(id)
      case XTemp(_) => Err(false)
      case XLookup(a, v) => LookupRef(a, v, schema, facts);
    if ExtractPartition(id) == DB_PARTITION || ExtractPartition(id) == TX_PARTITION then Err(false) else Ok(id)
  }

  ghost function ResolveTargets(es: seq<EntityX>, schema: Schema, facts: set<Fact>): Result<set<I64>> {
    if es == [] then Ok({})
    else
      var e :- ResolveTarget(es[0], schema, facts);
      var rest :- ResolveTargets(es[1..], schema, facts);
      Ok({e} + rest)
  }

  /** `rets` retract exactly the live datoms of `targets`, each attribute under its ident. */
  ghost predicate RetractsLive(rets: seq<TDatom>, targets: set<I64>, schema: Schema, facts: set<Fact>) {
    && (forall d :: d in rets ==> d.e.Id? && d.v.Data? && d.op.Retract?)
    && (forall e, k, v :: TDatom(Id(e), k, Data(v), Retract) in rets <==>
          e in targets && exists a: I64 :: a in schema.entids && schema.entids[a] == k && Live(facts, e, a, v))
  }

  /** A live datom whose attribute has no ident is an error. */
  ghost predicate TargetsNamed(targets: set<I64>, schema: Schema, facts: set<Fact>) {
    forall e, a: I64, v :: e in targets && Live(facts, e, a, v) ==> a in schema.entids
  }

  // --- Explicit entity ids ---------------------------------------------------------------

  /** Every explicit id and every explicit reference has been allocated. */
  ghost predicate Allocated(ds: seq<TDatom>, schema: Schema, pm: Counters) {
    forall d :: d in ds ==> AllocatedDatom(d, schema, pm)
  }

  predicate AllocatedDatom(d: TDatom, schema: Schema, pm: Counters) {
    && GetAttribute(schema, d.a).Some?
    && (d.e.Id? ==> Contains(pm, d.e.id))
    && (IsRef(d.a, schema) && d.v.Data? && d.v.v.Long? ==> Contains(pm, d.v.v.i))
  }

  /** `expand_tx_ops`; `rets` are the retractions the entity scan delivered. */
  ghost function ExpandTxOps(ops: seq<TxOp>, rets: seq<TDatom>, schema: Schema, facts: set<Fact>): Result<seq<TDatom>> {
    var x :- ExpandOps(ops, schema, Expanded([], [], 0));
    var ds :- ResolveXs(x.datoms, schema, facts);
    var targets :- ResolveTargets(x.targets, schema, facts);
    if TargetsNamed(targets, schema, facts) then Ok(ds + rets) else Err(false)
  }

  /** `expand_tx_ops` then `validate_allocated_entity_ids`. */
  ghost function ExpandTx(ops: seq<TxOp>, rets: seq<TDatom>, schema: Schema, facts: set<Fact>,
                          pm: Counters): Result<seq<TDatom>>
  {
    var ds :- ExpandTxOps(ops, rets, schema, facts);
    if Allocated(ds, schema, pm) then Ok(ds) else Err(false)
  }

  /** The entities a transaction retracts as a whole, once everything it names is resolved. */
  ghost function TargetsOf(ops: seq<TxOp>, schema: Schema, facts: set<Fact>): set<I64> {
    var x := ExpandOps(ops, schema, Expanded([], [], 0));
    if x.Err? || ResolveXs(x.value.datoms, schema, facts).Err? then {}
    else
      var targets := ResolveTargets(x.value.targets, schema, facts);
      if targets.Err? then {} else targets.value
  }
}
