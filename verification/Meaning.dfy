/** What an operation means: the datoms it asks for, told from the operation, the schema and the store. */
module Meaning {
  import opened Octets
  import opened Values
  import opened Facts
  import opened Model
  import opened Partition
  import opened Expand
  import opened Invariant

  // --- References and values -------------------------------------------------------------

  /** The lookup ref (`k`, `v`) identifies `e`: `k` is an identity attribute and `e` its owner of `v`. */
  ghost predicate Identifies(k: Keyword, v: DataType, schema: Schema, facts: set<Fact>, e: I64) {
    var a := GetAttribute(schema, k);
    && a.Some? && IsIdentity(a.value.attr) && Matches(a.value.attr.valueType, v) && Reflexive(v)
    && Live(facts, e, a.value.id, v)
  }

  ghost predicate Names(r: EntityRef, schema: Schema, facts: set<Fact>, e: EntityT) {
    match r
    case RefId(id) => e == Id(id)
    case RefTemp(t) => e == Temp(t)
    case RefIdent(k) => k in schema.idents && e == Id(schema.idents[k])
    case RefLookup(k, v) => e.Id? && Identifies(k, v, schema, facts, e.id)
  }

  /** Data read as a reference: a number, a tempid, an ident, or an attribute with a value. */
  function AsRef(v: DataType): Option<EntityRef> {
    match v
    case Long(id) => Some(RefId(id))
    case String(t) => Some(RefTemp(t))
    case Keyword(k) => Some(RefIdent(k))
    case Vector(xs) => if |xs| == 2 && xs[0].Keyword? then Some(RefLookup(xs[0].kw, xs[1])) else None
    case _ => None
  }

  ghost predicate Refers(v: DataType, schema: Schema, facts: set<Fact>, e: EntityT) {
    AsRef(v).Some? && Names(AsRef(v).value, schema, facts, e)
  }

  function AsValue(e: EntityT): ValueT { if e.Id? then Data(Long(e.id)) else TempRef(e.t) }

  /** What a value stands for: under a reference attribute an entity, elsewhere itself. */
  ghost predicate Stands(v: DataType, k: Keyword, schema: Schema, facts: set<Fact>, w: ValueT) {
    if IsRef(k, schema) then exists e :: Refers(v, schema, facts, e) && w == AsValue(e) else w == Data(v)
  }

  // --- Operations ------------------------------------------------------------------------

  predicate Anonymous(op: TxOp) { op.Put? && forall f :: f in op.fields ==> f.a != KW_DB_ID }

  /** Field `i` is the first with a `:db/id`. */
  predicate FirstDbId(fields: seq<Field>, i: nat, v: DataType) {
    i < |fields| && fields[i] == Field(KW_DB_ID, v) && forall j :: 0 <= j < i ==> fields[j].a != KW_DB_ID
  }

  /** The `:db/id` of a put. */
  ghost predicate DbIdIs(fields: seq<Field>, v: DataType) { exists i: nat :: FirstDbId(fields, i, v) }

  /** The number of puts without `:db/id` among the first `i` operations. */
  function AutosBefore(ops: seq<TxOp>, i: nat): nat {
    if i == 0 || ops == [] then 0 else (if Anonymous(ops[0]) then 1 else 0) + AutosBefore(ops[1..], i - 1)
  }

  /** The entity of a put: what its `:db/id` refers to, or the tempid with its own number. */
  ghost predicate Subject(fields: seq<Field>, n: nat, schema: Schema, facts: set<Fact>, e: EntityT) {
    if Anonymous(Put(fields)) then e == Temp(AutoTempId(n)) else exists v ::
      DbIdIs(fields, v) && Refers(v, schema, facts, e)
  }

  ghost predicate FieldAsks(f: Field, schema: Schema, facts: set<Fact>, d: TDatom) {
    f.a != KW_DB_ID && d.a == f.a && Stands(f.v, f.a, schema, facts, d.v)
  }

  /** The live triple, named by the ident of its attribute. */
  ghost predicate LiveNamed(schema: Schema, facts: set<Fact>, e: I64, k: Keyword, v: DataType) {
    exists a: I64 :: a in schema.entids && schema.entids[a] == k && Live(facts, e, a, v)
  }

  /** The operation, with `n` anonymous puts before it, asks for this datom. */
  ghost predicate Demands(op: TxOp, n: nat, schema: Schema, facts: set<Fact>, d: TDatom) {
    match op
    case Add(r, k, v) => d.op.Assert? && d.a == k && Names(r, schema, facts, d.e) && Stands(v, k, schema, facts, d.v)
    case Remove(r, k, v) => d.op.Retract? && d.a == k && Names(r, schema, facts, d.e) &&
      Stands(v, k, schema, facts, d.v)
    case Put(fields) =>
      d.op.Assert? && Subject(fields, n, schema, facts, d.e) && exists f ::
        f in fields && FieldAsks(f, schema, facts, d)
    case RetractEntity(r) =>
      && d.op.Retract? && d.e.Id? && d.v.Data? && Names(r, schema, facts, d.e)
      && LiveNamed(schema, facts, d.e.id, d.a, d.v.v)
    case Erase(_) => false
  }

  ghost predicate Demanded(ops: seq<TxOp>, schema: Schema, facts: set<Fact>, d: TDatom) {
    exists i :: 0 <= i < |ops| && Demands(ops[i], AutosBefore(ops, i), schema, facts, d)
  }

  // --- When operations make sense --------------------------------------------------------

  ghost predicate Nameable(r: EntityRef, schema: Schema, facts: set<Fact>) {
    exists e :: Names(r, schema, facts, e)
  }

  ghost predicate Meaningful(v: DataType, k: Keyword, schema: Schema, facts: set<Fact>) {
    exists w :: Stands(v, k, schema, facts, w)
  }

  /** A reference whose idents are known; a lookup ref need not find anything. */
  predicate Readable(v: DataType, schema: Schema) {
    match AsRef(v)
    case Some(RefIdent(k)) => k in schema.idents
    case Some(RefLookup(k, _)) => k in schema.idents
    case Some(_) => true
    case None => false
  }

  ghost predicate SubjectKnown(fields: seq<Field>, schema: Schema, facts: set<Fact>) {
    forall v :: DbIdIs(fields, v) ==> exists e :: Refers(v, schema, facts, e)
  }

  /** Data fields need a known entity and a value that stands for something. */
  ghost predicate PutSensible(fields: seq<Field>, schema: Schema, facts: set<Fact>) {
    && (forall v :: DbIdIs(fields, v) ==> Readable(v, schema))
    && (forall f :: f in fields && f.a != KW_DB_ID ==>
          SubjectKnown(fields, schema, facts) && Meaningful(f.v, f.a, schema, facts))
  }

  /** Only entities of the user partition can be retracted, by id or lookup ref. */
  ghost predicate Retractable(r: EntityRef, schema: Schema, facts: set<Fact>) {
    && (r.RefId? || r.RefLookup?)
    && exists id :: Names(r, schema, facts, Id(id)) && ExtractPartition(id) != DB_PARTITION &&
                    ExtractPartition(id) != TX_PARTITION
  }

  ghost predicate Sensible(op: TxOp, schema: Schema, facts: set<Fact>) {
    match op
    case Add(r, k, v) => Nameable(r, schema, facts) && Meaningful(v, k, schema, facts)
    case Remove(r, k, v) => Nameable(r, schema, facts) && Meaningful(v, k, schema, facts)
    case Put(fields) => PutSensible(fields, schema, facts)
    case RetractEntity(r) => Retractable(r, schema, facts)
    case Erase(_) => false
  }

  // --- Lookup refs -----------------------------------------------------------------------

  lemma LookupMeans(k: Keyword, v: DataType, schema: Schema, facts: set<Fact>, e: I64)
    requires SingleOwner(facts, schema)
    ensures k in schema.idents && LookupRef(schema.idents[k], v, schema, facts) == Ok(e) <==>
            Identifies(k, v, schema, facts, e)
  {
    hide Live, Reflexive, Matches;
    if k in schema.idents && LookupAllowed(schema.idents[k], v, schema) {
      assert OneOwner(facts, schema.idents[k]);
    }
  }

  ghost function EntityIs(x: EntityX, schema: Schema, facts: set<Fact>): Result<EntityT> {
    match x
    case XId(id) => Ok(Id(id))
    case XTemp(t) => Ok(Temp(t))
    case XLookup(a, v) => (var id :- LookupRef(a, v, schema, facts); Ok(Id(id)))
  }

  ghost function ValueIs(x: ValueX, schema: Schema, facts: set<Fact>): Result<ValueT> {
    match x
    case XData(v) => Ok(Data(v))
    case XTempRef(t) => Ok(TempRef(t))
    case XRef(a, v) => (var id :- LookupRef(a, v, schema, facts); Ok(Data(Long(id))))
  }

  lemma DatomIs(x: DatomX, schema: Schema, facts: set<Fact>, d: TDatom)
    ensures ResolveX(x, schema, facts) == Ok(d) <==>
            EntityIs(x.e, schema, facts) == Ok(d.e) && ValueIs(x.v, schema, facts) == Ok(d.v) && d.a == x.a &&
              d.op == x.op
  {
    hide LookupRef;
  }

  lemma NamesMean(r: EntityRef, schema: Schema, facts: set<Fact>, e: EntityT)
    requires SingleOwner(facts, schema)
    ensures ResolveEntityRef(r, schema).Ok? && EntityIs(ResolveEntityRef(r, schema).value, schema, facts) == Ok(e) <==>
            Names(r, schema, facts, e)
  {
    hide LookupRef, Identifies, SingleOwner;
    if r.RefLookup? && e.Id? { LookupMeans(r.a, r.v, schema, facts, e.id); }
  }

  lemma RefersMean(v: DataType, schema: Schema, facts: set<Fact>, e: EntityT)
    requires SingleOwner(facts, schema)
    ensures ResolveDbId(v, schema).Ok? && EntityIs(ResolveDbId(v, schema).value, schema, facts) == Ok(e) <==>
            Refers(v, schema, facts, e)
    ensures ResolveDbId(v, schema).Ok? <==> Readable(v, schema)
  {
    hide LookupRef, SingleOwner, EntityIs, Names;
    if AsRef(v).Some? { NamesMean(AsRef(v).value, schema, facts, e); }
  }

  /** A value of a reference attribute is read like a `:db/id`. */
  lemma RefValue(v: DataType, k: Keyword, schema: Schema, facts: set<Fact>)
    requires IsRef(k, schema)
    ensures ResolveValue(v, k, schema).Ok? <==> ResolveDbId(v, schema).Ok?
    ensures ResolveValue(v, k, schema).Ok? ==>
            var x, y := ValueIs(ResolveValue(v, k, schema).value, schema, facts),
                        EntityIs(ResolveDbId(v, schema).value, schema, facts);
            x.Ok? == y.Ok? && (y.Ok? ==> x.value == AsValue(y.value))
  {
    hide LookupRef, GetAttribute;
  }

  lemma StandsMean(v: DataType, k: Keyword, schema: Schema, facts: set<Fact>, w: ValueT)
    requires SingleOwner(facts, schema)
    ensures ResolveValue(v, k, schema).Ok? && ValueIs(ResolveValue(v, k, schema).value, schema, facts) == Ok(w) <==>
            Stands(v, k, schema, facts, w)
  {
    hide SingleOwner, ValueIs, EntityIs, ResolveDbId, Refers, Readable;
    if IsRef(k, schema) {
      hide ResolveValue, IsRef;
      RefValue(v, k, schema, facts);
      forall e ensures ResolveDbId(v, schema).Ok? && EntityIs(ResolveDbId(v, schema).value, schema, facts) == Ok(e) <==>
                       Refers(v, schema, facts, e)
      {
        RefersMean(v, schema, facts, e);
      }
    } else {
      assert ValueIs(XData(v), schema, facts) == Ok(Data(v)) by { PlainValue(v, schema, facts); }
    }
  }

  lemma PlainValue(v: DataType, schema: Schema, facts: set<Fact>)
    ensures ValueIs(XData(v), schema, facts) == Ok(Data(v))
  {
  }

  // --- One datom -------------------------------------------------------------------------

  ghost predicate Yields(xs: seq<DatomX>, schema: Schema, facts: set<Fact>, d: TDatom) {
    exists x :: x in xs && ResolveX(x, schema, facts) == Ok(d)
  }

  ghost predicate AllResolve(xs: seq<DatomX>, schema: Schema, facts: set<Fact>) {
    forall x :: x in xs ==> ResolveX(x, schema, facts).Ok?
  }

  lemma {:induction false} ResolvesAll(xs: seq<DatomX>, schema: Schema, facts: set<Fact>, d: TDatom)
    ensures ResolveXs(xs, schema, facts).Ok? <==> AllResolve(xs, schema, facts)
    ensures ResolveXs(xs, schema, facts).Ok? ==>
            (d in ResolveXs(xs, schema, facts).value <==> Yields(xs, schema, facts, d))
    ensures ResolveXs(xs, schema, facts).Err? ==> ResolveXs(xs, schema, facts) == Err(false)
  {
    hide ResolveX;
    if xs != [] {
      ResolvesAll(xs[1..], schema, facts, d);
      assert xs == [xs[0]] + xs[1..];
      SoftError(xs[0], schema, facts);
      if Yields(xs[1..], schema, facts, d) {
        var x :| x in xs[1..] && ResolveX(x, schema, facts) == Ok(d);
        assert x in xs;
      }
      if ResolveX(xs[0], schema, facts) == Ok(d) { assert xs[0] in xs; }
    }
  }

  lemma SoftError(x: DatomX, schema: Schema, facts: set<Fact>)
    ensures ResolveX(x, schema, facts).Err? ==> ResolveX(x, schema, facts) == Err(false)
  {
    hide LookupAllowed, Hit;
  }

  /** An entity and a value together. */
  lemma PairYields(e: EntityX, k: Keyword, v: ValueX, op: Op, schema: Schema, facts: set<Fact>, d: TDatom)
    ensures Yields([DatomX(e, k, v, op)], schema, facts, d) <==>
            EntityIs(e, schema, facts) == Ok(d.e) && ValueIs(v, schema, facts) == Ok(d.v) && d.a == k && d.op == op
    ensures AllResolve([DatomX(e, k, v, op)], schema, facts) <==>
            EntityIs(e, schema, facts).Ok? && ValueIs(v, schema, facts).Ok?
  {
    hide ResolveX, EntityIs, ValueIs;
    var x := DatomX(e, k, v, op);
    assert x in [x];
    DatomIs(x, schema, facts, d);
    PairResolves(x, schema, facts);
  }

  lemma PairResolves(x: DatomX, schema: Schema, facts: set<Fact>)
    ensures ResolveX(x, schema, facts).Ok? <==> EntityIs(x.e, schema, facts).Ok? && ValueIs(x.v, schema, facts).Ok?
  {
    hide LookupRef;
  }

  // --- One operation ---------------------------------------------------------------------

  function Alone(op: TxOp, schema: Schema, n: nat): Result<Expanded> { ExpandOp(op, schema, Expanded([], [], n)) }

  /** Everything that can go wrong aborts the transaction. */
  lemma RefsSoft(r: EntityRef, v: DataType, k: Keyword, schema: Schema)
    ensures ResolveEntityRef(r, schema).Ok? || ResolveEntityRef(r, schema) == Err(false)
    ensures RetractTarget(r, schema).Ok? || RetractTarget(r, schema) == Err(false)
    ensures ResolveDbId(v, schema).Ok? || ResolveDbId(v, schema) == Err(false)
    ensures ResolveValue(v, k, schema).Ok? || ResolveValue(v, k, schema) == Err(false)
  {
  }

  lemma {:induction false} FieldsSoft(e: EntityX, fields: seq<Field>, schema: Schema)
    ensures ExpandFields(e, fields, schema).Ok? || ExpandFields(e, fields, schema) == Err(false)
  {
    hide ResolveValue, KW_DB_ID;
    if fields != [] {
      FieldsSoft(e, fields[1..], schema);
      RefsSoft(RefId(0), fields[0].v, fields[0].a, schema);
    }
  }

  lemma {:induction false} DbIdFound(fields: seq<Field>)
    ensures DbId(fields).None? <==> Anonymous(Put(fields))
    ensures forall v :: DbIdIs(fields, v) <==> DbId(fields) == Some(v)
  {
    hide KW_DB_ID;
    if fields != [] {
      DbIdFound(fields[1..]);
      assert fields == [fields[0]] + fields[1..];
      forall v ensures DbIdIs(fields, v) <==>
                       if fields[0].a == KW_DB_ID then fields[0].v == v else DbIdIs(fields[1..], v)
      {
        DbIdHead(fields, v);
      }
    }
  }

  lemma FirstDbIdShifts(fields: seq<Field>, i: nat, v: DataType)
    requires fields != [] && fields[0].a != KW_DB_ID
    ensures FirstDbId(fields[1..], i, v) <==> FirstDbId(fields, i + 1, v)
  {
    hide KW_DB_ID;
    var rest := fields[1..];
    assert i < |rest| ==> rest[i] == fields[i + 1];
    if FirstDbId(fields, i + 1, v) {
      forall j | 0 <= j < i ensures rest[j].a != KW_DB_ID { assert rest[j] == fields[j + 1]; }
    }
    if FirstDbId(rest, i, v) {
      forall j | 0 <= j < i + 1 ensures fields[j].a != KW_DB_ID {
        if j > 0 { assert fields[j] == rest[j - 1]; }
      }
    }
  }

  lemma DbIdHead(fields: seq<Field>, v: DataType)
    requires fields != []
    ensures DbIdIs(fields, v) <==> if fields[0].a == KW_DB_ID then fields[0].v == v else DbIdIs(fields[1..], v)
  {
    hide KW_DB_ID;
    if fields[0].a == KW_DB_ID {
      if fields[0].v == v { assert FirstDbId(fields, 0, v); }
    } else {
      forall i: nat ensures FirstDbId(fields[1..], i, v) <==> FirstDbId(fields, i + 1, v) {
        FirstDbIdShifts(fields, i, v);
      }
      if DbIdIs(fields, v) {
        var i: nat :| FirstDbId(fields, i, v);
        assert FirstDbId(fields[1..], i - 1, v);
      }
    }
  }

  /** An operation adds what it would give alone. */
  lemma AddsAlone(op: TxOp, schema: Schema, x: Expanded)
    ensures ExpandOp(op, schema, x).Ok? <==> Alone(op, schema, x.autos).Ok?
    ensures ExpandOp(op, schema, x).Err? ==> ExpandOp(op, schema, x) == Err(false)
    ensures Alone(op, schema, x.autos).Ok? ==>
            var y := Alone(op, schema, x.autos).value;
            && ExpandOp(op, schema, x).value == Expanded(x.datoms + y.datoms, x.targets + y.targets, y.autos)
            && y.autos == x.autos + if Anonymous(op) then 1 else 0
  {
    hide KW_DB_ID, ResolveEntityRef, ResolveDbId, ResolveValue, ExpandFields, RetractTarget, DbId, Anonymous,
         AutoTempId;
    var n := x.autos;
    match op
    case Put(fields) =>
      var id := DbId(fields);
      DbIdFound(fields);
      if id.Some? { RefsSoft(RefId(0), id.value, KW_DB_ID, schema); }
      var e := if id.Some? then ResolveDbId(id.value, schema) else Ok(XTemp(AutoTempId(n)));
      if e.Ok? { FieldsSoft(e.value, fields, schema); }
    case Add(r, k, v) => { RefsSoft(r, v, k, schema); NotAnonymous(op); }
    case Remove(r, k, v) => { RefsSoft(r, v, k, schema); NotAnonymous(op); }
    case RetractEntity(r) => { RefsSoft(r, Long(0), KW_DB_ID, schema); NotAnonymous(op); }
    case Erase(_) =>
  }

  lemma NotAnonymous(op: TxOp)
    requires !op.Put?
    ensures !Anonymous(op)
  {
  }

  // --- What one operation gives ----------------------------------------------------------

  predicate FieldReads(f: Field, schema: Schema) { f.a != KW_DB_ID ==> ResolveValue(f.v, f.a, schema).Ok? }

  /** The datom of a field, before lookup refs are resolved. */
  predicate ReadAs(e: EntityX, f: Field, schema: Schema, x: DatomX) {
    f.a != KW_DB_ID && ResolveValue(f.v, f.a, schema).Ok? &&
      x == DatomX(e, f.a, ResolveValue(f.v, f.a, schema).value, Assert)
  }

  lemma {:induction false} FieldsGive(e: EntityX, fields: seq<Field>, schema: Schema, x: DatomX)
    ensures ExpandFields(e, fields, schema).Ok? <==> forall f :: f in fields ==> FieldReads(f, schema)
    ensures ExpandFields(e, fields, schema).Ok? ==>
            (x in ExpandFields(e, fields, schema).value <==>
             exists f :: f in fields && ReadAs(e, f, schema, x))
  {
    hide KW_DB_ID, ResolveValue;
    if fields != [] {
      FieldsGive(e, fields[1..], schema, x);
      assert fields == [fields[0]] + fields[1..];
      assert fields[0] in fields && forall f :: f in fields[1..] ==> f in fields;
      if ExpandFields(e, fields, schema).Ok? {
        assert FieldReads(fields[0], schema);
        var rest := ExpandFields(e, fields[1..], schema).value;
        assert x in ExpandFields(e, fields, schema).value <==>
               x in rest || ReadAs(e, fields[0], schema, x);
      }
    }
  }

  /** What is left of an operation once its references are resolved. */
  ghost predicate Gives(op: TxOp, n: nat, schema: Schema, facts: set<Fact>) {
    && Alone(op, schema, n).Ok? && AllResolve(Alone(op, schema, n).value.datoms, schema, facts)
    && forall t :: t in Alone(op, schema, n).value.targets ==> ResolveTarget(t, schema, facts).Ok?
  }

  /** The reference, the value and the operation of an addition or removal. */
  lemma PlainMeans(op: TxOp, n: nat, schema: Schema, facts: set<Fact>, d: TDatom)
    requires SingleOwner(facts, schema) && (op.Add? || op.Remove?)
    ensures Gives(op, n, schema, facts) <==> Sensible(op, schema, facts)
    ensures Gives(op, n, schema, facts) ==>
            (Yields(Alone(op, schema, n).value.datoms, schema, facts, d) <==> Demands(op, n, schema, facts, d))
  {
    hide ResolveEntityRef, ResolveValue, EntityIs, ValueIs, Names, Stands, Yields, AllResolve, SingleOwner,
         ResolveTarget;
    forall e ensures ResolveEntityRef(op.e, schema).Ok? &&
                     EntityIs(ResolveEntityRef(op.e, schema).value, schema, facts) == Ok(e) <==>
                     Names(op.e, schema, facts, e)
    {
      NamesMean(op.e, schema, facts, e);
    }
    forall w ensures ResolveValue(op.v, op.a, schema).Ok? &&
                     ValueIs(ResolveValue(op.v, op.a, schema).value, schema, facts) == Ok(w) <==>
                     Stands(op.v, op.a, schema, facts, w)
    {
      StandsMean(op.v, op.a, schema, facts, w);
    }
    var e, v := ResolveEntityRef(op.e, schema), ResolveValue(op.v, op.a, schema);
    if e.Ok? && v.Ok? {
      var how := if op.Add? then Assert else Retract;
      PairYields(e.value, op.a, v.value, how, schema, facts, d);
      assert Alone(op, schema, n).value.datoms == [DatomX(e.value, op.a, v.value, how)];
      assert EntityIs(e.value, schema, facts).Ok? <==> Nameable(op.e, schema, facts);
      assert ValueIs(v.value, schema, facts).Ok? <==> Meaningful(op.v, op.a, schema, facts);
    }
  }

  /** The entity of a put before lookup refs are resolved. */
  ghost predicate IsSubject(fields: seq<Field>, n: nat, schema: Schema, x: EntityX) {
    if Anonymous(Put(fields)) then x == XTemp(AutoTempId(n))
    else exists v :: DbIdIs(fields, v) && ResolveDbId(v, schema) == Ok(x)
  }

  /** What a put gives. */
  lemma PutGives(fields: seq<Field>, n: nat, schema: Schema, e: EntityX, x: DatomX)
    requires IsSubject(fields, n, schema, e)
    ensures Alone(Put(fields), schema, n).Ok? <==> forall f :: f in fields ==> FieldReads(f, schema)
    ensures Alone(Put(fields), schema, n).Ok? ==>
            && Alone(Put(fields), schema, n).value.targets == []
            && (x in Alone(Put(fields), schema, n).value.datoms <==>
                exists f :: f in fields && ReadAs(e, f, schema, x))
  {
    hide KW_DB_ID, ResolveValue, ResolveDbId, ExpandFields, Anonymous, DbIdIs, AutoTempId, DbId;
    DbIdFound(fields);
    FieldsGive(e, fields, schema, x);
    var ds := ExpandFields(e, fields, schema);
    assert ds.Ok? ==> [] + ds.value == ds.value;
  }

  /** The entity of a put with a known subject. */
  lemma SubjectMeans(fields: seq<Field>, n: nat, schema: Schema, facts: set<Fact>, x: EntityX, e: EntityT)
    requires SingleOwner(facts, schema)
    requires IsSubject(fields, n, schema, x)
    ensures EntityIs(x, schema, facts) == Ok(e) <==> Subject(fields, n, schema, facts, e)
    ensures EntityIs(x, schema, facts).Ok? <==> SubjectKnown(fields, schema, facts)
  {
    hide SingleOwner, Anonymous, DbIdIs, AutoTempId, ResolveDbId, Refers, LookupRef, Readable;
    DbIdFound(fields);
    if !Anonymous(Put(fields)) {
      var v :| DbIdIs(fields, v) && ResolveDbId(v, schema) == Ok(x);
      hide EntityIs;
      forall c ensures EntityIs(x, schema, facts) == Ok(c) <==> Refers(v, schema, facts, c) {
        RefersMean(v, schema, facts, c);
      }
      assert EntityIs(x, schema, facts).Ok? ==> Refers(v, schema, facts, EntityIs(x, schema, facts).value);
    }
  }

  lemma FieldMeans(e: EntityX, f: Field, schema: Schema, facts: set<Fact>, x: DatomX, d: TDatom)
    requires SingleOwner(facts, schema) && ReadAs(e, f, schema, x)
    ensures ResolveX(x, schema, facts) == Ok(d) <==>
            EntityIs(e, schema, facts) == Ok(d.e) && FieldAsks(f, schema, facts, d) && d.op.Assert?
    ensures ResolveX(x, schema, facts).Ok? <==> EntityIs(e, schema, facts).Ok? && Meaningful(f.v, f.a, schema, facts)
  {
    hide SingleOwner, KW_DB_ID, ResolveValue, ValueIs, EntityIs, ResolveX, Stands;
    forall w ensures ValueIs(x.v, schema, facts) == Ok(w) <==> Stands(f.v, f.a, schema, facts, w) {
      StandsMean(f.v, f.a, schema, facts, w);
    }
    DatomIs(x, schema, facts, d);
    PairResolves(x, schema, facts);
    assert ValueIs(x.v, schema, facts).Ok? <==> Meaningful(f.v, f.a, schema, facts);
  }

  /** A field that stands for something can be read. */
  lemma MeaningfulReads(f: Field, schema: Schema, facts: set<Fact>)
    requires SingleOwner(facts, schema) && Meaningful(f.v, f.a, schema, facts)
    ensures FieldReads(f, schema)
  {
    hide SingleOwner, KW_DB_ID, ResolveValue, ValueIs, Stands;
    var w :| Stands(f.v, f.a, schema, facts, w);
    StandsMean(f.v, f.a, schema, facts, w);
  }

  lemma HasSubject(fields: seq<Field>, n: nat, schema: Schema) returns (x: EntityX)
    ensures if Anonymous(Put(fields)) || (exists v :: DbIdIs(fields, v) && Readable(v, schema))
            then IsSubject(fields, n, schema, x) && forall v :: DbIdIs(fields, v) ==> Readable(v, schema)
            else Alone(Put(fields), schema, n).Err? && exists v :: DbIdIs(fields, v) && !Readable(v, schema)
  {
    hide KW_DB_ID, ResolveDbId, ExpandFields, Anonymous, DbIdIs, AutoTempId, Readable;
    DbIdFound(fields);
    x := XTemp(AutoTempId(n));
    if v :| DbIdIs(fields, v) {
      ReadableIff(v, schema);
      if Readable(v, schema) { x := ResolveDbId(v, schema).value; }
    }
  }

  lemma ReadableIff(v: DataType, schema: Schema)
    ensures ResolveDbId(v, schema).Ok? <==> Readable(v, schema)
  {
  }

  /** The datoms of a put. */
  ghost predicate PutIs(fields: seq<Field>, schema: Schema, x: EntityX, xs: seq<DatomX>) {
    forall y :: y in xs <==> exists f :: f in fields && ReadAs(x, f, schema, y)
  }

  lemma PutAlone(fields: seq<Field>, n: nat, schema: Schema, x: EntityX)
    requires IsSubject(fields, n, schema, x)
    ensures Alone(Put(fields), schema, n).Ok? <==> forall f :: f in fields ==> FieldReads(f, schema)
    ensures Alone(Put(fields), schema, n).Ok? ==>
            Alone(Put(fields), schema, n).value.targets == [] &&
            PutIs(fields, schema, x, Alone(Put(fields), schema, n).value.datoms)
  {
    hide IsSubject, Alone, FieldReads, ReadAs;
    forall y ensures Alone(Put(fields), schema, n).Ok? <==> forall f :: f in fields ==> FieldReads(f, schema)
             ensures Alone(Put(fields), schema, n).Ok? ==>
                     && Alone(Put(fields), schema, n).value.targets == []
                     && (y in Alone(Put(fields), schema, n).value.datoms <==>
                         exists f :: f in fields && ReadAs(x, f, schema, y))
    {
      PutGives(fields, n, schema, x, y);
    }
    var y := DatomX(x, KW_DB_ID, XData(Long(0)), Assert);
    PutGives(fields, n, schema, x, y);
  }

  /** The data fields of a put resolve exactly if its subject is known and they stand for something. */
  lemma FieldsResolve(fields: seq<Field>, schema: Schema, facts: set<Fact>, x: EntityX, xs: seq<DatomX>)
    requires SingleOwner(facts, schema) && PutIs(fields, schema, x, xs) && forall f ::
             f in fields ==> FieldReads(f, schema)
    ensures AllResolve(xs, schema, facts) <==>
            forall f :: f in fields && f.a != KW_DB_ID ==>
              EntityIs(x, schema, facts).Ok? && Meaningful(f.v, f.a, schema, facts)
  {
    hide SingleOwner, KW_DB_ID, ResolveValue, EntityIs, ResolveX, Meaningful;
    forall f, y | f in fields && ReadAs(x, f, schema, y)
      ensures y in xs
      ensures ResolveX(y, schema, facts).Ok? <==> EntityIs(x, schema, facts).Ok? && Meaningful(f.v, f.a, schema, facts)
    {
      FieldMeans(x, f, schema, facts, y, TDatom(Id(0), f.a, Data(Long(0)), Assert));
    }
    forall f | f in fields && f.a != KW_DB_ID
      ensures exists y :: ReadAs(x, f, schema, y)
    {
      assert FieldReads(f, schema);
      assert ReadAs(x, f, schema, DatomX(x, f.a, ResolveValue(f.v, f.a, schema).value, Assert));
    }
  }

  lemma FieldsYield(fields: seq<Field>, schema: Schema, facts: set<Fact>, x: EntityX, xs: seq<DatomX>, d: TDatom)
    requires SingleOwner(facts, schema) && PutIs(fields, schema, x, xs) && forall f ::
             f in fields ==> FieldReads(f, schema)
    ensures Yields(xs, schema, facts, d) <==>
            d.op.Assert? && EntityIs(x, schema, facts) == Ok(d.e) &&
            exists f :: f in fields && FieldAsks(f, schema, facts, d)
  {
    hide SingleOwner, KW_DB_ID, ResolveValue, EntityIs, ResolveX, Stands;
    forall f, y | f in fields && ReadAs(x, f, schema, y)
      ensures y in xs
      ensures ResolveX(y, schema, facts) == Ok(d) <==>
              EntityIs(x, schema, facts) == Ok(d.e) && FieldAsks(f, schema, facts, d) && d.op.Assert?
    {
      FieldMeans(x, f, schema, facts, y, d);
    }
    if f :| f in fields && FieldAsks(f, schema, facts, d) {
      assert FieldReads(f, schema);
      assert ReadAs(x, f, schema, DatomX(x, f.a, ResolveValue(f.v, f.a, schema).value, Assert));
    }
  }

  lemma PutMeans(fields: seq<Field>, n: nat, schema: Schema, facts: set<Fact>, d: TDatom)
    requires SingleOwner(facts, schema)
    ensures Gives(Put(fields), n, schema, facts) <==> PutSensible(fields, schema, facts)
    ensures Gives(Put(fields), n, schema, facts) ==>
            (Yields(Alone(Put(fields), schema, n).value.datoms, schema, facts, d) <==>
             Demands(Put(fields), n, schema, facts, d))
  {
    hide SingleOwner, KW_DB_ID, Alone, EntityIs, Subject, SubjectKnown, Meaningful, FieldAsks, FieldReads, Anonymous,
         DbIdIs, Readable, IsSubject, ResolveTarget, PutIs, AllResolve, Yields;
    var x := HasSubject(fields, n, schema);
    if Anonymous(Put(fields)) || exists v :: DbIdIs(fields, v) && Readable(v, schema) {
      SubjectMeans(fields, n, schema, facts, x, d.e);
      PutAlone(fields, n, schema, x);
      if forall f :: f in fields ==> FieldReads(f, schema) {
        var xs := Alone(Put(fields), schema, n).value.datoms;
        FieldsResolve(fields, schema, facts, x, xs);
        FieldsYield(fields, schema, facts, x, xs, d);
      } else {
        var f :| f in fields && !FieldReads(f, schema);
        NotRead(f, schema);
        if PutSensible(fields, schema, facts) { MeaningfulReads(f, schema, facts); }
      }
    }
  }

  lemma NotRead(f: Field, schema: Schema)
    requires !FieldReads(f, schema)
    ensures f.a != KW_DB_ID
  {
  }

  /** The entity a retraction targets. */
  lemma TargetMeans(r: EntityRef, schema: Schema, facts: set<Fact>, id: I64)
    requires SingleOwner(facts, schema) && (r.RefId? || r.RefLookup?)
    ensures RetractTarget(r, schema).Ok? && ResolveTarget(RetractTarget(r, schema).value, schema, facts) == Ok(id) <==>
            Names(r, schema, facts, Id(id)) && ExtractPartition(id) != DB_PARTITION &&
              ExtractPartition(id) != TX_PARTITION
    ensures Names(r, schema, facts, Id(id)) ==>
            RetractTarget(r, schema).Ok? && forall j: I64 :: Names(r, schema, facts, Id(j)) ==> j == id
  {
    hide SingleOwner, LookupRef, Identifies, ExtractPartition;
    if r.RefLookup? {
      forall j: I64 ensures r.a in schema.idents && LookupRef(schema.idents[r.a], r.v, schema, facts) == Ok(j) <==>
                       Identifies(r.a, r.v, schema, facts, j)
      {
        LookupMeans(r.a, r.v, schema, facts, j);
      }
    }
  }

  lemma RetractMeans(r: EntityRef, n: nat, schema: Schema, facts: set<Fact>)
    requires SingleOwner(facts, schema)
    ensures Gives(RetractEntity(r), n, schema, facts) <==> Retractable(r, schema, facts)
    ensures Gives(RetractEntity(r), n, schema, facts) ==>
            var y := Alone(RetractEntity(r), schema, n).value;
            y.datoms == [] && forall id: I64 ::
              (exists t :: t in y.targets && ResolveTarget(t, schema, facts) == Ok(id)) <==>
                Names(r, schema, facts, Id(id))
  {
    hide SingleOwner, ResolveTarget, Names, ExtractPartition, ResolveX;
    if r.RefId? || r.RefLookup? {
      hide RetractTarget;
      forall id: I64
        ensures RetractTarget(r, schema).Ok? &&
                ResolveTarget(RetractTarget(r, schema).value, schema, facts) == Ok(id) <==>
                Names(r, schema, facts, Id(id)) && ExtractPartition(id) != DB_PARTITION &&
                  ExtractPartition(id) != TX_PARTITION
        ensures Names(r, schema, facts, Id(id)) ==>
                RetractTarget(r, schema).Ok? && forall j: I64 :: Names(r, schema, facts, Id(j)) ==> j == id
      {
        TargetMeans(r, schema, facts, id);
      }
      if RetractTarget(r, schema).Ok? {
        var t := RetractTarget(r, schema).value;
        assert Alone(RetractEntity(r), schema, n).value.targets == [t];
        assert t in [t];
      }
    }
  }

  /** What one operation gives is what it asks for. */
  lemma OpMeans(op: TxOp, n: nat, schema: Schema, facts: set<Fact>, d: TDatom)
    requires SingleOwner(facts, schema)
    ensures Gives(op, n, schema, facts) <==> Sensible(op, schema, facts)
    ensures Gives(op, n, schema, facts) && !op.RetractEntity? ==>
            Alone(op, schema, n).value.targets == [] &&
            (Yields(Alone(op, schema, n).value.datoms, schema, facts, d) <==> Demands(op, n, schema, facts, d))
  {
    hide SingleOwner, Alone, AllResolve, ResolveTarget, Yields, Demands, PutSensible, Retractable, Nameable, Meaningful;
    match op
    case Add(_, _, _) => { PlainMeans(op, n, schema, facts, d); NoTargets(op, schema, n); }
    case Remove(_, _, _) => { PlainMeans(op, n, schema, facts, d); NoTargets(op, schema, n); }
    case Put(fields) => { PutMeans(fields, n, schema, facts, d); NoTargets(op, schema, n); }
    case RetractEntity(r) => RetractMeans(r, n, schema, facts);
    case Erase(_) => NeverGives(op, n, schema, facts);
  }

  lemma NoTargets(op: TxOp, schema: Schema, n: nat)
    requires !op.RetractEntity?
    ensures Alone(op, schema, n).Ok? ==> Alone(op, schema, n).value.targets == []
  {
    hide KW_DB_ID, ResolveEntityRef, ResolveDbId, ResolveValue, ExpandFields, DbId, AutoTempId;
  }

  lemma NeverGives(op: TxOp, n: nat, schema: Schema, facts: set<Fact>)
    requires op.Erase?
    ensures !Gives(op, n, schema, facts)
  {
  }
}
