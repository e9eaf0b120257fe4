/** The loops of transaction expansion, over the stored keys. */
module Expander {
  import opened Octets
  import opened Values
  import opened Facts
  import opened Model
  import opened Store
  import opened Lookup
  import opened Partition
  import opened Expand
  import opened Resolver

  /** `expand_tx_ops_unresolved`. */
  method ExpandUnresolved(ops: seq<TxOp>, schema: Schema) returns (r: Result<Expanded>)
    ensures r == ExpandOps(ops, schema, Expanded([], [], 0))
  {
    hide ExpandOp;
    var x := Expanded([], [], 0);
    assert ops[0..] == ops;
    for i := 0 to |ops|
      invariant ExpandOps(ops, schema, Expanded([], [], 0)) == ExpandOps(ops[i..], schema, x)
    {
      assert ops[i..][0] == ops[i] && ops[i..][1..] == ops[i + 1..];
      var y := ExpandOp(ops[i], schema, x);
      if y.Err? { return y; }
      x := y.value;
    }
    return Ok(x);
  }

  // --- Lookup refs -----------------------------------------------------------------------

  function EntityLookup(e: EntityX): seq<(I64, DataType)> { if e.XLookup? then [(e.a, e.v)] else [] }

  function ValueLookup(v: ValueX): seq<(I64, DataType)> { if v.XRef? then [(v.a, v.v)] else [] }

  function LookupsOf(d: DatomX): seq<(I64, DataType)> { EntityLookup(d.e) + ValueLookup(d.v) }

  ghost predicate Allowed(ls: seq<(I64, DataType)>, schema: Schema) {
    forall l :: l in ls ==> LookupAllowed(l.0, l.1, schema)
  }

  /** Every lookup of `x`. */
  ghost predicate AllLookups(ls: seq<(I64, DataType)>, x: Expanded) {
    && (forall d, l :: d in x.datoms && l in LookupsOf(d) ==> l in ls)
    && (forall e, l :: e in x.targets && l in EntityLookup(e) ==> l in ls)
    && (forall l :: l in ls ==>
       (exists d :: d in x.datoms && l in LookupsOf(d)) || (exists e :: e in x.targets && l in EntityLookup(e)))
  }

  method CollectLookups(x: Expanded) returns (ls: seq<(I64, DataType)>)
    ensures AllLookups(ls, x)
  {
    hide LookupsOf, EntityLookup;
    ls := [];
    for i := 0 to |x.datoms|
      invariant forall j, l :: 0 <= j < i && l in LookupsOf(x.datoms[j]) ==> l in ls
      invariant forall l :: l in ls ==> exists d :: d in x.datoms && l in LookupsOf(d)
    {
      var d := x.datoms[i];
      assert d in x.datoms;
      ls := ls + LookupsOf(d);
    }
    for i := 0 to |x.targets|
      invariant forall d, l :: d in x.datoms && l in LookupsOf(d) ==> l in ls
      invariant forall j, l :: 0 <= j < i && l in EntityLookup(x.targets[j]) ==> l in ls
      invariant forall l :: l in ls ==>
                (exists d :: d in x.datoms && l in LookupsOf(d)) || (exists e :: e in x.targets && l in EntityLookup(e))
    {
      var e := x.targets[i];
      assert e in x.targets;
      ls := ls + EntityLookup(e);
    }
  }

  /** `validate_unique_identity_lookup` on every lookup. */
  method CheckLookups(ls: seq<(I64, DataType)>, schema: Schema) returns (ok: bool)
    ensures ok <==> Allowed(ls, schema)
  {
    hide LookupAllowed;
    for i := 0 to |ls|
      invariant forall j :: 0 <= j < i ==> LookupAllowed(ls[j].0, ls[j].1, schema)
    {
      if !LookupAllowed(ls[i].0, ls[i].1, schema) {
        assert ls[i] in ls;
        return false;
      }
    }
    return true;
  }

  function Answer(resolved: map<(I64, DataType), I64>, l: (I64, DataType)): Result<I64> {
    if Reflexive(l.1) && l in resolved then Ok(resolved[l]) else Err(false)
  }

  /** The answers of the batch, for the lookups in `ls`. */
  ghost predicate Answered(resolved: map<(I64, DataType), I64>, ls: seq<(I64, DataType)>, schema: Schema,
                           facts: set<Fact>)
  {
    forall l :: l in ls ==> Answer(resolved, l) == LookupRef(l.0, l.1, schema, facts)
  }

  lemma BatchAnswers(resolved: map<(I64, DataType), I64>, ls: seq<(I64, DataType)>, schema: Schema, facts: set<Fact>)
    requires OwnersOf(resolved, Elems(ls), facts, UniqueAttrs(schema)) && OneOwnerAll(facts, UniqueAttrs(schema)) &&
             Allowed(ls, schema)
    ensures Answered(resolved, ls, schema, facts)
  {
    hide OwnersOf, OneOwnerAll, Reflexive;
    forall l | l in ls ensures Answer(resolved, l) == LookupRef(l.0, l.1, schema, facts) {
      if Reflexive(l.1) { AnswerIsHit(resolved, Elems(ls), facts, UniqueAttrs(schema), l); }
    }
  }

  function AnswerDatom(resolved: map<(I64, DataType), I64>, d: DatomX): Result<TDatom> {
    var e: EntityT :-
      match d.e
      case XId(id) => Ok(Id(id))
      case XTemp(t) => Ok(Temp(t))
      case XLookup(a, v) => (var id :- Answer(resolved, (a, v)); Ok(Id(id)));
    var v: ValueT :-
      match d.v
      case XData(v) => Ok(Data(v))
      case XTempRef(t) => Ok(TempRef(t))
      case XRef(a, v) => (var id :- Answer(resolved, (a, v)); Ok(Data(Long(id))));
    Ok(TDatom(e, d.a, v, d.op))
  }

  lemma AnswerDatomIs(resolved: map<(I64, DataType), I64>, ls: seq<(I64, DataType)>, d: DatomX, schema: Schema,
                      facts: set<Fact>)
    requires Answered(resolved, ls, schema, facts) && forall l :: l in LookupsOf(d) ==> l in ls
    ensures AnswerDatom(resolved, d) == ResolveX(d, schema, facts)
  {
    hide Answer, LookupRef;
    if d.e.XLookup? { assert (d.e.a, d.e.v) in LookupsOf(d); }
    if d.v.XRef? { assert (d.v.a, d.v.v) in LookupsOf(d); }
  }

  function After(out: seq<TDatom>, r: Result<seq<TDatom>>): Result<seq<TDatom>> {
    if r.Err? then r else Ok(out + r.value)
  }

  /** The datom pass of `resolve_lookup_refs`. */
  method AnswerDatoms(ds: seq<DatomX>, resolved: map<(I64, DataType), I64>, ghost ls: seq<(I64, DataType)>,
                      schema: Schema, ghost facts: set<Fact>)
    returns (r: Result<seq<TDatom>>)
    requires Answered(resolved, ls, schema, facts) && forall d, l :: d in ds && l in LookupsOf(d) ==> l in ls
    ensures r == ResolveXs(ds, schema, facts)
  {
    hide AnswerDatom, ResolveX, Answered, LookupsOf;
    var out: seq<TDatom> := [];
    assert ds[0..] == ds;
    ghost var whole := ResolveXs(ds, schema, facts);
    assert whole.Ok? ==> [] + whole.value == whole.value;
    for i := 0 to |ds|
      invariant whole == After(out, ResolveXs(ds[i..], schema, facts))
    {
      assert ds[i..][0] == ds[i] && ds[i..][1..] == ds[i + 1..] && ds[i] in ds;
      AnswerDatomIs(resolved, ls, ds[i], schema, facts);
      var d := AnswerDatom(resolved, ds[i]);
      if d.Err? { return Err(d.halt); }
      ghost var rest := ResolveXs(ds[i + 1..], schema, facts);
      assert rest.Ok? ==> out + ([d.value] + rest.value) == out + [d.value] + rest.value;
      out := out + [d.value];
    }
    assert out + [] == out;
    return Ok(out);
  }

  function AnswerTarget(resolved: map<(I64, DataType), I64>, e: EntityX): Result<I64> {
    var id :-
      match e
      case XId(id) => Ok(id)
      case XTemp(_) => Err(false)
      case XLookup(a, v) => Answer(resolved, (a, v));
    if ExtractPartition(id) == DB_PARTITION || ExtractPartition(id) == TX_PARTITION then Err(false) else Ok(id)
  }

  lemma AnswerTargetIs(resolved: map<(I64, DataType), I64>, ls: seq<(I64, DataType)>, e: EntityX, schema: Schema,
                       facts: set<Fact>)
    requires Answered(resolved, ls, schema, facts) && forall l :: l in EntityLookup(e) ==> l in ls
    ensures AnswerTarget(resolved, e) == ResolveTarget(e, schema, facts)
  {
    hide Answer, LookupRef, ExtractPartition;
    if e.XLookup? { assert (e.a, e.v) in EntityLookup(e); }
  }

  function Joined(out: set<I64>, r: Result<set<I64>>): Result<set<I64>> {
    if r.Err? then r else Ok(out + r.value)
  }

  /** The target pass, with the partition check. */
  method AnswerTargets(es: seq<EntityX>, resolved: map<(I64, DataType), I64>, ghost ls: seq<(I64, DataType)>,
                       schema: Schema, ghost facts: set<Fact>)
    returns (r: Result<set<I64>>)
    requires Answered(resolved, ls, schema, facts) && forall e, l :: e in es && l in EntityLookup(e) ==> l in ls
    ensures r == ResolveTargets(es, schema, facts)
  {
    hide AnswerTarget, ResolveTarget, Answered, EntityLookup;
    var out: set<I64> := {};
    assert es[0..] == es;
    ghost var whole := ResolveTargets(es, schema, facts);
    assert whole.Ok? ==> {} + whole.value == whole.value;
    for i := 0 to |es|
      invariant whole == Joined(out, ResolveTargets(es[i..], schema, facts))
    {
      assert es[i..][0] == es[i] && es[i..][1..] == es[i + 1..] && es[i] in es;
      AnswerTargetIs(resolved, ls, es[i], schema, facts);
      var e := AnswerTarget(resolved, es[i]);
      if e.Err? { return Err(e.halt); }
      ghost var rest := ResolveTargets(es[i + 1..], schema, facts);
      assert rest.Ok? ==> out + ({e.value} + rest.value) == out + {e.value} + rest.value;
      out := out + {e.value};
    }
    assert out + {} == out;
    return Ok(out);
  }

  // --- Entities retracted as a whole -----------------------------------------------------

  /** The triples seen so far, as retractions. */
  ghost predicate RetractsTriples(rets: seq<TDatom>, triples: seq<Triple>, n: nat, schema: Schema)
    requires n <= |triples|
  {
    && (forall d :: d in rets ==> d.e.Id? && d.v.Data? && d.op.Retract?)
    && (forall e, k, v :: TDatom(Id(e), k, Data(v), Retract) in rets <==> NamedTriple(triples[..n], schema, e, k, v))
  }

  ghost predicate NamedTriple(triples: seq<Triple>, schema: Schema, e: I64, k: Keyword, v: DataType) {
    exists t :: t in triples && t.e == e && t.v == v && t.a in schema.entids && schema.entids[t.a] == k
  }

  lemma RetractsStep(rets: seq<TDatom>, triples: seq<Triple>, n: nat, schema: Schema)
    requires n < |triples| && RetractsTriples(rets, triples, n, schema)
    ensures var t := triples[n];
            RetractsTriples(if t.a in schema.entids
              then rets + [TDatom(Id(t.e), schema.entids[t.a], Data(t.v), Retract)] else rets,
                            triples, n + 1, schema)
  {
    var t := triples[n];
    assert triples[..n + 1] == triples[..n] + [t];
    forall e, k, v ensures NamedTriple(triples[..n + 1], schema, e, k, v) <==>
      NamedTriple(triples[..n], schema, e, k, v) ||
        (t.e == e && t.v == v && t.a in schema.entids && schema.entids[t.a] == k)
    {
      if NamedTriple(triples[..n], schema, e, k, v) {
        var u :| u in triples[..n] && u.e == e && u.v == v && u.a in schema.entids && schema.entids[u.a] == k;
        assert u in triples[..n + 1];
      }
    }
    hide NamedTriple;
  }

  lemma RetractsAre(rets: seq<TDatom>, triples: seq<Triple>, targets: set<I64>, schema: Schema, facts: set<Fact>)
    requires RetractsTriples(rets, triples, |triples|, schema)
    requires forall t: Triple :: t in triples <==> t.e in targets && Live(facts, t.e, t.a, t.v)
    ensures RetractsLive(rets, targets, schema, facts)
    ensures (forall t :: t in triples ==> t.a in schema.entids) <==> TargetsNamed(targets, schema, facts)
  {
    hide Live;
    assert triples[..|triples|] == triples;
    forall e, k, v ensures NamedTriple(triples, schema, e, k, v) <==>
      e in targets && exists a: I64 :: a in schema.entids && schema.entids[a] == k && Live(facts, e, a, v)
    {
      if e in targets {
        forall a: I64 | a in schema.entids && schema.entids[a] == k && Live(facts, e, a, v)
          ensures NamedTriple(triples, schema, e, k, v)
        {
          assert Triple(e, a, v) in triples;
        }
      }
    }
    if forall t :: t in triples ==> t.a in schema.entids {
      forall e, a: I64, v | e in targets && Live(facts, e, a, v)
        ensures a in schema.entids
      {
        assert Triple(e, a, v) in triples;
      }
    }
  }

  /** `batch_lookup_active_entity_datoms`. */
  method EntityRetractions(targets: set<I64>, schema: Schema, db: set<Octets>, ghost facts: set<Fact>,
                           ghost unique: set<I64>)
    returns (rets: seq<TDatom>, named: bool)
    requires DbHolds(db, facts, unique) && ValidValues(facts)
    ensures RetractsLive(rets, targets, schema, facts) && (named <==> TargetsNamed(targets, schema, facts))
  {
    hide DbHolds, ValidValues, Live, RetractsLive, TargetsNamed;
    var triples := BatchActiveTriples(db, targets, facts, unique);
    rets, named := [], true;
    RetractsStart(triples, schema);
    hide RetractsTriples;
    for i := 0 to |triples|
      invariant RetractsTriples(rets, triples, i, schema)
      invariant named <==> forall j :: 0 <= j < i ==> triples[j].a in schema.entids
    {
      var t := triples[i];
      RetractsStep(rets, triples, i, schema);
      if t.a in schema.entids {
        rets := rets + [TDatom(Id(t.e), schema.entids[t.a], Data(t.v), Retract)];
      } else {
        named := false;
      }
    }
    assert named <==> forall t :: t in triples ==> t.a in schema.entids;
    RetractsAre(rets, triples, targets, schema, facts);
  }

  lemma RetractsStart(triples: seq<Triple>, schema: Schema)
    ensures RetractsTriples([], triples, 0, schema)
  {
  }

  // --- Explicit ids ----------------------------------------------------------------------

  /** `validate_allocated_entity_ids`. */
  method ValidateAllocated(ds: seq<TDatom>, schema: Schema, pm: Counters) returns (ok: bool)
    ensures ok <==> Allocated(ds, schema, pm)
  {
    hide AllocatedDatom;
    for i := 0 to |ds|
      invariant forall j :: 0 <= j < i ==> AllocatedDatom(ds[j], schema, pm)
    {
      if !AllocatedDatom(ds[i], schema, pm) {
        assert ds[i] in ds;
        return false;
      }
    }
    return true;
  }

  // --- The whole expansion ---------------------------------------------------------------

  /** A lookup that is not allowed fails the resolution of its datom or target. */
  lemma {:induction false} DatomRejected(ds: seq<DatomX>, schema: Schema, facts: set<Fact>, d: DatomX,
                                         l: (I64, DataType))
    requires d in ds && l in LookupsOf(d) && !LookupAllowed(l.0, l.1, schema)
    ensures ResolveXs(ds, schema, facts).Err?
  {
    if d == ds[0] { assert ResolveX(d, schema, facts).Err?; } else { DatomRejected(ds[1..], schema, facts, d, l); }
  }

  lemma {:induction false} TargetRejected(es: seq<EntityX>, schema: Schema, facts: set<Fact>, e: EntityX,
                                          l: (I64, DataType))
    requires e in es && l in EntityLookup(e) && !LookupAllowed(l.0, l.1, schema)
    ensures ResolveTargets(es, schema, facts).Err?
  {
    if e == es[0] {
      assert ResolveTarget(e, schema, facts).Err?;
    } else {
      TargetRejected(es[1..], schema, facts, e, l);
    }
  }

  lemma {:induction false} XsNoHalt(ds: seq<DatomX>, schema: Schema, facts: set<Fact>)
    ensures ResolveXs(ds, schema, facts).Err? ==> ResolveXs(ds, schema, facts) == Err(false)
  {
    if ds != [] { XsNoHalt(ds[1..], schema, facts); }
  }

  lemma {:induction false} TargetsNoHalt(es: seq<EntityX>, schema: Schema, facts: set<Fact>)
    ensures ResolveTargets(es, schema, facts).Err? ==> ResolveTargets(es, schema, facts) == Err(false)
  {
    if es != [] { TargetsNoHalt(es[1..], schema, facts); }
  }

  lemma NotAllowedFails(x: Expanded, ls: seq<(I64, DataType)>, schema: Schema, facts: set<Fact>)
    requires AllLookups(ls, x) && !Allowed(ls, schema)
    ensures ResolveXs(x.datoms, schema, facts).Err? || ResolveTargets(x.targets, schema, facts).Err?
  {
    hide LookupsOf, EntityLookup, LookupAllowed, ResolveXs, ResolveTargets;
    var l :| l in ls && !LookupAllowed(l.0, l.1, schema);
    if d :| d in x.datoms && l in LookupsOf(d) {
      DatomRejected(x.datoms, schema, facts, d, l);
    } else {
      var e :| e in x.targets && l in EntityLookup(e);
      TargetRejected(x.targets, schema, facts, e, l);
    }
  }

  lemma NoTargets(schema: Schema, facts: set<Fact>)
    ensures RetractsLive([], {}, schema, facts)
  {
  }

  /** The outcomes of the expansion, stage by stage. */
  lemma ExpandOutcome(ops: seq<TxOp>, rets: seq<TDatom>, schema: Schema, facts: set<Fact>)
    ensures var out, x := ExpandTxOps(ops, rets, schema, facts), ExpandOps(ops, schema, Expanded([], [], 0));
            && (x.Err? ==> out == Err(x.halt) && TargetsOf(ops, schema, facts) == {})
            && (x.Ok? ==> LookupStage(ops, rets, schema, facts, out, x.value))
  {
    hide ExpandOps, ResolveXs, ResolveTargets, TargetsNamed;
    var x := ExpandOps(ops, schema, Expanded([], [], 0));
    if x.Ok? {
      XsNoHalt(x.value.datoms, schema, facts);
      TargetsNoHalt(x.value.targets, schema, facts);
    }
  }

  ghost predicate LookupStage(ops: seq<TxOp>, rets: seq<TDatom>, schema: Schema, facts: set<Fact>,
                              out: Result<seq<TDatom>>, x: Expanded)
  {
    var ds, ts := ResolveXs(x.datoms, schema, facts), ResolveTargets(x.targets, schema, facts);
    if ds.Err? || ts.Err? then out == Err(false) && TargetsOf(ops, schema, facts) == {}
    else
      && TargetsOf(ops, schema, facts) == ts.value
      && out == if TargetsNamed(ts.value, schema, facts) then Ok(ds.value + rets) else Err(false)
  }

  /** `expand_tx_ops`. */
  method ExpandOperations(ops: seq<TxOp>, schema: Schema, db: set<Octets>, ghost facts: set<Fact>)
    returns (r: Result<seq<TDatom>>, ghost rets: seq<TDatom>)
    requires DbHolds(db, facts, UniqueAttrs(schema)) && ValidValues(facts) && OneOwnerAll(facts, UniqueAttrs(schema))
    ensures RetractsLive(rets, TargetsOf(ops, schema, facts), schema, facts)
    ensures r == ExpandTxOps(ops, rets, schema, facts)
  {
    hide DbHolds, ValidValues, OneOwnerAll, UniqueAttrs, ExpandOps, ResolveXs, ResolveTargets, TargetsNamed,
         RetractsLive, ExpandTxOps, TargetsOf, AllLookups, Allowed, OwnersOf, Answered;
    rets := [];
    NoTargets(schema, facts);
    ExpandOutcome(ops, rets, schema, facts);
    var x := ExpandUnresolved(ops, schema);
    if x.Err? { r := Err(x.halt); return; }
    var ls := CollectLookups(x.value);
    var ok := CheckLookups(ls, schema);
    if !ok {
      NotAllowedFails(x.value, ls, schema, facts);
      r := Err(false);
      return;
    }
    var resolved := BatchLookupUniqueEids(db, ls, facts, UniqueAttrs(schema));
    BatchAnswers(resolved, ls, schema, facts);
    LookupParts(ls, x.value);
    var ds := AnswerDatoms(x.value.datoms, resolved, ls, schema, facts);
    if ds.Err? { r := Err(false); return; }
    var targets := AnswerTargets(x.value.targets, resolved, ls, schema, facts);
    if targets.Err? { r := Err(false); return; }
    var found, named := EntityRetractions(targets.value, schema, db, facts, UniqueAttrs(schema));
    rets := found;
    ExpandOutcome(ops, rets, schema, facts);
    if !named { r := Err(false); return; }
    r := Ok(ds.value + found);
  }

  /** `expand_tx_ops` and the check of explicit ids. */
  method ExpandTransaction(ops: seq<TxOp>, schema: Schema, pm: Counters, db: set<Octets>, ghost facts: set<Fact>)
    returns (r: Result<seq<TDatom>>, ghost rets: seq<TDatom>)
    requires DbHolds(db, facts, UniqueAttrs(schema)) && ValidValues(facts) && OneOwnerAll(facts, UniqueAttrs(schema))
    ensures RetractsLive(rets, TargetsOf(ops, schema, facts), schema, facts)
    ensures r == ExpandTx(ops, rets, schema, facts, pm)
  {
    hide DbHolds, ValidValues, OneOwnerAll, UniqueAttrs, RetractsLive, ExpandTxOps, TargetsOf, Allocated;
    r, rets := ExpandOperations(ops, schema, db, facts);
    if r.Err? { return; }
    var ok := ValidateAllocated(r.value, schema, pm);
    if !ok { r := Err(false); }
  }

  lemma LookupParts(ls: seq<(I64, DataType)>, x: Expanded)
    requires AllLookups(ls, x)
    ensures forall d, l :: d in x.datoms && l in LookupsOf(d) ==> l in ls
    ensures forall e, l :: e in x.targets && l in EntityLookup(e) ==> l in ls
  {
  }
}
