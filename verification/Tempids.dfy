/** Eliminating tempids: upserts first, then one new entity per class of what is left. */
module Tempids {
  import opened Octets
  import opened Values
  import opened Facts
  import opened Model
  import opened Upsert
  import opened Evolution
  import opened Labels
  import opened Partition

  // --- What waits for allocation ---------------------------------------------------------

  /** `allocate_unresolved_upserts`. */
  ghost function Drain(g: Generation, schema: Schema): Result<seq<TDatom>> {
    if forall u :: u in g.evs ==> u.a in schema.entids then Ok(g.allocs + AsEVs(schema, g.evs)) else Err(false)
  }

  ghost function EntityTempIds(ds: seq<TDatom>): set<TempId> {
    set d | d in ds && d.op.Assert? && d.e.Temp? :: d.e.t
  }

  predicate Dangling(d: TDatom) { d.op.Retract? && (d.e.Temp? || d.v.TempRef?) }

  /** No retraction mentions a tempid, every attribute is known, every value tempid is also an entity. */
  ghost predicate Allocatable(ds: seq<TDatom>, schema: Schema) {
    && (forall d :: d in ds ==> !Dangling(d))
    && (forall d :: d in ds && d.op.Assert? ==> GetAttribute(schema, d.a).Some?)
    && (forall d :: d in ds && d.op.Assert? && d.v.TempRef? ==> d.v.t in EntityTempIds(ds))
  }

  /** Two values are one key of the identity table. */
  predicate SameValueKey(v: ValueT, w: ValueT) {
    v == w && (v.Data? ==> Reflexive(v.v))
  }

  predicate AssertsIdentity(d: TDatom, schema: Schema) {
    d.op.Assert? && d.e.Temp? && GetAttribute(schema, d.a).Some? && IsIdentity(GetAttribute(schema, d.a).value.attr)
  }

  /** Both datoms assert the same unresolved identity for a tempid. */
  predicate SharesIdentity(d: TDatom, f: TDatom, schema: Schema) {
    && AssertsIdentity(d, schema) && AssertsIdentity(f, schema)
    && GetAttribute(schema, d.a).value.id == GetAttribute(schema, f.a).value.id
    && SameValueKey(d.v, f.v)
  }

  ghost function IdentityEdges(ds: seq<TDatom>, schema: Schema): Edges {
    set d, f | d in ds && f in ds && SharesIdentity(d, f, schema) :: (d.e.t, f.e.t)
  }

  // --- Partitions of classes -------------------------------------------------------------

  /** Some input datom asserts `:db/ident` for the tempid. */
  ghost predicate NamesIdent(datoms: seq<TDatom>, t: TempId) {
    exists d :: d in datoms && d.e == Temp(t) && d.op.Assert? && d.a == KW_IDENT
  }

  /** The labels are exactly the numbers below `n`. */
  ghost predicate Dense(labels: map<TempId, nat>, n: nat) {
    && (forall t :: t in labels ==> labels[t] < n)
    && (forall k: nat :: k < n ==> Used(labels, k))
  }

  ghost predicate Used(labels: map<TempId, nat>, k: nat) {
    exists t :: t in labels && labels[t] == k
  }

  ghost function LabelCount(labels: map<TempId, nat>): nat {
    if n: nat :| Dense(labels, n) then n else 0
  }

  ghost predicate ClassNamesIdent(datoms: seq<TDatom>, labels: map<TempId, nat>, k: nat) {
    exists t :: t in labels && labels[t] == k && NamesIdent(datoms, t)
  }

  /** A class goes to the schema partition exactly if some member asserts `:db/ident`. */
  ghost function ClassPartitions(datoms: seq<TDatom>, labels: map<TempId, nat>): (parts: seq<nat>)
    ensures |parts| == LabelCount(labels) && InRange(parts)
    ensures forall k: nat ::
            k < |parts| ==> parts[k] == if ClassNamesIdent(datoms, labels, k) then DB_PARTITION else USER_PARTITION
  {
    seq(LabelCount(labels), k requires k >= 0 =>
      if ClassNamesIdent(datoms, labels, k) then DB_PARTITION else USER_PARTITION)
  }

  lemma LabellingDense(labels: map<TempId, nat>, tempids: set<TempId>, edges: Edges)
    requires IsLabelling(labels, tempids, edges)
    ensures exists n: nat :: Dense(labels, n)
  {
    if tempids == {} {
      assert Dense(labels, 0);
    } else {
      var t := MaxLabel(labels, tempids);
      forall k: nat | k < labels[t] + 1 ensures Used(labels, k) {
        if k < labels[t] {
          assert EarlierWith(labels, t, k);
        }
      }
      assert Dense(labels, labels[t] + 1);
    }
  }

  lemma {:induction false} MaxLabel(labels: map<TempId, nat>, s: set<TempId>) returns (t: TempId)
    requires s != {} && s <= labels.Keys
    ensures t in s && forall u :: u in s ==> labels[u] <= labels[t]
  {
    var x :| x in s;
    var rest := s - {x};
    t := x;
    if rest != {} {
      var y := MaxLabel(labels, rest);
      if labels[y] > labels[x] { t := y; }
    }
    forall u | u in s ensures labels[u] <= labels[t] {
      if u != x { assert u in rest; }
    }
  }

  // --- The whole resolution --------------------------------------------------------------

  function Finals(ds: seq<TDatom>, m: TempMap): Result<seq<Datom>> {
    if ds == [] then Ok([])
    else
      var s := Substitute(ds[0], m);
      if !Concrete(s) then Err(false)
      else
        var rest :- Finals(ds[1..], m);
        Ok([ToDatom(s)] + rest)
  }

  /**
   * The datoms and counters `resolve_tempids` returns, with the assignment of tempids, the
   * upserts dropped on the way and the ids given out.
   */
  datatype Resolution = Resolution(datoms: seq<Datom>, pm: Counters, sigma: TempMap, dropped: seq<Upserted>,
    ids: seq<I64>)

  ghost function Assign(labels: map<TempId, nat>, ids: seq<I64>): TempMap {
    map t | t in labels && labels[t] < |ids| :: ids[labels[t]]
  }

  ghost function ResolveTempids(datoms: seq<TDatom>, schema: Schema, facts: set<Fact>, pm: Counters): Result<Resolution>
  {
    var split :- SplitAll(datoms, schema, Split(EMPTY, []));
    var ev :- EvolveAll(split.gen, map[], schema, facts);
    var allocs :- Drain(ev.gen, schema);
    if !Allocatable(allocs, schema) then Err(false)
    else
      var labels := Labelling(EntityTempIds(allocs), IdentityEdges(allocs, schema));
      var alloc :- AllocateAll(ClassPartitions(datoms, labels), pm);
      var given := Assign(labels, alloc.ids);
      var finals :- Finals(allocs, given);
      Ok(Resolution(ev.gen.upserted + ev.gen.resolved + finals + split.inert, alloc.pm,
                    ev.bound + given, ev.dropped, alloc.ids))
  }

  // --- Splitting loses nothing -----------------------------------------------------------

  lemma SplitStep(sigma: TempMap, d: TDatom, schema: Schema, s: Split)
    requires Inverse(schema) && Classify(d, schema, s).Ok?
    ensures var n := Classify(d, schema, s).value;
            Content(sigma, schema, n.gen) + multiset(n.inert) ==
            Content(sigma, schema, s.gen) + multiset(s.inert) + multiset{Img(sigma, d)}
  {
    hide Content;
    var a := GetAttribute(schema, d.a).value.id;
    assert AttrName(schema, a) == d.a;
    if d.e.Temp? && d.v.Data? { ContentAddE(sigma, schema, s.gen, UpsertE(d.e.t, a, d.v.v)); }
    if d.e.Temp? && d.v.TempRef? { ContentAddEV(sigma, schema, s.gen, UpsertEV(d.e.t, a, d.v.t)); }
    ContentAddAlloc(sigma, schema, s.gen, d);
  }

  lemma {:induction false} SplitConserves(sigma: TempMap, ds: seq<TDatom>, schema: Schema, s: Split)
    requires Inverse(schema) && SplitAll(ds, schema, s).Ok?
    ensures var out := SplitAll(ds, schema, s).value;
            Content(sigma, schema, out.gen) + multiset(out.inert) ==
            Content(sigma, schema, s.gen) + multiset(s.inert) + multiset(Imgs(sigma, ds))
  {
    hide Content, Classify;
    if ds != [] {
      SplitStep(sigma, ds[0], schema, s);
      SplitConserves(sigma, ds[1..], schema, Classify(ds[0], schema, s).value);
      ImgsHead(sigma, ds);
    }
  }

  // --- Every tempid is bound or waits ----------------------------------------------------

  ghost function Waiting(g: Generation): set<TempId> {
    (set u | u in g.es :: u.t) + EVTempIds(g.evs) + AllTempIds(g.allocs)
  }

  ghost function EVTempIds(us: seq<UpsertEV>): set<TempId> {
    (set u | u in us :: u.t1) + (set u | u in us :: u.t2)
  }

  lemma {:induction false} SplitWaits(ds: seq<TDatom>, schema: Schema, s: Split)
    requires SplitAll(ds, schema, s).Ok?
    ensures Waiting(s.gen) + AllTempIds(ds) <= Waiting(SplitAll(ds, schema, s).value.gen)
  {
    if ds != [] {
      var n := Classify(ds[0], schema, s).value;
      assert ds == [ds[0]] + ds[1..];
      assert AllTempIds(ds) == TempIdsOf(ds[0]) + AllTempIds(ds[1..]);
      assert Waiting(s.gen) + TempIdsOf(ds[0]) <= Waiting(n.gen) by { ClassifyWaits(ds[0], schema, s); }
      SplitWaits(ds[1..], schema, n);
    }
  }

  lemma WaitingAddE(g: Generation, u: UpsertE)
    ensures Waiting(g.(es := g.es + [u])) == Waiting(g) + {u.t}
  {
    assert u in g.es + [u];
  }

  lemma WaitingAddEV(g: Generation, u: UpsertEV)
    ensures Waiting(g.(evs := g.evs + [u])) == Waiting(g) + {u.t1, u.t2}
  {
    assert u in g.evs + [u];
  }

  lemma WaitingAddAlloc(g: Generation, d: TDatom)
    ensures Waiting(g.(allocs := g.allocs + [d])) == Waiting(g) + TempIdsOf(d)
  {
    assert d in g.allocs + [d];
  }

  lemma ClassifyWaits(d: TDatom, schema: Schema, s: Split)
    requires Classify(d, schema, s).Ok?
    ensures Waiting(s.gen) + TempIdsOf(d) <= Waiting(Classify(d, schema, s).value.gen)
  {
    hide Waiting;
    var a := GetAttribute(schema, d.a).value.id;
    if d.e.Temp? && d.v.Data? { WaitingAddE(s.gen, UpsertE(d.e.t, a, d.v.v)); }
    if d.e.Temp? && d.v.TempRef? { WaitingAddEV(s.gen, UpsertEV(d.e.t, a, d.v.t)); }
    WaitingAddAlloc(s.gen, d);
  }

  lemma {:induction false} WaitsFoldE(us: seq<UpsertE>, m: TempMap, r: TempMap, schema: Schema, next: Generation)
    requires m.Keys <= r.Keys && FoldE(us, m, r, schema, next).Ok?
    ensures (set u | u in us :: u.t) + Waiting(next) <= Waiting(FoldE(us, m, r, schema, next).value) + r.Keys
  {
    hide *;
    if us != [] {
      FoldEUnfolds(us, m, r, schema, next);
      var n := StepE(us[0], m, r, schema, next).value;
      WaitsFoldE(us[1..], m, r, schema, n);
      WaitsE(us[0], m, r, schema, next);
      assert us == [us[0]] + us[1..];
    } else {
      FoldEEmpty(m, r, schema, next);
    }
  }

  lemma FoldEEmpty(m: TempMap, r: TempMap, schema: Schema, next: Generation)
    ensures FoldE([], m, r, schema, next) == Ok(next)
  {
  }

  lemma FoldEUnfolds(us: seq<UpsertE>, m: TempMap, r: TempMap, schema: Schema, next: Generation)
    requires us != [] && FoldE(us, m, r, schema, next).Ok?
    ensures StepE(us[0], m, r, schema, next).Ok?
    ensures FoldE(us, m, r, schema, next) == FoldE(us[1..], m, r, schema, StepE(us[0], m, r, schema, next).value)
  {
  }

  lemma WaitsE(u: UpsertE, m: TempMap, r: TempMap, schema: Schema, next: Generation)
    requires m.Keys <= r.Keys && StepE(u, m, r, schema, next).Ok?
    ensures {u.t} + Waiting(next) <= Waiting(StepE(u, m, r, schema, next).value) + r.Keys
  {
    WaitingAddAlloc(next, TDatom(Temp(u.t), schema.entids[u.a], Data(u.v), Assert));
  }

  lemma WaitsEV(u: UpsertEV, m: TempMap, r: TempMap, schema: Schema, next: Generation)
    requires m.Keys <= r.Keys && StepEV(u, m, r, schema, next).Ok?
    ensures {u.t1, u.t2} + Waiting(next) <= Waiting(StepEV(u, m, r, schema, next).value) + r.Keys
  {
    hide Waiting;
    match (Either(m, r, u.t1), Either(m, r, u.t2))
    case (_, Some(e2)) => WaitingAddE(next, UpsertE(u.t1, u.a, Long(e2)));
    case (Some(e1), None) => WaitingAddAlloc(next, TDatom(Id(e1), schema.entids[u.a], TempRef(u.t2), Assert));
    case (None, None) => WaitingAddEV(next, u);
  }

  lemma WaitsAlloc(d: TDatom, r: TempMap, next: Generation)
    ensures TempIdsOf(d) + Waiting(next) <= Waiting(StepAlloc(d, r, next)) + r.Keys
  {
    WaitingAddAlloc(next, Substitute(d, r));
  }

  lemma FoldEVUnfolds(us: seq<UpsertEV>, m: TempMap, r: TempMap, schema: Schema, next: Generation)
    requires FoldEV(us, m, r, schema, next).Ok?
    ensures us == [] ==> FoldEV(us, m, r, schema, next).value == next
    ensures us != [] ==>
      && StepEV(us[0], m, r, schema, next).Ok?
      && FoldEV(us, m, r, schema, next) == FoldEV(us[1..], m, r, schema, StepEV(us[0], m, r, schema, next).value)
  {
  }

  lemma NoEVs()
    ensures EVTempIds([]) == {}
  {
  }

  lemma {:induction false} WaitsFoldEV(us: seq<UpsertEV>, m: TempMap, r: TempMap, schema: Schema, next: Generation)
    requires m.Keys <= r.Keys && FoldEV(us, m, r, schema, next).Ok?
    ensures EVTempIds(us) + Waiting(next) <= Waiting(FoldEV(us, m, r, schema, next).value) + r.Keys
  {
    hide *;
    FoldEVUnfolds(us, m, r, schema, next);
    if us != [] {
      var n := StepEV(us[0], m, r, schema, next).value;
      WaitsFoldEV(us[1..], m, r, schema, n);
      WaitsEV(us[0], m, r, schema, next);
      EVTempIdsHead(us);
    } else {
      NoEVs();
    }
  }

  lemma {:induction false} WaitsFoldAlloc(ds: seq<TDatom>, r: TempMap, next: Generation)
    ensures AllTempIds(ds) + Waiting(next) <= Waiting(FoldAlloc(ds, r, next)) + r.Keys
  {
    hide Waiting, StepAlloc;
    if ds != [] {
      var n := StepAlloc(ds[0], r, next);
      WaitsFoldAlloc(ds[1..], r, n);
      WaitsAlloc(ds[0], r, next);
      assert ds == [ds[0]] + ds[1..];
      assert AllTempIds(ds) == TempIdsOf(ds[0]) + AllTempIds(ds[1..]);
    }
  }

  lemma StepWaits(g: Generation, m: TempMap, r: TempMap, schema: Schema)
    requires Extends(r, m) && EvolveOneStep(g, m, r, schema).Ok?
    ensures Waiting(g) <= Waiting(EvolveOneStep(g, m, r, schema).value) + r.Keys
  {
    hide FoldE, FoldEV, FoldAlloc;
    var start := EMPTY.(resolved := g.resolved);
    StepUnfolds(g, m, r, schema);
    var afterE := FoldE(g.es, m, r, schema, start).value;
    var afterEV := FoldEV(g.evs, m, r, schema, afterE).value;
    WaitsFoldE(g.es, m, r, schema, start);
    WaitsFoldEV(g.evs, m, r, schema, afterE);
    assert r + m == r;
    WaitsFoldAlloc(g.allocs, r, afterEV);
  }

  /** No tempid is forgotten: at the end of a run each is bound or waits. */
  lemma {:induction false} RunWaits(g: Generation, r: TempMap, schema: Schema, facts: set<Fact>)
    requires EvolveAll(g, r, schema, facts).Ok?
    ensures var out := EvolveAll(g, r, schema, facts).value;
            Waiting(g) + r.Keys <= Waiting(out.gen) + out.bound.Keys
    decreases 2 * |g.evs| + |g.es|
  {
    if g.es != [] {
      hide *;
      var m, r', g', rest := RunUnfolds(g, r, schema, facts);
      StepWaits(g, m, r', schema);
      RunWaits(g', r', schema, facts);
      assert r.Keys <= r'.Keys by { ExtendsKeys(r', r); }
    }
  }

  lemma ExtendsKeys(a: TempMap, b: TempMap)
    requires Extends(a, b)
    ensures b.Keys <= a.Keys
  {
  }

  // --- The end of a run ------------------------------------------------------------------

  lemma DrainUnbound(g: Generation, schema: Schema, bound: TempMap)
    requires g.es == [] && Clean(g, bound) && Drain(g, schema).Ok?
    ensures var allocs := Drain(g, schema).value;
            AllTempIds(allocs) == Waiting(g) && AllTempIds(allocs) !! bound.Keys
  {
    var evs := AsEVs(schema, g.evs);
    assert AllTempIds(g.allocs + evs) == AllTempIds(g.allocs) + AllTempIds(evs);
    EVsTempIds(schema, g.evs);
    assert forall t :: t in AllTempIds(g.allocs) ==> t !in bound;
  }

  lemma {:induction false} EVsTempIds(schema: Schema, us: seq<UpsertEV>)
    ensures AllTempIds(AsEVs(schema, us)) == EVTempIds(us)
  {
    if us != [] {
      hide AllTempIds, EVTempIds;
      EVsTempIds(schema, us[1..]);
      assert AsEVs(schema, us) == [AsEV(schema, us[0])] + AsEVs(schema, us[1..]);
      TempIdsHead(AsEV(schema, us[0]), AsEVs(schema, us[1..]));
      EVTempIdsHead(us);
    }
  }

  lemma EVTempIdsHead(us: seq<UpsertEV>)
    requires us != []
    ensures EVTempIds(us) == {us[0].t1, us[0].t2} + EVTempIds(us[1..])
  {
    assert us == [us[0]] + us[1..];
  }

  lemma TempIdsHead(d: TDatom, ds: seq<TDatom>)
    ensures AllTempIds([d] + ds) == TempIdsOf(d) + AllTempIds(ds)
  {
  }

  lemma DrainContent(sigma: TempMap, g: Generation, schema: Schema)
    requires g.es == [] && Drain(g, schema).Ok?
    ensures Content(sigma, schema, g) ==
            multiset(g.upserted) + multiset(g.resolved) + multiset(Imgs(sigma, Drain(g, schema).value))
  {
    var evs := AsEVs(schema, g.evs);
    assert Imgs(sigma, g.allocs + evs) == Imgs(sigma, g.allocs) + Imgs(sigma, evs);
    assert Imgs(sigma, AsEs(schema, [])) == [];
  }

  /** Nothing but entity tempids of assertions is left to allocate. */
  lemma AllocatableCovered(ds: seq<TDatom>, schema: Schema)
    requires Allocatable(ds, schema)
    ensures AllTempIds(ds) == EntityTempIds(ds)
  {
    forall t ensures t in AllTempIds(ds) <==> t in EntityTempIds(ds) {
      if t in AllTempIds(ds) {
        var d :| d in ds && t in TempIdsOf(d);
        assert !Dangling(d);
      }
      if t in EntityTempIds(ds) {
        var d :| d in ds && d.op.Assert? && d.e == Temp(t);
        assert t in TempIdsOf(d);
      }
    }
  }

  lemma {:induction false} FinalsAre(ds: seq<TDatom>, m: TempMap)
    requires AllTempIds(ds) <= m.Keys
    ensures Finals(ds, m) == Ok(Imgs(m, ds))
  {
    if ds == [] {
      assert Imgs(m, ds) == [];
    } else {
      forall t | t in AllTempIds(ds[1..]) ensures t in m {
        var d :| d in ds[1..] && t in TempIdsOf(d);
        assert d in ds;
      }
      FinalsAre(ds[1..], m);
      assert ds[0] in ds;
      assert forall t :: t in TempIdsOf(ds[0]) ==> t in AllTempIds(ds);
      assert Imgs(m, ds) == [Img(m, ds[0])] + Imgs(m, ds[1..]);
      assert Concrete(Substitute(ds[0], m)) && ToDatom(Substitute(ds[0], m)) == Img(m, ds[0]);
    }
  }

  lemma LabelsDense(tempids: set<TempId>, edges: Edges)
    ensures var labels := Labelling(tempids, edges);
            IsLabelling(labels, tempids, edges) && Dense(labels, LabelCount(labels))
  {
    LabellingHolds(tempids, edges);
    LabellingDense(Labelling(tempids, edges), tempids, edges);
  }

  lemma AssignKeys(labels: map<TempId, nat>, ids: seq<I64>)
    requires Dense(labels, |ids|)
    ensures Assign(labels, ids).Keys == labels.Keys
  {
  }

  ghost function LabelsOf(allocs: seq<TDatom>, schema: Schema): map<TempId, nat> {
    Labelling(EntityTempIds(allocs), IdentityEdges(allocs, schema))
  }

  /** The final substitution leaves no tempid, so its error cannot occur. */
  lemma FinalSubstitutionTotal(allocs: seq<TDatom>, schema: Schema, ids: seq<I64>)
    requires Allocatable(allocs, schema) && |ids| == LabelCount(LabelsOf(allocs, schema))
    ensures var m := Assign(LabelsOf(allocs, schema), ids);
            m.Keys == EntityTempIds(allocs) && Finals(allocs, m) == Ok(Imgs(m, allocs))
  {
    var labels := LabelsOf(allocs, schema);
    hide Finals, Allocatable, AllTempIds, EntityTempIds, Labelling;
    LabelsDense(EntityTempIds(allocs), IdentityEdges(allocs, schema));
    AssignKeys(labels, ids);
    AllocatableCovered(allocs, schema);
    FinalsAre(allocs, Assign(labels, ids));
  }

  /** The stages of a successful resolution. */
  datatype Stages = Stages(split: Split, ev: Evolved, allocs: seq<TDatom>, ids: seq<I64>, given: TempMap)

  lemma ResolutionUnfolds(datoms: seq<TDatom>, schema: Schema, facts: set<Fact>, pm: Counters) returns (st: Stages)
    requires ResolveTempids(datoms, schema, facts, pm).Ok?
    ensures SplitAll(datoms, schema, Split(EMPTY, [])) == Ok(st.split)
    ensures EvolveAll(st.split.gen, map[], schema, facts) == Ok(st.ev)
    ensures Drain(st.ev.gen, schema) == Ok(st.allocs) && Allocatable(st.allocs, schema)
    ensures AllocateAll(ClassPartitions(datoms, LabelsOf(st.allocs, schema)), pm).Ok?
    ensures var alloc := AllocateAll(ClassPartitions(datoms, LabelsOf(st.allocs, schema)), pm).value;
            && st.ids == alloc.ids && |st.ids| == LabelCount(LabelsOf(st.allocs, schema))
            && st.given == Assign(LabelsOf(st.allocs, schema), st.ids) && Finals(st.allocs, st.given).Ok?
            && ResolveTempids(datoms, schema, facts, pm).value ==
               Resolution(st.ev.gen.upserted + st.ev.gen.resolved + Finals(st.allocs, st.given).value + st.split.inert,
                          alloc.pm, st.ev.bound + st.given, st.ev.dropped, st.ids)
  {
    var split := SplitAll(datoms, schema, Split(EMPTY, [])).value;
    var ev := EvolveAll(split.gen, map[], schema, facts).value;
    var allocs := Drain(ev.gen, schema).value;
    var parts := ClassPartitions(datoms, LabelsOf(allocs, schema));
    var alloc := AllocateAll(parts, pm).value;
    AllocateGrows(parts, pm);
    st := Stages(split, ev, allocs, alloc.ids, Assign(LabelsOf(allocs, schema), alloc.ids));
  }

  lemma StagesShape(datoms: seq<TDatom>, schema: Schema, facts: set<Fact>, st: Stages)
    requires SplitAll(datoms, schema, Split(EMPTY, [])) == Ok(st.split)
    requires EvolveAll(st.split.gen, map[], schema, facts) == Ok(st.ev)
    requires Drain(st.ev.gen, schema) == Ok(st.allocs) && Allocatable(st.allocs, schema)
    requires |st.ids| == LabelCount(LabelsOf(st.allocs, schema)) &&
             st.given == Assign(LabelsOf(st.allocs, schema), st.ids)
    ensures st.given.Keys == EntityTempIds(st.allocs) && st.given.Keys !! st.ev.bound.Keys
    ensures AllTempIds(datoms) <= (st.ev.bound + st.given).Keys
    ensures Extends(st.ev.bound + st.given, st.ev.bound) && Extends(st.ev.bound + st.given, st.given)
    ensures st.ev.gen.es == [] && Finals(st.allocs, st.given) == Ok(Imgs(st.given, st.allocs))
  {
    hide *;
    var gen := st.split.gen;
    SplitWaits(datoms, schema, Split(EMPTY, []));
    assert Clean(gen, map[]) by { NothingBound(gen); }
    StepBound(gen, map[], schema, facts);
    RunShape(gen, map[], schema, facts);
    RunWaits(gen, map[], schema, facts);
    DrainUnbound(st.ev.gen, schema, st.ev.bound);
    AllocatableCovered(st.allocs, schema);
    FinalSubstitutionTotal(st.allocs, schema, st.ids);
    JoinExtends(st.ev.bound, st.given);
  }

  lemma NothingBound(g: Generation)
    ensures Clean(g, map[])
  {
  }

  lemma JoinExtends(a: TempMap, b: TempMap)
    requires a.Keys !! b.Keys
    ensures Extends(a + b, a) && Extends(a + b, b) && (a + b).Keys == a.Keys + b.Keys
  {
  }

  lemma ImgsAgree(sigma: TempMap, m: TempMap, ds: seq<TDatom>)
    requires Extends(sigma, m) && AllTempIds(ds) <= m.Keys
    ensures Imgs(sigma, ds) == Imgs(m, ds)
  {
    forall i | 0 <= i < |ds| ensures Img(sigma, ds[i]) == Img(m, ds[i]) {
      assert ds[i] in ds;
      assert forall t :: t in TempIdsOf(ds[i]) ==> t in AllTempIds(ds);
    }
  }

  /**
   * Conservation: every tempid has one final entity, the output together with the dropped upserts
   * is exactly the input under that assignment, and a dropped upsert was stored already exactly
   * if its own lookup found an entity.
   */
  lemma ResolutionConserves(datoms: seq<TDatom>, schema: Schema, facts: set<Fact>, pm: Counters)
    requires Inverse(schema) && ResolveTempids(datoms, schema, facts, pm).Ok?
    ensures var res := ResolveTempids(datoms, schema, facts, pm).value;
            && AllTempIds(datoms) <= res.sigma.Keys
            && multiset(res.datoms) + multiset(Datoms(res.dropped)) == multiset(Imgs(res.sigma, datoms))
            && (forall x :: x in res.dropped ==> OwnHitDecides(facts, x))
  {
    hide *;
    var st := ResolutionUnfolds(datoms, schema, facts, pm);
    StagesShape(datoms, schema, facts, st);
    var gen, ev, sigma := st.split.gen, st.ev, st.ev.bound + st.given;
    NothingBound(gen);
    RunConserves(sigma, gen, map[], schema, facts);
    DroppedOwnHit(gen, map[], schema, facts);
    DrainContent(sigma, ev.gen, schema);
    AllocatableCovered(st.allocs, schema);
    ImgsAgree(sigma, st.given, st.allocs);
    SplitConserves(sigma, datoms, schema, Split(EMPTY, []));
    StartContent(sigma, schema);
    SplitPending(datoms, schema, Split(EMPTY, []));
    Balance(Content(sigma, schema, gen), Content(sigma, schema, ev.gen), multiset(Datoms(ev.dropped)),
            ev.gen.upserted, ev.gen.resolved, Imgs(sigma, st.allocs), st.split.inert, multiset(Imgs(sigma, datoms)));
  }

  lemma StartContent(sigma: TempMap, schema: Schema)
    ensures Content(sigma, schema, EMPTY) == multiset{} && EMPTY.upserted == []
  {
    ContentStart(sigma, schema, []);
    assert EMPTY.(resolved := []) == EMPTY;
  }

  lemma {:induction false} SplitPending(ds: seq<TDatom>, schema: Schema, s: Split)
    requires SplitAll(ds, schema, s).Ok? && s.gen.upserted == []
    ensures Pending(SplitAll(ds, schema, s).value.gen) == multiset{}
  {
    if ds != [] { SplitPending(ds[1..], schema, Classify(ds[0], schema, s).value); }
  }

  lemma Balance(start: multiset<Datom>, end: multiset<Datom>, dropped: multiset<Datom>,
                u: seq<Datom>, r: seq<Datom>, f: seq<Datom>, inert: seq<Datom>, input: multiset<Datom>)
    requires start == end + dropped + multiset{}
    requires end == multiset(u) + multiset(r) + multiset(f)
    requires start + multiset(inert) == multiset{} + multiset([]) + input
    ensures multiset(u + r + f + inert) + dropped == input
  {
    assert start + multiset(inert) == input;
    assert multiset(u + r + f + inert) == end + multiset(inert);
  }

  // --- What the assignment is ------------------------------------------------------------

  ghost predicate Stored(facts: set<Fact>, e: I64) {
    exists a: I64, v :: Live(facts, e, a, v)
  }

  lemma ResolvedStored(es: seq<UpsertE>, facts: set<Fact>)
    requires Resolve(es, facts, map[]).Ok?
    ensures forall t :: t in Resolve(es, facts, map[]).value ==> Stored(facts, Resolve(es, facts, map[]).value[t])
  {
    var m := Resolve(es, facts, map[]).value;
    ResolveMeans(es, facts, map[]);
    forall t | t in m ensures Stored(facts, m[t]) {
      assert Found(es, facts, t, m[t]);
      var u :| u in es && u.t == t && Hit(facts, u.a, u.v) == Some(m[t]);
      assert Live(facts, m[t], u.a, u.v);
    }
  }

  ghost predicate AllStored(facts: set<Fact>, m: TempMap) {
    forall t :: t in m ==> Stored(facts, m[t])
  }

  lemma JoinStored(facts: set<Fact>, r: TempMap, m: TempMap)
    requires AllStored(facts, r) && AllStored(facts, m) && Record(r, m).Ok?
    ensures AllStored(facts, Record(r, m).value)
  {
  }

  /** A tempid is bound only to an entity of the store. */
  lemma {:induction false} RunStored(g: Generation, r: TempMap, schema: Schema, facts: set<Fact>)
    requires EvolveAll(g, r, schema, facts).Ok? && AllStored(facts, r)
    ensures AllStored(facts, EvolveAll(g, r, schema, facts).value.bound)
    decreases 2 * |g.evs| + |g.es|
  {
    if g.es != [] {
      hide Stored, Record;
      var m, r', g', rest := RunUnfolds(g, r, schema, facts);
      ResolvedStored(g.es, facts);
      JoinStored(facts, r, m);
      RunStored(g', r', schema, facts);
    }
  }

  /** A member of the class of `t` asserts `:db/ident` in the input. */
  ghost predicate IdentInClass(datoms: seq<TDatom>, tempids: set<TempId>, edges: Edges, t: TempId) {
    exists u :: u in tempids && Joined(edges, t, u) && NamesIdent(datoms, u)
  }

  /** New ids: one per class, never used before, in the partition its members ask for. */
  ghost predicate OnePerClass(datoms: seq<TDatom>, tempids: set<TempId>, edges: Edges, m: TempMap, pm: Counters,
                              pm': Counters)
  {
    && m.Keys == tempids
    && (forall t, u :: t in tempids && u in tempids ==> (m[t] == m[u] <==> Joined(edges, t, u)))
    && (forall t :: t in tempids ==>
          NewId(pm, pm', if IdentInClass(datoms, tempids, edges, t) then DB_PARTITION else USER_PARTITION, m[t]))
  }

  lemma ClassPartition(datoms: seq<TDatom>, labels: map<TempId, nat>, tempids: set<TempId>, edges: Edges, t: TempId)
    requires IsLabelling(labels, tempids, edges) && t in tempids
    ensures ClassNamesIdent(datoms, labels, labels[t]) <==> IdentInClass(datoms, tempids, edges, t)
  {
    hide NamesIdent, Joined;
    if ClassNamesIdent(datoms, labels, labels[t]) {
      var u :| u in labels && labels[u] == labels[t] && NamesIdent(datoms, u);
      assert u in tempids;
    }
    if IdentInClass(datoms, tempids, edges, t) {
      var u :| u in tempids && Joined(edges, t, u) && NamesIdent(datoms, u);
      assert labels[u] == labels[t];
    }
  }

  lemma AssignClasses(datoms: seq<TDatom>, tempids: set<TempId>, edges: Edges, pm: Counters)
    requires AllocateAll(ClassPartitions(datoms, Labelling(tempids, edges)), pm).Ok?
    ensures var labels := Labelling(tempids, edges);
            var alloc := AllocateAll(ClassPartitions(datoms, labels), pm).value;
            OnePerClass(datoms, tempids, edges, Assign(labels, alloc.ids), pm, alloc.pm)
  {
    hide AllocateAll, Labelling, ClassNamesIdent, IdentInClass, NewId, Joined;
    var labels := Labelling(tempids, edges);
    var parts := ClassPartitions(datoms, labels);
    var alloc := AllocateAll(parts, pm).value;
    LabelsDense(tempids, edges);
    AllocateFresh(parts, pm);
    AssignKeys(labels, alloc.ids);
    var m := Assign(labels, alloc.ids);
    forall t, u | t in tempids && u in tempids ensures m[t] == m[u] <==> Joined(edges, t, u) {
      var i, j := labels[t], labels[u];
      assert i != j ==> alloc.ids[i] != alloc.ids[j];
    }
    forall t | t in tempids
      ensures NewId(pm, alloc.pm,
              if IdentInClass(datoms, tempids, edges, t) then DB_PARTITION else USER_PARTITION, m[t])
    {
      ClassPartition(datoms, labels, tempids, edges, t);
      assert NewId(pm, alloc.pm, parts[labels[t]], alloc.ids[labels[t]]);
    }
  }

  /**
   * The assignment: bound tempids go to stored entities; the rest, which all stand as the entity
   * of a waiting assertion, get one new id per class of shared identities.
   */
  lemma ResolutionAssigns(datoms: seq<TDatom>, schema: Schema, facts: set<Fact>, pm: Counters)
    returns (bound: TempMap, allocs: seq<TDatom>, given: TempMap)
    requires ResolveTempids(datoms, schema, facts, pm).Ok?
    ensures var res := ResolveTempids(datoms, schema, facts, pm).value;
            && res.sigma == bound + given && bound.Keys !! given.Keys && AllStored(facts, bound)
            && OnePerClass(datoms, EntityTempIds(allocs), IdentityEdges(allocs, schema), given, pm, res.pm)
            && (forall e :: e in res.ids <==> exists t :: t in given && given[t] == e)
    ensures multiset(Imgs(given, allocs)) <= multiset(ResolveTempids(datoms, schema, facts, pm).value.datoms)
  {
    hide *;
    var st := ResolutionUnfolds(datoms, schema, facts, pm);
    bound, allocs, given := st.ev.bound, st.allocs, st.given;
    StagesShape(datoms, schema, facts, st);
    NoneStored(facts);
    RunStored(st.split.gen, map[], schema, facts);
    LabelsUnfold(allocs, schema);
    AssignClasses(datoms, EntityTempIds(allocs), IdentityEdges(allocs, schema), pm);
    LabelsDense(EntityTempIds(allocs), IdentityEdges(allocs, schema));
    AssignOnto(LabelsOf(allocs, schema), st.ids);
    var gen := st.ev.gen;
    PartWithin(gen.upserted + gen.resolved, Imgs(given, allocs), st.split.inert);
  }

  lemma NoneStored(facts: set<Fact>)
    ensures AllStored(facts, map[])
  {
  }

  lemma LabelsUnfold(allocs: seq<TDatom>, schema: Schema)
    ensures LabelsOf(allocs, schema) == Labelling(EntityTempIds(allocs), IdentityEdges(allocs, schema))
  {
  }

  lemma AssignOnto(labels: map<TempId, nat>, ids: seq<I64>)
    requires Dense(labels, |ids|)
    ensures forall e :: e in ids <==> exists t :: t in Assign(labels, ids) && Assign(labels, ids)[t] == e
  {
    forall e | e in ids ensures exists t :: t in Assign(labels, ids) && Assign(labels, ids)[t] == e {
      var k: nat :| k < |ids| && ids[k] == e;
      assert Used(labels, k);
      var t :| t in labels && labels[t] == k;
      assert t in Assign(labels, ids);
    }
  }

  lemma PartWithin(a: seq<Datom>, b: seq<Datom>, c: seq<Datom>)
    ensures multiset(b) <= multiset(a + b + c)
  {
  }

  /** Every new id is the entity of an assertion in the output. */
  lemma NewIdsWritten(datoms: seq<TDatom>, schema: Schema, facts: set<Fact>, pm: Counters, e: I64)
    requires ResolveTempids(datoms, schema, facts, pm).Ok? && e in ResolveTempids(datoms, schema, facts, pm).value.ids
    ensures exists d :: d in ResolveTempids(datoms, schema, facts, pm).value.datoms && d.e == e && d.op.Assert?
  {
    hide *;
    var bound, allocs, given := ResolutionAssigns(datoms, schema, facts, pm);
    var t :| t in given && given[t] == e;
    assert t in EntityTempIds(allocs) by { ClassKeys(datoms, EntityTempIds(allocs), IdentityEdges(allocs, schema),
           given, pm, ResolveTempids(datoms, schema, facts, pm).value.pm); }
    var d := EntityWritten(allocs, t, given);
    assert d in multiset(ResolveTempids(datoms, schema, facts, pm).value.datoms);
  }

  lemma ClassKeys(datoms: seq<TDatom>, tempids: set<TempId>, edges: Edges, m: TempMap, pm: Counters, pm': Counters)
    requires OnePerClass(datoms, tempids, edges, m, pm, pm')
    ensures m.Keys == tempids
  {
  }

  lemma EntityWritten(allocs: seq<TDatom>, t: TempId, m: TempMap) returns (d: Datom)
    requires t in EntityTempIds(allocs) && t in m
    ensures d in multiset(Imgs(m, allocs)) && d.e == m[t] && d.op.Assert?
  {
    var x :| x in allocs && x.op.Assert? && x.e == Temp(t);
    var i: nat :| i < |allocs| && allocs[i] == x;
    d := Imgs(m, allocs)[i];
  }
}
