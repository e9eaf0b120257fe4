/** Upsert resolution: generations of assertions evolving against the store. */
module Upsert {
  import opened Octets
  import opened Values
  import opened Facts
  import opened Model

  type TempMap = map<TempId, I64>

  /** [:db/add TEMPID a v], `a` an identity attribute. */
  datatype UpsertE = UpsertE(t: TempId, a: I64, v: DataType)

  /** [:db/add TEMPID a OTHERTEMPID], `a` an identity attribute. */
  datatype UpsertEV = UpsertEV(t1: TempId, a: I64, t2: TempId)

  datatype Generation = Generation(
    es: seq<UpsertE>,
    evs: seq<UpsertEV>,
    allocs: seq<TDatom>,
    upserted: seq<Datom>,
    resolved: seq<Datom>)

  const EMPTY: Generation := Generation([], [], [], [], [])

  // --- Splitting the input ---------------------------------------------------------------

  datatype Split = Split(gen: Generation, inert: seq<Datom>)

  /** Where one datom goes: simple upsert, complex upsert, inert, or the allocations. */
  function Classify(d: TDatom, schema: Schema, s: Split): Result<Split> {
    var attr := GetAttribute(schema, d.a);
    if attr.None? then Err(false)
    else
      var identity := d.op.Assert? && IsIdentity(attr.value.attr);
      match (d.e, d.v)
      case (Temp(t), Data(v)) =>
        if identity then Ok(s.(gen := s.gen.(es := s.gen.es + [UpsertE(t, attr.value.id, v)])))
        else Ok(s.(gen := s.gen.(allocs := s.gen.allocs + [d])))
      case (Temp(t), TempRef(u)) =>
        if identity then Ok(s.(gen := s.gen.(evs := s.gen.evs + [UpsertEV(t, attr.value.id, u)])))
        else Ok(s.(gen := s.gen.(allocs := s.gen.allocs + [d])))
      case (Id(e), Data(v)) => Ok(s.(inert := s.inert + [Datom(e, d.a, v, d.op)]))
      case (Id(_), TempRef(_)) => Ok(s.(gen := s.gen.(allocs := s.gen.allocs + [d])))
  }

  function SplitAll(ds: seq<TDatom>, schema: Schema, s: Split): Result<Split> {
    if ds == [] then Ok(s)
    else
      var s' :- Classify(ds[0], schema, s);
      SplitAll(ds[1..], schema, s')
  }

  method From(datoms: seq<TDatom>, schema: Schema) returns (r: Result<Split>)
    ensures r == SplitAll(datoms, schema, Split(EMPTY, []))
  {
    var s := Split(EMPTY, []);
    assert datoms[0..] == datoms;
    for i := 0 to |datoms|
      invariant SplitAll(datoms, schema, Split(EMPTY, [])) == SplitAll(datoms[i..], schema, s)
    {
      assert datoms[i..][1..] == datoms[i + 1..];
      var next := Classify(datoms[i], schema, s);
      if next.Err? { return next.PropagateFailure(); }
      s := next.value;
    }
    return Ok(s);
  }

  // --- One evolution step ----------------------------------------------------------------

  /** Replace the tempids a map knows. */
  function Substitute(d: TDatom, m: TempMap): TDatom {
    d.(e := if d.e.Temp? && d.e.t in m then Id(m[d.e.t]) else d.e,
       v := if d.v.TempRef? && d.v.t in m then Data(Long(m[d.v.t])) else d.v)
  }

  predicate Concrete(d: TDatom) { d.e.Id? && d.v.Data? }

  function ToDatom(d: TDatom): Datom
    requires Concrete(d)
  {
    Datom(d.e.id, d.a, d.v.v, d.op)
  }

  function StepE(u: UpsertE, m: TempMap, r: TempMap, schema: Schema, next: Generation): Result<Generation> {
    if u.a !in schema.entids then Err(false)
    else
      var attr := schema.entids[u.a];
      if u.t in m then Ok(next.(upserted := next.upserted + [Datom(m[u.t], attr, u.v, Assert)]))
      else if u.t in r then Ok(next.(resolved := next.resolved + [Datom(r[u.t], attr, u.v, Assert)]))
      else Ok(next.(allocs := next.allocs + [TDatom(Temp(u.t), attr, Data(u.v), Assert)]))
  }

  function Either(m: TempMap, r: TempMap, t: TempId): Option<I64> {
    if t in m then Some(m[t]) else if t in r then Some(r[t]) else None
  }

  function StepEV(u: UpsertEV, m: TempMap, r: TempMap, schema: Schema, next: Generation): Result<Generation> {
    if u.a !in schema.entids then Err(false)
    else
      var attr := schema.entids[u.a];
      match (Either(m, r, u.t1), Either(m, r, u.t2))
      case (_, Some(e2)) => Ok(next.(es := next.es + [UpsertE(u.t1, u.a, Long(e2))]))
      case (Some(e1), None) => Ok(next.(allocs := next.allocs + [TDatom(Id(e1), attr, TempRef(u.t2), Assert)]))
      case (None, None) => Ok(next.(evs := next.evs + [u]))
  }

  function StepAlloc(d: TDatom, combined: TempMap, next: Generation): Generation {
    var s := Substitute(d, combined);
    if Concrete(s) then next.(resolved := next.resolved + [ToDatom(s)]) else next.(allocs := next.allocs + [s])
  }

  function FoldE(us: seq<UpsertE>, m: TempMap, r: TempMap, schema: Schema, next: Generation): Result<Generation> {
    if us == [] then Ok(next)
    else
      var n :- StepE(us[0], m, r, schema, next);
      FoldE(us[1..], m, r, schema, n)
  }

  function FoldEV(us: seq<UpsertEV>, m: TempMap, r: TempMap, schema: Schema, next: Generation): Result<Generation> {
    if us == [] then Ok(next)
    else
      var n :- StepEV(us[0], m, r, schema, next);
      FoldEV(us[1..], m, r, schema, n)
  }

  function FoldAlloc(ds: seq<TDatom>, combined: TempMap, next: Generation): Generation {
    if ds == [] then next else FoldAlloc(ds[1..], combined, StepAlloc(ds[0], combined, next))
  }

  /** Rewrite every population; only `resolved` is carried over. */
  function EvolveOneStep(g: Generation, m: TempMap, r: TempMap, schema: Schema): Result<Generation> {
    var afterE :- FoldE(g.es, m, r, schema, EMPTY.(resolved := g.resolved));
    var afterEV :- FoldEV(g.evs, m, r, schema, afterE);
    Ok(FoldAlloc(g.allocs, r + m, afterEV))
  }

  method Evolve(g: Generation, m: TempMap, r: TempMap, schema: Schema) returns (out: Result<Generation>)
    ensures out == EvolveOneStep(g, m, r, schema)
  {
    var next := EMPTY.(resolved := g.resolved);
    ghost var start := next;
    assert g.es[0..] == g.es;
    for i := 0 to |g.es|
      invariant FoldE(g.es, m, r, schema, start) == FoldE(g.es[i..], m, r, schema, next)
    {
      assert g.es[i..][1..] == g.es[i + 1..];
      var n := StepE(g.es[i], m, r, schema, next);
      if n.Err? { return n; }
      next := n.value;
    }
    ghost var mid := next;
    assert g.evs[0..] == g.evs;
    for i := 0 to |g.evs|
      invariant FoldEV(g.evs, m, r, schema, mid) == FoldEV(g.evs[i..], m, r, schema, next)
    {
      assert g.evs[i..][1..] == g.evs[i + 1..];
      var n := StepEV(g.evs[i], m, r, schema, next);
      if n.Err? { return n; }
      next := n.value;
    }
    var combined := r + m;
    ghost var late := next;
    assert g.allocs[0..] == g.allocs;
    for i := 0 to |g.allocs|
      invariant FoldAlloc(g.allocs, combined, late) == FoldAlloc(g.allocs[i..], combined, next)
    {
      assert g.allocs[i..][1..] == g.allocs[i + 1..];
      next := StepAlloc(g.allocs[i], combined, next);
    }
    return Ok(next);
  }

  // --- Conservation through a step -------------------------------------------------------

  function At(sigma: TempMap, t: TempId): I64 { if t in sigma then sigma[t] else 0 }

  /** A datom under a final assignment of tempids. */
  function Img(sigma: TempMap, d: TDatom): Datom {
    Datom(if d.e.Id? then d.e.id else At(sigma, d.e.t), d.a, if d.v.Data? then d.v.v else Long(At(sigma, d.v.t)), d.op)
  }

  function AttrName(schema: Schema, a: I64): Keyword { if a in schema.entids then schema.entids[a] else Kw([], []) }

  function AsE(schema: Schema, u: UpsertE): TDatom { TDatom(Temp(u.t), AttrName(schema, u.a), Data(u.v), Assert) }

  function AsEV(schema: Schema, u: UpsertEV): TDatom {
    TDatom(Temp(u.t1), AttrName(schema, u.a), TempRef(u.t2), Assert)
  }

  function Imgs(sigma: TempMap, ds: seq<TDatom>): (r: seq<Datom>)
    ensures |r| == |ds| && forall i :: 0 <= i < |ds| ==> r[i] == Img(sigma, ds[i])
  {
    seq(|ds|, i requires 0 <= i < |ds| => Img(sigma, ds[i]))
  }

  function AsEs(schema: Schema, us: seq<UpsertE>): (r: seq<TDatom>)
    ensures |r| == |us| && forall i :: 0 <= i < |us| ==> r[i] == AsE(schema, us[i])
  {
    seq(|us|, i requires 0 <= i < |us| => AsE(schema, us[i]))
  }

  function AsEVs(schema: Schema, us: seq<UpsertEV>): (r: seq<TDatom>)
    ensures |r| == |us| && forall i :: 0 <= i < |us| ==> r[i] == AsEV(schema, us[i])
  {
    seq(|us|, i requires 0 <= i < |us| => AsEV(schema, us[i]))
  }

  /** Everything a generation still holds, under the assignment. */
  ghost function Content(sigma: TempMap, schema: Schema, g: Generation): multiset<Datom> {
    multiset(Imgs(sigma, AsEs(schema, g.es))) + multiset(Imgs(sigma, AsEVs(schema, g.evs))) +
    multiset(Imgs(sigma, g.allocs)) + multiset(g.upserted) + multiset(g.resolved)
  }

  ghost predicate Extends(sigma: TempMap, r: TempMap) {
    forall t :: t in r ==> t in sigma && sigma[t] == r[t]
  }

  lemma ImgsAppend(sigma: TempMap, ds: seq<TDatom>, d: TDatom)
    ensures multiset(Imgs(sigma, ds + [d])) == multiset(Imgs(sigma, ds)) + multiset{Img(sigma, d)}
  {
    assert Imgs(sigma, ds + [d]) == Imgs(sigma, ds) + [Img(sigma, d)];
  }

  lemma ImgsHead(sigma: TempMap, ds: seq<TDatom>)
    requires ds != []
    ensures multiset(Imgs(sigma, ds)) == multiset{Img(sigma, ds[0])} + multiset(Imgs(sigma, ds[1..]))
  {
    assert Imgs(sigma, ds) == [Img(sigma, ds[0])] + Imgs(sigma, ds[1..]);
  }

  lemma AsEsAppend(schema: Schema, us: seq<UpsertE>, u: UpsertE)
    ensures AsEs(schema, us + [u]) == AsEs(schema, us) + [AsE(schema, u)]
  {
  }

  lemma AsEVsAppend(schema: Schema, us: seq<UpsertEV>, u: UpsertEV)
    ensures AsEVs(schema, us + [u]) == AsEVs(schema, us) + [AsEV(schema, u)]
  {
  }

  lemma ContentAddE(sigma: TempMap, schema: Schema, g: Generation, u: UpsertE)
    ensures Content(sigma, schema, g.(es := g.es + [u])) ==
            Content(sigma, schema, g) + multiset{Img(sigma, AsE(schema, u))}
  {
    AsEsAppend(schema, g.es, u);
    ImgsAppend(sigma, AsEs(schema, g.es), AsE(schema, u));
  }

  lemma ContentAddEV(sigma: TempMap, schema: Schema, g: Generation, u: UpsertEV)
    ensures Content(sigma, schema, g.(evs := g.evs + [u])) ==
            Content(sigma, schema, g) + multiset{Img(sigma, AsEV(schema, u))}
  {
    AsEVsAppend(schema, g.evs, u);
    ImgsAppend(sigma, AsEVs(schema, g.evs), AsEV(schema, u));
  }

  lemma ContentAddAlloc(sigma: TempMap, schema: Schema, g: Generation, d: TDatom)
    ensures Content(sigma, schema, g.(allocs := g.allocs + [d])) == Content(sigma, schema, g) + multiset{Img(sigma, d)}
  {
    ImgsAppend(sigma, g.allocs, d);
  }

  lemma ContentE(sigma: TempMap, u: UpsertE, m: TempMap, r: TempMap, schema: Schema, next: Generation)
    requires Extends(sigma, m) && Extends(sigma, r) && StepE(u, m, r, schema, next).Ok?
    ensures Content(sigma, schema, StepE(u, m, r, schema, next).value) ==
            Content(sigma, schema, next) + multiset{Img(sigma, AsE(schema, u))}
  {
    ContentAddAlloc(sigma, schema, next, AsE(schema, u));
  }

  lemma ContentEV(sigma: TempMap, u: UpsertEV, m: TempMap, r: TempMap, schema: Schema, next: Generation)
    requires Extends(sigma, m) && Extends(sigma, r) && StepEV(u, m, r, schema, next).Ok?
    ensures Content(sigma, schema, StepEV(u, m, r, schema, next).value) ==
            Content(sigma, schema, next) + multiset{Img(sigma, AsEV(schema, u))}
  {
    hide Content;
    match (Either(m, r, u.t1), Either(m, r, u.t2))
    case (_, Some(e2)) => ContentAddE(sigma, schema, next, UpsertE(u.t1, u.a, Long(e2)));
    case (Some(e1), None) => ContentAddAlloc(sigma, schema, next,
      TDatom(Id(e1), AttrName(schema, u.a), TempRef(u.t2), Assert));
    case (None, None) => ContentAddEV(sigma, schema, next, u);
  }

  lemma ContentAlloc(sigma: TempMap, d: TDatom, combined: TempMap, schema: Schema, next: Generation)
    requires Extends(sigma, combined)
    ensures Content(sigma, schema, StepAlloc(d, combined, next)) ==
            Content(sigma, schema, next) + multiset{Img(sigma, d)}
  {
    hide Img, Substitute, Extends, Content;
    var s := Substitute(d, combined);
    SameImage(sigma, d, combined);
    if Concrete(s) {
      ContentAddResolved(sigma, schema, next, ToDatom(s));
    } else {
      ContentAddAlloc(sigma, schema, next, s);
    }
  }

  lemma ContentAddResolved(sigma: TempMap, schema: Schema, g: Generation, d: Datom)
    ensures Content(sigma, schema, g.(resolved := g.resolved + [d])) == Content(sigma, schema, g) + multiset{d}
  {
    hide Imgs, AsEs, AsEVs;
  }

  lemma SameImage(sigma: TempMap, d: TDatom, combined: TempMap)
    requires Extends(sigma, combined)
    ensures Img(sigma, Substitute(d, combined)) == Img(sigma, d)
    ensures Concrete(Substitute(d, combined)) ==> ToDatom(Substitute(d, combined)) == Img(sigma, d)
  {
  }

  lemma {:induction false} ContentFoldE(sigma: TempMap, us: seq<UpsertE>, m: TempMap, r: TempMap, schema: Schema,
                                        next: Generation)
    requires Extends(sigma, m) && Extends(sigma, r) && FoldE(us, m, r, schema, next).Ok?
    ensures Content(sigma, schema, FoldE(us, m, r, schema, next).value) ==
            Content(sigma, schema, next) + multiset(Imgs(sigma, AsEs(schema, us)))
  {
    hide Content, StepE;
    if us != [] {
      ContentE(sigma, us[0], m, r, schema, next);
      ContentFoldE(sigma, us[1..], m, r, schema, StepE(us[0], m, r, schema, next).value);
      assert AsEs(schema, us)[1..] == AsEs(schema, us[1..]);
      ImgsHead(sigma, AsEs(schema, us));
    }
  }

  lemma {:induction false} ContentFoldEV(sigma: TempMap, us: seq<UpsertEV>, m: TempMap, r: TempMap, schema: Schema,
                                         next: Generation)
    requires Extends(sigma, m) && Extends(sigma, r) && FoldEV(us, m, r, schema, next).Ok?
    ensures Content(sigma, schema, FoldEV(us, m, r, schema, next).value) ==
            Content(sigma, schema, next) + multiset(Imgs(sigma, AsEVs(schema, us)))
  {
    hide Content, StepEV;
    if us != [] {
      ContentEV(sigma, us[0], m, r, schema, next);
      ContentFoldEV(sigma, us[1..], m, r, schema, StepEV(us[0], m, r, schema, next).value);
      assert AsEVs(schema, us)[1..] == AsEVs(schema, us[1..]);
      ImgsHead(sigma, AsEVs(schema, us));
    }
  }

  lemma {:induction false} ContentFoldAlloc(sigma: TempMap, ds: seq<TDatom>, combined: TempMap, schema: Schema,
                                            next: Generation)
    requires Extends(sigma, combined)
    ensures Content(sigma, schema, FoldAlloc(ds, combined, next)) ==
            Content(sigma, schema, next) + multiset(Imgs(sigma, ds))
  {
    hide Content, StepAlloc;
    if ds != [] {
      ContentAlloc(sigma, ds[0], combined, schema, next);
      ContentFoldAlloc(sigma, ds[1..], combined, schema, StepAlloc(ds[0], combined, next));
      ImgsHead(sigma, ds);
    }
  }

  /** A step keeps every datom except those that were upserted in the generation before. */
  lemma StepConserves(sigma: TempMap, g: Generation, m: TempMap, r: TempMap, schema: Schema)
    requires Extends(sigma, m) && Extends(sigma, r) && EvolveOneStep(g, m, r, schema).Ok?
    ensures Content(sigma, schema, EvolveOneStep(g, m, r, schema).value) + multiset(g.upserted) ==
            Content(sigma, schema, g)
  {
    hide *;
    var start := EMPTY.(resolved := g.resolved);
    StepUnfolds(g, m, r, schema);
    var afterE := FoldE(g.es, m, r, schema, start).value;
    var afterEV := FoldEV(g.evs, m, r, schema, afterE).value;
    ContentFoldE(sigma, g.es, m, r, schema, start);
    ContentFoldEV(sigma, g.evs, m, r, schema, afterE);
    assert Extends(sigma, r + m) by { CombinedExtends(sigma, r, m); }
    ContentFoldAlloc(sigma, g.allocs, r + m, schema, afterEV);
    ContentStart(sigma, schema, g.resolved);
    ContentUnfolds(sigma, schema, g);
  }

  lemma CombinedExtends(sigma: TempMap, r: TempMap, m: TempMap)
    requires Extends(sigma, m) && Extends(sigma, r)
    ensures Extends(sigma, r + m)
  {
  }

  lemma StepUnfolds(g: Generation, m: TempMap, r: TempMap, schema: Schema)
    requires EvolveOneStep(g, m, r, schema).Ok?
    ensures var afterE := FoldE(g.es, m, r, schema, EMPTY.(resolved := g.resolved));
            afterE.Ok? &&
            var afterEV := FoldEV(g.evs, m, r, schema, afterE.value);
            afterEV.Ok? && EvolveOneStep(g, m, r, schema).value == FoldAlloc(g.allocs, r + m, afterEV.value)
  {
  }

  lemma ContentUnfolds(sigma: TempMap, schema: Schema, g: Generation)
    ensures Content(sigma, schema, g) ==
            multiset(g.resolved) + multiset(Imgs(sigma, AsEs(schema, g.es))) +
              multiset(Imgs(sigma, AsEVs(schema, g.evs))) +
            multiset(Imgs(sigma, g.allocs)) + multiset(g.upserted)
  {
  }

  lemma ContentStart(sigma: TempMap, schema: Schema, resolved: seq<Datom>)
    ensures Content(sigma, schema, EMPTY.(resolved := resolved)) == multiset(resolved)
  {
    assert Imgs(sigma, AsEs(schema, [])) == [] && Imgs(sigma, AsEVs(schema, [])) == [] && Imgs(sigma, []) == [];
  }

  // --- Shape after a step ----------------------------------------------------------------

  /** No tempid that still waits in the allocations or complex upserts is bound. */
  ghost predicate Clean(g: Generation, r: TempMap) {
    && (forall d, t :: d in g.allocs && t in TempIdsOf(d) ==> t !in r)
    && (forall u :: u in g.evs ==> u.t1 !in r && u.t2 !in r)
  }

  lemma {:induction false} CleanFoldE(us: seq<UpsertE>, m: TempMap, r: TempMap, schema: Schema, next: Generation)
    requires m.Keys <= r.Keys && Clean(next, r) && FoldE(us, m, r, schema, next).Ok?
    ensures var out := FoldE(us, m, r, schema, next).value;
            Clean(out, r) && out.es == next.es && out.evs == next.evs
  {
    if us != [] {
      var n := StepE(us[0], m, r, schema, next).value;
      CleanFoldE(us[1..], m, r, schema, n);
    }
  }

  lemma {:induction false} CleanFoldEV(us: seq<UpsertEV>, m: TempMap, r: TempMap, schema: Schema, next: Generation)
    requires m.Keys <= r.Keys && Clean(next, r) && FoldEV(us, m, r, schema, next).Ok?
    ensures var out := FoldEV(us, m, r, schema, next).value;
            Clean(out, r) && |out.es| + |out.evs| <= |next.es| + |next.evs| + |us| && out.upserted == next.upserted
  {
    if us != [] {
      var n := StepEV(us[0], m, r, schema, next).value;
      CleanFoldEV(us[1..], m, r, schema, n);
    }
  }

  lemma {:induction false} CleanFoldAlloc(ds: seq<TDatom>, r: TempMap, next: Generation)
    requires Clean(next, r)
    ensures var out := FoldAlloc(ds, r, next);
            Clean(out, r) && out.es == next.es && out.evs == next.evs && out.upserted == next.upserted
  {
    if ds != [] { CleanFoldAlloc(ds[1..], r, StepAlloc(ds[0], r, next)); }
  }

  /**
   * After every step the waiting tempids are exactly unbound, and the simple and complex upserts
   * together are no more than the complex ones before.
   */
  lemma StepShape(g: Generation, m: TempMap, r: TempMap, schema: Schema)
    requires Extends(r, m) && EvolveOneStep(g, m, r, schema).Ok?
    ensures var out := EvolveOneStep(g, m, r, schema).value;
            Clean(out, r) && |out.es| + |out.evs| <= |g.evs|
  {
    var start := EMPTY.(resolved := g.resolved);
    var afterE := FoldE(g.es, m, r, schema, start).value;
    var afterEV := FoldEV(g.evs, m, r, schema, afterE).value;
    CleanFoldE(g.es, m, r, schema, start);
    CleanFoldEV(g.evs, m, r, schema, afterE);
    assert r + m == r;
    CleanFoldAlloc(g.allocs, r, afterEV);
  }
}
