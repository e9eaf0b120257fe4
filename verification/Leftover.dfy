/** What waits for new entities when the upserts are done: the input without what the rounds bound. */
module Leftover {
  import opened Octets
  import opened Values
  import opened Facts
  import opened Model
  import opened Upsert
  import opened Evolution
  import opened Tempids

  /** The datom once bound tempids are replaced, if it still has a tempid. */
  function Left(d: TDatom, r: TempMap): set<TDatom> {
    if Concrete(Substitute(d, r)) then {} else {Substitute(d, r)}
  }

  ghost function LeftOf(ds: seq<TDatom>, r: TempMap): set<TDatom> {
    set d | d in ds && !Concrete(Substitute(d, r)) :: Substitute(d, r)
  }

  lemma LeftAppend(ds: seq<TDatom>, d: TDatom, r: TempMap)
    ensures LeftOf(ds + [d], r) == LeftOf(ds, r) + Left(d, r)
  {
    hide Substitute, Concrete;
    assert forall x :: x in ds + [d] <==> x in ds || x == d;
  }

  lemma LeftHead(ds: seq<TDatom>, r: TempMap)
    requires ds != []
    ensures LeftOf(ds, r) == Left(ds[0], r) + LeftOf(ds[1..], r)
  {
    hide Substitute, Concrete;
    assert ds == [ds[0]] + ds[1..];
    assert forall x :: x in ds <==> x == ds[0] || x in ds[1..];
  }

  /** What of a generation is left under the bindings. */
  ghost function LeftIn(g: Generation, schema: Schema, r: TempMap): set<TDatom> {
    LeftOf(AsEs(schema, g.es), r) + LeftOf(AsEVs(schema, g.evs), r) + LeftOf(g.allocs, r)
  }

  lemma LeftAddE(g: Generation, schema: Schema, r: TempMap, u: UpsertE)
    ensures LeftIn(g.(es := g.es + [u]), schema, r) == LeftIn(g, schema, r) + Left(AsE(schema, u), r)
  {
    hide LeftOf, Left;
    AsEsAppend(schema, g.es, u);
    LeftAppend(AsEs(schema, g.es), AsE(schema, u), r);
  }

  lemma LeftAddEV(g: Generation, schema: Schema, r: TempMap, u: UpsertEV)
    ensures LeftIn(g.(evs := g.evs + [u]), schema, r) == LeftIn(g, schema, r) + Left(AsEV(schema, u), r)
  {
    hide LeftOf, Left;
    AsEVsAppend(schema, g.evs, u);
    LeftAppend(AsEVs(schema, g.evs), AsEV(schema, u), r);
  }

  lemma LeftAddAlloc(g: Generation, schema: Schema, r: TempMap, d: TDatom)
    ensures LeftIn(g.(allocs := g.allocs + [d]), schema, r) == LeftIn(g, schema, r) + Left(d, r)
  {
    hide LeftOf, Left;
    LeftAppend(g.allocs, d, r);
  }

  // --- Steps -----------------------------------------------------------------------------

  lemma LeftE(u: UpsertE, m: TempMap, r: TempMap, schema: Schema, next: Generation, bound: TempMap)
    requires Extends(r, m) && Extends(bound, r) && StepE(u, m, r, schema, next).Ok?
    ensures LeftIn(StepE(u, m, r, schema, next).value, schema, bound) ==
            LeftIn(next, schema, bound) + Left(AsE(schema, u), bound)
  {
    hide LeftOf;
    LeftAddAlloc(next, schema, bound, AsE(schema, u));
  }

  lemma LeftEV(u: UpsertEV, m: TempMap, r: TempMap, schema: Schema, next: Generation, bound: TempMap)
    requires Extends(r, m) && Extends(bound, r) && StepEV(u, m, r, schema, next).Ok?
    ensures LeftIn(StepEV(u, m, r, schema, next).value, schema, bound) ==
            LeftIn(next, schema, bound) + Left(AsEV(schema, u), bound)
  {
    hide LeftIn;
    match (Either(m, r, u.t1), Either(m, r, u.t2))
    case (_, Some(e2)) => LeftAddE(next, schema, bound, UpsertE(u.t1, u.a, Long(e2)));
    case (Some(e1), None) => LeftAddAlloc(next, schema, bound,
      TDatom(Id(e1), AttrName(schema, u.a), TempRef(u.t2), Assert));
    case (None, None) => LeftAddEV(next, schema, bound, u);
  }

  lemma LeftAlloc(d: TDatom, r: TempMap, schema: Schema, next: Generation, bound: TempMap)
    requires Extends(bound, r)
    ensures LeftIn(StepAlloc(d, r, next), schema, bound) == LeftIn(next, schema, bound) + Left(d, bound)
  {
    hide LeftOf;
    var s := Substitute(d, r);
    assert Substitute(s, bound) == Substitute(d, bound);
    LeftAddAlloc(next, schema, bound, s);
  }

  lemma {:induction false} LeftFoldE(us: seq<UpsertE>, m: TempMap, r: TempMap, schema: Schema, next: Generation,
                                     bound: TempMap)
    requires Extends(r, m) && Extends(bound, r) && FoldE(us, m, r, schema, next).Ok?
    ensures LeftIn(FoldE(us, m, r, schema, next).value, schema, bound) ==
            LeftIn(next, schema, bound) + LeftOf(AsEs(schema, us), bound)
  {
    hide LeftIn, StepE;
    if us == [] {
      assert AsEs(schema, us) == [];
    } else {
      hide LeftOf, Left;
      LeftE(us[0], m, r, schema, next, bound);
      LeftFoldE(us[1..], m, r, schema, StepE(us[0], m, r, schema, next).value, bound);
      assert AsEs(schema, us)[1..] == AsEs(schema, us[1..]);
      LeftHead(AsEs(schema, us), bound);
    }
  }

  lemma {:induction false} LeftFoldEV(us: seq<UpsertEV>, m: TempMap, r: TempMap, schema: Schema, next: Generation,
                                      bound: TempMap)
    requires Extends(r, m) && Extends(bound, r) && FoldEV(us, m, r, schema, next).Ok?
    ensures LeftIn(FoldEV(us, m, r, schema, next).value, schema, bound) ==
            LeftIn(next, schema, bound) + LeftOf(AsEVs(schema, us), bound)
  {
    hide LeftIn, StepEV;
    if us == [] {
      assert AsEVs(schema, us) == [];
    } else {
      hide LeftOf, Left;
      LeftEV(us[0], m, r, schema, next, bound);
      LeftFoldEV(us[1..], m, r, schema, StepEV(us[0], m, r, schema, next).value, bound);
      assert AsEVs(schema, us)[1..] == AsEVs(schema, us[1..]);
      LeftHead(AsEVs(schema, us), bound);
    }
  }

  lemma {:induction false} LeftFoldAlloc(ds: seq<TDatom>, r: TempMap, schema: Schema, next: Generation, bound: TempMap)
    requires Extends(bound, r)
    ensures LeftIn(FoldAlloc(ds, r, next), schema, bound) == LeftIn(next, schema, bound) + LeftOf(ds, bound)
  {
    hide LeftIn, StepAlloc;
    if ds != [] {
      hide LeftOf, Left;
      LeftAlloc(ds[0], r, schema, next, bound);
      LeftFoldAlloc(ds[1..], r, schema, StepAlloc(ds[0], r, next), bound);
      LeftHead(ds, bound);
    }
  }

  lemma StartLeft(schema: Schema, resolved: seq<Datom>, bound: TempMap)
    ensures LeftIn(EMPTY.(resolved := resolved), schema, bound) == {}
  {
    assert AsEs(schema, []) == [] && AsEVs(schema, []) == [];
  }

  lemma LeftInIs(g: Generation, schema: Schema, bound: TempMap)
    ensures LeftIn(g, schema, bound) ==
            {} + LeftOf(AsEs(schema, g.es), bound) + LeftOf(AsEVs(schema, g.evs), bound) + LeftOf(g.allocs, bound)
  {
    hide LeftOf;
  }

  lemma SelfExtends(r: TempMap, m: TempMap)
    requires Extends(r, m)
    ensures r + m == r
  {
  }

  /** A step neither forgets nor adds anything that is left. */
  lemma StepLeft(g: Generation, m: TempMap, r: TempMap, schema: Schema, bound: TempMap)
    requires Extends(r, m) && Extends(bound, r) && EvolveOneStep(g, m, r, schema).Ok?
    ensures LeftIn(EvolveOneStep(g, m, r, schema).value, schema, bound) == LeftIn(g, schema, bound)
  {
    hide *;
    StepUnfolds(g, m, r, schema);
    var start := EMPTY.(resolved := g.resolved);
    var afterE := FoldE(g.es, m, r, schema, start).value;
    var afterEV := FoldEV(g.evs, m, r, schema, afterE).value;
    LeftFoldE(g.es, m, r, schema, start, bound);
    LeftFoldEV(g.evs, m, r, schema, afterE, bound);
    SelfExtends(r, m);
    LeftFoldAlloc(g.allocs, r, schema, afterEV, bound);
    StartLeft(schema, g.resolved, bound);
    LeftInIs(g, schema, bound);
  }

  // --- Allocations are open --------------------------------------------------------------

  ghost predicate OpenAllocs(g: Generation) {
    forall d :: d in g.allocs ==> !Concrete(d)
  }

  lemma {:induction false} OpenFoldE(us: seq<UpsertE>, m: TempMap, r: TempMap, schema: Schema, next: Generation)
    requires OpenAllocs(next) && FoldE(us, m, r, schema, next).Ok?
    ensures OpenAllocs(FoldE(us, m, r, schema, next).value)
  {
    if us != [] { OpenFoldE(us[1..], m, r, schema, StepE(us[0], m, r, schema, next).value); }
  }

  lemma {:induction false} OpenFoldEV(us: seq<UpsertEV>, m: TempMap, r: TempMap, schema: Schema, next: Generation)
    requires OpenAllocs(next) && FoldEV(us, m, r, schema, next).Ok?
    ensures OpenAllocs(FoldEV(us, m, r, schema, next).value)
  {
    if us != [] { OpenFoldEV(us[1..], m, r, schema, StepEV(us[0], m, r, schema, next).value); }
  }

  lemma {:induction false} OpenFoldAlloc(ds: seq<TDatom>, r: TempMap, next: Generation)
    requires OpenAllocs(next)
    ensures OpenAllocs(FoldAlloc(ds, r, next))
  {
    if ds != [] { OpenFoldAlloc(ds[1..], r, StepAlloc(ds[0], r, next)); }
  }

  lemma StepOpens(g: Generation, m: TempMap, r: TempMap, schema: Schema)
    requires EvolveOneStep(g, m, r, schema).Ok?
    ensures OpenAllocs(EvolveOneStep(g, m, r, schema).value)
  {
    hide FoldE, FoldEV, FoldAlloc;
    StepUnfolds(g, m, r, schema);
    var start := EMPTY.(resolved := g.resolved);
    var afterE := FoldE(g.es, m, r, schema, start).value;
    var afterEV := FoldEV(g.evs, m, r, schema, afterE).value;
    OpenFoldE(g.es, m, r, schema, start);
    OpenFoldEV(g.evs, m, r, schema, afterE);
    OpenFoldAlloc(g.allocs, r + m, afterEV);
  }

  // --- Runs ------------------------------------------------------------------------------

  lemma {:induction false} RunLeft(g: Generation, r: TempMap, schema: Schema, facts: set<Fact>, bound: TempMap)
    requires EvolveAll(g, r, schema, facts).Ok? && Clean(g, r) && OpenAllocs(g)
    requires Extends(bound, EvolveAll(g, r, schema, facts).value.bound)
    ensures var out := EvolveAll(g, r, schema, facts).value;
            LeftIn(out.gen, schema, bound) == LeftIn(g, schema, bound) && OpenAllocs(out.gen)
    decreases 2 * |g.evs| + |g.es|
  {
    if g.es != [] {
      hide *;
      var m, r', g', rest := RunUnfolds(g, r, schema, facts);
      StepOpens(g, m, r', schema);
      RunLeft(g', r', schema, facts, bound);
      RunShape(g', r', schema, facts);
      ExtendsTransitive(bound, rest.bound, r');
      StepLeft(g, m, r', schema, bound);
    }
  }

  lemma SplitLeftStep(d: TDatom, schema: Schema, s: Split, bound: TempMap)
    requires Inverse(schema) && Classify(d, schema, s).Ok? && OpenAllocs(s.gen)
    ensures var n := Classify(d, schema, s).value;
            LeftIn(n.gen, schema, bound) == LeftIn(s.gen, schema, bound) + Left(d, bound) && OpenAllocs(n.gen)
  {
    hide LeftIn;
    var a := GetAttribute(schema, d.a).value.id;
    assert AttrName(schema, a) == d.a;
    if d.e.Temp? && d.v.Data? { LeftAddE(s.gen, schema, bound, UpsertE(d.e.t, a, d.v.v)); }
    if d.e.Temp? && d.v.TempRef? { LeftAddEV(s.gen, schema, bound, UpsertEV(d.e.t, a, d.v.t)); }
    LeftAddAlloc(s.gen, schema, bound, d);
  }

  lemma {:induction false} SplitLeft(ds: seq<TDatom>, schema: Schema, s: Split, bound: TempMap)
    requires Inverse(schema) && SplitAll(ds, schema, s).Ok? && OpenAllocs(s.gen)
    ensures var n := SplitAll(ds, schema, s).value;
            LeftIn(n.gen, schema, bound) == LeftIn(s.gen, schema, bound) + LeftOf(ds, bound) && OpenAllocs(n.gen)
  {
    hide LeftIn, Classify, OpenAllocs, Inverse;
    if ds != [] {
      hide LeftOf, Left;
      SplitLeftStep(ds[0], schema, s, bound);
      SplitLeft(ds[1..], schema, Classify(ds[0], schema, s).value, bound);
      LeftHead(ds, bound);
    }
  }

  /** When no more upserts wait, what is left is what will be allocated. */
  lemma LeftAtEnd(g: Generation, schema: Schema, bound: TempMap, d: TDatom)
    requires g.es == [] && Clean(g, bound) && OpenAllocs(g) && Drain(g, schema).Ok?
    ensures d in Drain(g, schema).value <==> d in LeftIn(g, schema, bound)
  {
    var evs := AsEVs(schema, g.evs);
    assert AsEs(schema, g.es) == [];
    forall x | x in g.allocs ensures Substitute(x, bound) == x && !Concrete(x) {
      assert forall t :: t in TempIdsOf(x) ==> t !in bound;
    }
    forall x | x in evs ensures Substitute(x, bound) == x && !Concrete(x) {
      var i: nat :| i < |evs| && evs[i] == x;
      assert g.evs[i] in g.evs;
    }
  }

  /** The allocations of a resolution are the datoms of its input that still have a tempid. */
  lemma AllocsAre(datoms: seq<TDatom>, schema: Schema, facts: set<Fact>, split: Split, ev: Evolved, d: TDatom)
    requires Inverse(schema) && SplitAll(datoms, schema, Split(EMPTY, [])) == Ok(split)
    requires EvolveAll(split.gen, map[], schema, facts) == Ok(ev) && Drain(ev.gen, schema).Ok?
    ensures d in Drain(ev.gen, schema).value <==> d in LeftOf(datoms, ev.bound)
  {
    hide *;
    NothingOpen();
    SplitLeft(datoms, schema, Split(EMPTY, []), ev.bound);
    StartLeft(schema, [], ev.bound);
    NothingBound(split.gen);
    SameExtends(ev.bound);
    StepBound(split.gen, map[], schema, facts);
    RunShape(split.gen, map[], schema, facts);
    RunLeft(split.gen, map[], schema, facts, ev.bound);
    LeftAtEnd(ev.gen, schema, ev.bound, d);
  }

  lemma NothingOpen()
    ensures OpenAllocs(EMPTY) && EMPTY.(resolved := []) == EMPTY
  {
  }

  lemma SameExtends(r: TempMap)
    ensures Extends(r, r)
  {
  }
}
