/** When the tempids of a transaction can be resolved, told from its datoms, the schema, the store and the counters. */
module Resolvable {
  import opened Octets
  import opened Values
  import opened Facts
  import opened Model
  import opened Upsert
  import opened Evolution
  import opened Labels
  import opened Partition
  import opened Tempids
  import opened Rounds
  import opened Leftover

  // --- The condition ---------------------------------------------------------------------

  ghost predicate KnownAttributes(datoms: seq<TDatom>, schema: Schema) {
    forall d :: d in datoms ==> GetAttribute(schema, d.a).Some?
  }

  /** Whatever the lookups of a tempid find, in whichever rounds, is one entity. */
  ghost predicate OneFinding(datoms: seq<TDatom>, schema: Schema, facts: set<Fact>) {
    forall j: nat, k: nat, t, e, f ::
      (FoundBy(datoms, schema, facts, Round(datoms, schema, facts, j), t, e) &&
       FoundBy(datoms, schema, facts, Round(datoms, schema, facts, k), t, f)) ==> e == f
  }

  /** The tempids that need a new entity: not bound, and the entity of an assertion. */
  ghost function NewTempIds(datoms: seq<TDatom>, schema: Schema, facts: set<Fact>): set<TempId> {
    set d | d in datoms && d.op.Assert? && d.e.Temp? && d.e.t !in Bound(datoms, schema, facts) :: d.e.t
  }

  /** Retractions mention bound tempids only, and every value tempid that is not bound gets an entity. */
  ghost predicate Placeable(datoms: seq<TDatom>, schema: Schema, facts: set<Fact>) {
    && (forall d, t :: d in datoms && d.op.Retract? && t in TempIdsOf(d) ==> t in Bound(datoms, schema, facts))
    && (forall d :: d in datoms && d.v.TempRef? && d.v.t !in Bound(datoms, schema, facts) ==>
          d.v.t in NewTempIds(datoms, schema, facts))
  }

  /** Two tempids that need an entity assert the same unresolved identity. */
  ghost predicate SharedIdentity(d: TDatom, f: TDatom, schema: Schema, bound: TempMap) {
    && d.e.Temp? && d.e.t !in bound && f.e.Temp? && f.e.t !in bound
    && SharesIdentity(Substitute(d, bound), Substitute(f, bound), schema)
  }

  ghost function NewEdges(datoms: seq<TDatom>, schema: Schema, facts: set<Fact>): Edges {
    set d, f | d in datoms && f in datoms && SharedIdentity(d, f, schema, Bound(datoms, schema, facts)) ::
      (d.e.t, f.e.t)
  }

  function PartitionFor(ident: bool): nat { if ident then DB_PARTITION else USER_PARTITION }

  /** The classes of tempids that get their entity in partition `p`. */
  ghost function ClassesFor(datoms: seq<TDatom>, tempids: set<TempId>, edges: Edges, p: nat): set<set<TempId>> {
    set t | t in tempids && PartitionFor(IdentInClass(datoms, tempids, edges, t)) == p :: Class(tempids, edges, t)
  }

  /** The counter of a partition has room for that many ids. */
  predicate HasRoom(pm: Counters, p: nat, n: nat) { n == 0 || CounterOf(pm, p) + n <= COUNTER_SPAN }

  /** Both partitions have room for one entity per class. */
  ghost predicate Roomy(datoms: seq<TDatom>, schema: Schema, facts: set<Fact>, pm: Counters) {
    var tempids, edges := NewTempIds(datoms, schema, facts), NewEdges(datoms, schema, facts);
    forall p :: p in {DB_PARTITION, USER_PARTITION} ==> HasRoom(pm, p, |ClassesFor(datoms, tempids, edges, p)|)
  }

  ghost predicate CanResolve(datoms: seq<TDatom>, schema: Schema, facts: set<Fact>) {
    KnownAttributes(datoms, schema) && OneFinding(datoms, schema, facts) && Placeable(datoms, schema, facts)
  }

  // --- Splitting -------------------------------------------------------------------------

  lemma {:induction false} SplitsIff(ds: seq<TDatom>, schema: Schema, s: Split)
    ensures SplitAll(ds, schema, s).Ok? <==> KnownAttributes(ds, schema)
    ensures SplitAll(ds, schema, s).Ok? || SplitAll(ds, schema, s) == Err(false)
  {
    if ds != [] {
      assert ds == [ds[0]] + ds[1..] && ds[0] in ds;
      var n := Classify(ds[0], schema, s);
      if n.Ok? { SplitsIff(ds[1..], schema, n.value); }
    }
  }

  // --- Lookups ---------------------------------------------------------------------------

  ghost predicate OneFound(es: seq<UpsertE>, facts: set<Fact>) {
    forall t, e, f :: Found(es, facts, t, e) && Found(es, facts, t, f) ==> e == f
  }

  lemma {:induction false} ResolveOk(es: seq<UpsertE>, facts: set<Fact>, acc: TempMap)
    requires OneFound(es, facts) && forall t, e :: Found(es, facts, t, e) && t in acc ==> acc[t] == e
    ensures Resolve(es, facts, acc).Ok?
  {
    hide Hit;
    if es != [] {
      forall t, e | Found(es[1..], facts, t, e) ensures Found(es, facts, t, e) { FoundLater(es, facts, t, e); }
      var hit := Hit(facts, es[0].a, es[0].v);
      if hit.Some? {
        assert es[0] in es;
        assert Found(es, facts, es[0].t, hit.value);
        ResolveOk(es[1..], facts, acc[es[0].t := hit.value]);
      } else {
        ResolveOk(es[1..], facts, acc);
      }
    }
  }

  /** A tempid is bound to something a lookup of an earlier round found. */
  lemma {:induction false} BoundFound(datoms: seq<TDatom>, schema: Schema, facts: set<Fact>, k: nat, t: TempId)
    returns (j: nat)
    requires t in Round(datoms, schema, facts, k).now
    ensures FoundBy(datoms, schema, facts, Round(datoms, schema, facts, j), t, Round(datoms, schema, facts, k).now[t])
  {
    hide FoundBy, AllTempIds;
    var b := Round(datoms, schema, facts, k - 1);
    if t in Findings(datoms, schema, facts, b) {
      j := k - 1;
    } else {
      j := BoundFound(datoms, schema, facts, k - 1, t);
    }
  }

  lemma RoundResolves(datoms: seq<TDatom>, schema: Schema, facts: set<Fact>, k: nat)
    requires OneFinding(datoms, schema, facts)
    ensures var es := Lookups(datoms, schema, Round(datoms, schema, facts, k));
            && Resolve(es, facts, map[]).Ok?
            && Record(Round(datoms, schema, facts, k).now, Resolve(es, facts, map[]).value).Ok?
  {
    hide Round, Lookups, FoundBy, Hit, Resolve;
    var b := Round(datoms, schema, facts, k);
    var es := Lookups(datoms, schema, b);
    forall t, e ensures FoundBy(datoms, schema, facts, b, t, e) <==> Found(es, facts, t, e) {
      FoundMeans(datoms, schema, facts, b, t, e);
    }
    hide Found;
    ResolveOk(es, facts, map[]);
    ResolveMeans(es, facts, map[]);
    var m := Resolve(es, facts, map[]).value;
    forall t | t in m && t in b.now ensures b.now[t] == m[t] {
      var j := BoundFound(datoms, schema, facts, k, t);
      assert FoundBy(datoms, schema, facts, b, t, m[t]);
    }
  }

  // --- Steps never fail ------------------------------------------------------------------

  lemma {:induction false} FoldEOk(us: seq<UpsertE>, m: TempMap, r: TempMap, schema: Schema, next: Generation)
    requires forall u :: u in us ==> u.a in schema.entids
    ensures FoldE(us, m, r, schema, next).Ok?
  {
    if us != [] {
      assert us[0] in us;
      FoldEOk(us[1..], m, r, schema, StepE(us[0], m, r, schema, next).value);
    }
  }

  lemma {:induction false} FoldEVOk(us: seq<UpsertEV>, m: TempMap, r: TempMap, schema: Schema, next: Generation)
    requires forall u :: u in us ==> u.a in schema.entids
    ensures FoldEV(us, m, r, schema, next).Ok?
  {
    if us != [] {
      assert us[0] in us;
      FoldEVOk(us[1..], m, r, schema, StepEV(us[0], m, r, schema, next).value);
    }
  }

  lemma {:induction false} LookupsNamed(ds: seq<TDatom>, schema: Schema, b: Bindings, r: TempMap)
    requires Inverse(schema)
    ensures forall u :: u in Lookups(ds, schema, b) ==> u.a in schema.entids
    ensures forall u :: u in Open(ds, schema, r) ==> u.a in schema.entids
  {
    if ds != [] { LookupsNamed(ds[1..], schema, b, r); }
  }

  lemma StepOk(g: Generation, m: TempMap, r: TempMap, datoms: seq<TDatom>, schema: Schema, b: Bindings)
    requires Inverse(schema) && AtRound(g, datoms, schema, b)
    ensures EvolveOneStep(g, m, r, schema).Ok?
  {
    hide Inverse, Lookups, Open, FoldE, FoldEV, FoldAlloc;
    LookupsNamed(datoms, schema, b, b.now);
    var start := EMPTY.(resolved := g.resolved);
    FoldEOk(g.es, m, r, schema, start);
    FoldEVOk(g.evs, m, r, schema, FoldE(g.es, m, r, schema, start).value);
  }

  // --- Runs ------------------------------------------------------------------------------

  /** With one finding per tempid the loop goes through. */
  lemma {:induction false} RunOk(datoms: seq<TDatom>, schema: Schema, facts: set<Fact>, k: nat, g: Generation)
    requires Inverse(schema) && OneFinding(datoms, schema, facts)
    requires AtRound(g, datoms, schema, Round(datoms, schema, facts, k))
    ensures EvolveAll(g, Round(datoms, schema, facts, k).now, schema, facts).Ok?
    decreases 2 * |g.evs| + |g.es|
  {
    hide *;
    var b := Round(datoms, schema, facts, k);
    var r := b.now;
    if g.es == [] {
      RunEnds(g, r, schema, facts);
    } else {
      AtRoundIs(g, datoms, schema, b);
      RoundResolves(datoms, schema, facts, k);
      var m := Resolve(g.es, facts, map[]).value;
      var r' := Record(r, m).value;
      StepOk(g, m, r', datoms, schema, b);
      var g' := EvolveOneStep(g, m, r', schema).value;
      NextRound(datoms, schema, facts, b, g, m, r', g');
      RoundUnfolds(datoms, schema, facts, k);
      RecordExtends(r, m);
      StepShape(g, m, r', schema);
      OneStep(g, r, schema, facts, m, r', g');
      RunOk(datoms, schema, facts, k + 1, g');
    }
  }

  lemma OneStep(g: Generation, r: TempMap, schema: Schema, facts: set<Fact>, m: TempMap, r': TempMap, g': Generation)
    requires g.es != [] && Resolve(g.es, facts, map[]) == Ok(m) && Record(r, m) == Ok(r') &&
             EvolveOneStep(g, m, r', schema) == Ok(g')
    ensures EvolveAll(g, r, schema, facts).Ok? <==> EvolveAll(g', r', schema, facts).Ok?
    ensures |g'.es| + |g'.evs| <= |g.evs|
  {
    hide Resolve, Record, EvolveOneStep;
    RecordExtends(r, m);
    StepShape(g, m, r', schema);
  }

  /** A run that fails aborts the transaction. */
  lemma {:induction false} RunSoft(g: Generation, r: TempMap, schema: Schema, facts: set<Fact>)
    ensures EvolveAll(g, r, schema, facts).Ok? || EvolveAll(g, r, schema, facts) == Err(false)
    decreases 2 * |g.evs| + |g.es|
  {
    if g.es != [] {
      ResolveSoft(g.es, facts, map[]);
      var m := Resolve(g.es, facts, map[]);
      if m.Ok? && Record(r, m.value).Ok? {
        var r' := Record(r, m.value).value;
        StepSoft(g, m.value, r', schema);
        var g' := EvolveOneStep(g, m.value, r', schema);
        if g'.Ok? {
          RecordExtends(r, m.value);
          StepShape(g, m.value, r', schema);
          RunSoft(g'.value, r', schema, facts);
        }
      }
    }
  }

  lemma {:induction false} ResolveSoft(es: seq<UpsertE>, facts: set<Fact>, acc: TempMap)
    ensures Resolve(es, facts, acc).Ok? || Resolve(es, facts, acc) == Err(false)
  {
    hide Hit;
    if es != [] {
      var hit := Hit(facts, es[0].a, es[0].v);
      ResolveSoft(es[1..], facts, if hit.None? then acc else acc[es[0].t := hit.value]);
    }
  }

  lemma StepSoft(g: Generation, m: TempMap, r: TempMap, schema: Schema)
    ensures EvolveOneStep(g, m, r, schema).Ok? || EvolveOneStep(g, m, r, schema) == Err(false)
  {
    hide FoldE, FoldEV, FoldAlloc;
    var start := EMPTY.(resolved := g.resolved);
    FoldESoft(g.es, m, r, schema, start);
    var afterE := FoldE(g.es, m, r, schema, start);
    if afterE.Ok? { FoldEVSoft(g.evs, m, r, schema, afterE.value); }
  }

  lemma {:induction false} FoldESoft(us: seq<UpsertE>, m: TempMap, r: TempMap, schema: Schema, next: Generation)
    ensures FoldE(us, m, r, schema, next).Ok? || FoldE(us, m, r, schema, next) == Err(false)
  {
    if us != [] {
      var n := StepE(us[0], m, r, schema, next);
      if n.Ok? { FoldESoft(us[1..], m, r, schema, n.value); }
    }
  }

  lemma {:induction false} FoldEVSoft(us: seq<UpsertEV>, m: TempMap, r: TempMap, schema: Schema, next: Generation)
    ensures FoldEV(us, m, r, schema, next).Ok? || FoldEV(us, m, r, schema, next) == Err(false)
  {
    if us != [] {
      var n := StepEV(us[0], m, r, schema, next);
      if n.Ok? { FoldEVSoft(us[1..], m, r, schema, n.value); }
    }
  }

  /** The generation a run ends with is that of a round. */
  lemma {:induction false} RunReaches(datoms: seq<TDatom>, schema: Schema, facts: set<Fact>, k: nat, g: Generation)
    requires AtRound(g, datoms, schema, Round(datoms, schema, facts, k))
    requires EvolveAll(g, Round(datoms, schema, facts, k).now, schema, facts).Ok?
    ensures var out := EvolveAll(g, Round(datoms, schema, facts, k).now, schema, facts).value;
            AtRound(out.gen, datoms, schema, Round(datoms, schema, facts, k + out.steps))
    decreases 2 * |g.evs| + |g.es|
  {
    hide *;
    var b := Round(datoms, schema, facts, k);
    if g.es == [] {
      RunEnds(g, b.now, schema, facts);
    } else {
      var m, r', g', rest := RunUnfolds(g, b.now, schema, facts);
      NextRound(datoms, schema, facts, b, g, m, r', g');
      RoundUnfolds(datoms, schema, facts, k);
      RunReaches(datoms, schema, facts, k + 1, g');
    }
  }

  /** What the loop gives: it ends exactly if findings agree, with the bindings of the last round. */
  lemma EvolvesIff(datoms: seq<TDatom>, schema: Schema, facts: set<Fact>, split: Split)
    requires Inverse(schema) && SplitAll(datoms, schema, Split(EMPTY, [])) == Ok(split)
    ensures EvolveAll(split.gen, map[], schema, facts).Ok? <==> OneFinding(datoms, schema, facts)
    ensures EvolveAll(split.gen, map[], schema, facts).Ok? || EvolveAll(split.gen, map[], schema, facts) == Err(false)
    ensures EvolveAll(split.gen, map[], schema, facts).Ok? ==>
            var ev := EvolveAll(split.gen, map[], schema, facts).value;
            ev.bound == Bound(datoms, schema, facts) && Drain(ev.gen, schema).Ok?
  {
    hide *;
    StartsAtRound(datoms, schema, facts, split);
    RunSoft(split.gen, map[], schema, facts);
    var out := EvolveAll(split.gen, map[], schema, facts);
    if out.Ok? {
      var ev := out.value;
      SameExtends(ev.bound);
      RunDiscards(ev.bound, datoms, schema, facts, 0, split.gen);
      AgreeOnce(ev.bound, datoms, schema, facts);
      StepBound(split.gen, map[], schema, facts);
      OpenBound(datoms, schema, map[]);
      StaysQuiet(datoms, schema, facts, ev.steps, |datoms| + 1);
      BoundIs(datoms, schema, facts);
      RunReaches(datoms, schema, facts, 0, split.gen);
      DrainOk(ev.gen, datoms, schema, Round(datoms, schema, facts, ev.steps));
    } else if OneFinding(datoms, schema, facts) {
      RunOk(datoms, schema, facts, 0, split.gen);
    }
  }

  lemma AgreeOnce(sigma: TempMap, datoms: seq<TDatom>, schema: Schema, facts: set<Fact>)
    requires Agree(sigma, datoms, schema, facts, 0)
    ensures OneFinding(datoms, schema, facts)
  {
    hide FoundBy, Round;
  }

  lemma DrainOk(g: Generation, datoms: seq<TDatom>, schema: Schema, b: Bindings)
    requires Inverse(schema) && AtRound(g, datoms, schema, b)
    ensures Drain(g, schema).Ok?
  {
    hide Inverse, Lookups, Open;
    LookupsNamed(datoms, schema, b, b.now);
  }

  // --- What is left ----------------------------------------------------------------------

  /** The allocations and the input that is left have the same members. */
  ghost predicate LeftOver(allocs: seq<TDatom>, datoms: seq<TDatom>, bound: TempMap) {
    forall d :: d in allocs <==> d in LeftOf(datoms, bound)
  }

  /** A datom keeps what is not bound. */
  lemma Keeps(d: TDatom, bound: TempMap)
    ensures var s := Substitute(d, bound);
            && s.a == d.a && s.op == d.op
            && (forall t :: s.e == Temp(t) <==> d.e == Temp(t) && t !in bound)
            && (forall t :: s.v == TempRef(t) <==> d.v == TempRef(t) && t !in bound)
            && (!Concrete(s) <==> exists t :: t in TempIdsOf(d) && t !in bound)
  {
    var s := Substitute(d, bound);
    if !Concrete(s) {
      if s.e.Temp? {
        assert s.e.t in TempIdsOf(d) && s.e.t !in bound;
      } else {
        assert s.v.t in TempIdsOf(d) && s.v.t !in bound;
      }
    }
  }

  lemma NewTempIdsAre(allocs: seq<TDatom>, datoms: seq<TDatom>, schema: Schema, facts: set<Fact>)
    requires LeftOver(allocs, datoms, Bound(datoms, schema, facts))
    ensures EntityTempIds(allocs) == NewTempIds(datoms, schema, facts)
  {
    hide Substitute, Concrete, Bound;
    var bound := Bound(datoms, schema, facts);
    forall t ensures t in EntityTempIds(allocs) <==> t in NewTempIds(datoms, schema, facts) {
      if t in EntityTempIds(allocs) {
        var x :| x in allocs && x.op.Assert? && x.e == Temp(t);
        var d :| d in datoms && !Concrete(Substitute(d, bound)) && x == Substitute(d, bound);
        Keeps(d, bound);
      }
      if t in NewTempIds(datoms, schema, facts) {
        var d :| d in datoms && d.op.Assert? && d.e == Temp(t) && t !in bound;
        Keeps(d, bound);
        assert t in TempIdsOf(d);
        assert Substitute(d, bound) in allocs;
      }
    }
  }

  lemma NewEdgesAre(allocs: seq<TDatom>, datoms: seq<TDatom>, schema: Schema, facts: set<Fact>)
    requires LeftOver(allocs, datoms, Bound(datoms, schema, facts))
    ensures IdentityEdges(allocs, schema) == NewEdges(datoms, schema, facts)
  {
    hide Substitute, Concrete, Bound, GetAttribute, IsIdentity, SameValueKey;
    var bound := Bound(datoms, schema, facts);
    forall t, u ensures (t, u) in IdentityEdges(allocs, schema) <==> (t, u) in NewEdges(datoms, schema, facts) {
      if (t, u) in IdentityEdges(allocs, schema) {
        var x, y :| x in allocs && y in allocs && SharesIdentity(x, y, schema) && (t, u) == (x.e.t, y.e.t);
        var d := LeftFrom(allocs, datoms, bound, x);
        var f := LeftFrom(allocs, datoms, bound, y);
        Keeps(d, bound);
        Keeps(f, bound);
        assert SharedIdentity(d, f, schema, bound);
      }
      if (t, u) in NewEdges(datoms, schema, facts) {
        var d, f :| d in datoms && f in datoms && SharedIdentity(d, f, schema, bound) && (t, u) == (d.e.t, f.e.t);
        StillLeft(allocs, datoms, bound, d);
        StillLeft(allocs, datoms, bound, f);
      }
    }
  }

  lemma LeftFrom(allocs: seq<TDatom>, datoms: seq<TDatom>, bound: TempMap, x: TDatom) returns (d: TDatom)
    requires LeftOver(allocs, datoms, bound) && x in allocs
    ensures d in datoms && x == Substitute(d, bound) && !Concrete(x)
  {
    hide Substitute, Concrete;
    d :| d in datoms && !Concrete(Substitute(d, bound)) && x == Substitute(d, bound);
  }

  lemma StillLeft(allocs: seq<TDatom>, datoms: seq<TDatom>, bound: TempMap, d: TDatom)
    requires LeftOver(allocs, datoms, bound) && d in datoms && d.e.Temp? && d.e.t !in bound
    ensures Substitute(d, bound) in allocs && Substitute(d, bound).e == d.e
  {
    hide Substitute, Concrete;
    Keeps(d, bound);
    assert d.e.t in TempIdsOf(d);
  }

  lemma AllocatableIff(allocs: seq<TDatom>, datoms: seq<TDatom>, schema: Schema, facts: set<Fact>)
    requires LeftOver(allocs, datoms, Bound(datoms, schema, facts)) && KnownAttributes(datoms, schema)
    ensures Allocatable(allocs, schema) <==> Placeable(datoms, schema, facts)
  {
    hide Substitute, Concrete, Bound, EntityTempIds, NewTempIds, GetAttribute, LeftOf;
    var bound := Bound(datoms, schema, facts);
    NewTempIdsAre(allocs, datoms, schema, facts);
    if Placeable(datoms, schema, facts) {
      forall x | x in allocs
        ensures !Dangling(x) && GetAttribute(schema, x.a).Some? && (x.v.TempRef? ==> x.v.t in EntityTempIds(allocs))
      {
        var d := LeftFrom(allocs, datoms, bound, x);
        Keeps(d, bound);
      }
    }
    if Allocatable(allocs, schema) {
      forall d, t | d in datoms && d.op.Retract? && t in TempIdsOf(d) ensures t in bound {
        if t !in bound { NotAllocatable(allocs, datoms, schema, bound, d, t); }
      }
      forall d | d in datoms && d.v.TempRef? && d.v.t !in bound ensures d.v.t in NewTempIds(datoms, schema, facts) {
        Keeps(d, bound);
        assert d.v.t in TempIdsOf(d);
        LeftIsThere(allocs, datoms, bound, d);
      }
    }
  }

  lemma LeftIsThere(allocs: seq<TDatom>, datoms: seq<TDatom>, bound: TempMap, d: TDatom)
    requires LeftOver(allocs, datoms, bound) && d in datoms && !Concrete(Substitute(d, bound))
    ensures Substitute(d, bound) in allocs
  {
    hide Substitute, Concrete;
  }

  /** A retraction that still mentions a tempid cannot be allocated. */
  lemma NotAllocatable(allocs: seq<TDatom>, datoms: seq<TDatom>, schema: Schema, bound: TempMap, d: TDatom, t: TempId)
    requires LeftOver(allocs, datoms, bound) && d in datoms && d.op.Retract? && t in TempIdsOf(d) && t !in bound
    ensures !Allocatable(allocs, schema)
  {
    hide Substitute, EntityTempIds;
    Keeps(d, bound);
    LeftIsThere(allocs, datoms, bound, d);
    assert Dangling(Substitute(d, bound));
  }

  // --- Room ------------------------------------------------------------------------------

  lemma {:induction false} AllocatesIff(parts: seq<nat>, pm: Counters)
    requires InRange(parts)
    ensures AllocateAll(parts, pm).Ok? <==> forall p :: HasRoom(pm, p, multiset(parts)[p])
    ensures AllocateAll(parts, pm).Ok? || AllocateAll(parts, pm) == Err(true)
  {
    hide HasRoom, CounterOf;
    if parts == [] {
      forall p ensures HasRoom(pm, p, 0) { NoneFits(pm, p); }
    } else {
      var q := parts[0];
      var next := pm[q := CounterOf(pm, q) + 1];
      forall p
        ensures HasRoom(pm, p, multiset(parts)[p]) <==>
                HasRoom(next, p, multiset(parts[1..])[p]) && (p == q ==> CounterOf(pm, q) < COUNTER_SPAN)
      {
        RoomHead(parts, pm, p);
      }
      if CounterOf(pm, q) < COUNTER_SPAN {
        AllocatesIff(parts[1..], next);
      } else {
        assert !HasRoom(pm, q, multiset(parts)[q]);
      }
    }
  }

  lemma NoneFits(pm: Counters, p: nat)
    ensures HasRoom(pm, p, 0)
  {
  }

  lemma RoomHead(parts: seq<nat>, pm: Counters, p: nat)
    requires parts != []
    ensures var q := parts[0];
            HasRoom(pm, p, multiset(parts)[p]) <==>
            HasRoom(pm[q := CounterOf(pm, q) + 1], p, multiset(parts[1..])[p]) &&
            (p == q ==> CounterOf(pm, q) < COUNTER_SPAN)
  {
    assert parts == [parts[0]] + parts[1..];
    assert multiset(parts) == multiset{parts[0]} + multiset(parts[1..]);
  }

  /** The classes with a label below `m` and in partition `p`. */
  ghost function ClassesBelow(tempids: set<TempId>, edges: Edges, labels: map<TempId, nat>, parts: seq<nat>, p: nat,
                              m: nat): set<set<TempId>>
    requires labels.Keys == tempids && m <= |parts|
  {
    set t | t in tempids && labels[t] < m && parts[labels[t]] == p :: Class(tempids, edges, t)
  }

  lemma SameClass(tempids: set<TempId>, edges: Edges, t: TempId, u: TempId)
    requires t in tempids && u in tempids
    ensures Class(tempids, edges, t) == Class(tempids, edges, u) <==> Joined(edges, t, u)
  {
    hide Joined;
    JoinedSelf(edges, u);
    if Joined(edges, t, u) {
      JoinedSymmetric(edges, t, u);
      forall w ensures Joined(edges, t, w) <==> Joined(edges, u, w) {
        if Joined(edges, t, w) { JoinedTransitive(edges, u, t, w); }
        if Joined(edges, u, w) { JoinedTransitive(edges, t, u, w); }
      }
    } else {
      assert u in Class(tempids, edges, u) && u !in Class(tempids, edges, t);
    }
  }

  lemma OneMoreClass(tempids: set<TempId>, edges: Edges, labels: map<TempId, nat>, parts: seq<nat>, p: nat, m: nat)
    requires IsLabelling(labels, tempids, edges) && Dense(labels, |parts|) && m < |parts|
    ensures |ClassesBelow(tempids, edges, labels, parts, p, m + 1)| ==
            |ClassesBelow(tempids, edges, labels, parts, p, m)| + if parts[m] == p then 1 else 0
  {
    hide Joined, Class;
    assert Used(labels, m);
    var t :| t in labels && labels[t] == m;
    var c := Class(tempids, edges, t);
    var below, upTo := ClassesBelow(tempids, edges, labels, parts, p, m),
      ClassesBelow(tempids, edges, labels, parts, p, m + 1);
    forall u | u in tempids ensures Class(tempids, edges, t) == Class(tempids, edges, u) <==> labels[u] == m {
      SameClass(tempids, edges, t, u);
    }
    if parts[m] == p {
      assert upTo == below + {c} && c !in below;
    } else {
      assert upTo == below;
    }
  }

  lemma {:induction false} CountClasses(tempids: set<TempId>, edges: Edges, labels: map<TempId, nat>, parts: seq<nat>,
                                        p: nat, m: nat)
    requires IsLabelling(labels, tempids, edges) && Dense(labels, |parts|) && m <= |parts|
    ensures |ClassesBelow(tempids, edges, labels, parts, p, m)| == multiset(parts[..m])[p]
  {
    hide Joined, EarlierWith, Dense, Class;
    if m == 0 {
      assert ClassesBelow(tempids, edges, labels, parts, p, 0) == {} by { NoneBelow(tempids, edges, labels, parts, p); }
    } else {
      CountClasses(tempids, edges, labels, parts, p, m - 1);
      OneMoreClass(tempids, edges, labels, parts, p, m - 1);
      assert parts[..m] == parts[..m - 1] + [parts[m - 1]];
    }
  }

  lemma NoneBelow(tempids: set<TempId>, edges: Edges, labels: map<TempId, nat>, parts: seq<nat>, p: nat)
    requires labels.Keys == tempids
    ensures ClassesBelow(tempids, edges, labels, parts, p, 0) == {}
  {
  }

  /** As many ids are asked of a partition as there are classes for it. */
  lemma ClassCount(datoms: seq<TDatom>, tempids: set<TempId>, edges: Edges, p: nat)
    ensures multiset(ClassPartitions(datoms, Labelling(tempids, edges)))[p] == |ClassesFor(datoms, tempids, edges, p)|
  {
    hide Labelling, LabelCount, IdentInClass, ClassNamesIdent, Class, IsLabelling, Dense;
    var labels := Labelling(tempids, edges);
    var parts := ClassPartitions(datoms, labels);
    LabelsDense(tempids, edges);
    CountClasses(tempids, edges, labels, parts, p, |parts|);
    assert parts[..|parts|] == parts;
    LabelBounds(labels, tempids, edges, |parts|);
    forall t | t in tempids ensures parts[labels[t]] == PartitionFor(IdentInClass(datoms, tempids, edges, t)) {
      ClassPartition(datoms, labels, tempids, edges, t);
    }
    assert ClassesBelow(tempids, edges, labels, parts, p, |parts|) == ClassesFor(datoms, tempids, edges, p);
  }

  lemma LabelBounds(labels: map<TempId, nat>, tempids: set<TempId>, edges: Edges, n: nat)
    requires IsLabelling(labels, tempids, edges) && Dense(labels, n)
    ensures labels.Keys == tempids && forall t :: t in tempids ==> labels[t] < n
  {
  }

  lemma RoomIff(datoms: seq<TDatom>, tempids: set<TempId>, edges: Edges, pm: Counters)
    ensures AllocateAll(ClassPartitions(datoms, Labelling(tempids, edges)), pm).Ok? <==>
            forall p :: p in {DB_PARTITION, USER_PARTITION} ==> HasRoom(pm, p, |ClassesFor(datoms, tempids, edges, p)|)
    ensures var r := AllocateAll(ClassPartitions(datoms, Labelling(tempids, edges)), pm); r.Ok? || r == Err(true)
  {
    hide Labelling, LabelCount, AllocateAll, ClassesFor, ClassNamesIdent;
    var parts := ClassPartitions(datoms, Labelling(tempids, edges));
    AllocatesIff(parts, pm);
    forall p
      ensures multiset(parts)[p] == |ClassesFor(datoms, tempids, edges, p)|
    {
      ClassCount(datoms, tempids, edges, p);
    }
    forall p | p !in {DB_PARTITION, USER_PARTITION} ensures multiset(parts)[p] == 0 {
      assert p !in parts;
    }
  }

  // --- The whole resolution --------------------------------------------------------------

  /** What the allocations are, once the upserts are done. */
  lemma Waits(datoms: seq<TDatom>, schema: Schema, facts: set<Fact>, split: Split, ev: Evolved)
    requires Inverse(schema) && SplitAll(datoms, schema, Split(EMPTY, [])) == Ok(split) &&
             KnownAttributes(datoms, schema)
    requires EvolveAll(split.gen, map[], schema, facts) == Ok(ev) && Drain(ev.gen, schema).Ok?
    requires ev.bound == Bound(datoms, schema, facts)
    ensures var allocs := Drain(ev.gen, schema).value;
            && (Allocatable(allocs, schema) <==> Placeable(datoms, schema, facts))
            && EntityTempIds(allocs) == NewTempIds(datoms, schema, facts)
            && IdentityEdges(allocs, schema) == NewEdges(datoms, schema, facts)
  {
    hide *;
    var allocs := Drain(ev.gen, schema).value;
    forall d ensures d in allocs <==> d in LeftOf(datoms, ev.bound) { AllocsAre(datoms, schema, facts, split, ev, d); }
    IsLeftOver(allocs, datoms, ev.bound);
    AllocatableIff(allocs, datoms, schema, facts);
    NewTempIdsAre(allocs, datoms, schema, facts);
    NewEdgesAre(allocs, datoms, schema, facts);
  }

  lemma IsLeftOver(allocs: seq<TDatom>, datoms: seq<TDatom>, bound: TempMap)
    requires forall d :: d in allocs <==> d in LeftOf(datoms, bound)
    ensures LeftOver(allocs, datoms, bound)
  {
    hide LeftOf;
  }

  /** The last stages: allocation and the final substitution. */
  ghost function Finish(datoms: seq<TDatom>, schema: Schema, pm: Counters, split: Split,
                        ev: Evolved): Result<Resolution>
    requires Drain(ev.gen, schema).Ok? && Allocatable(Drain(ev.gen, schema).value, schema)
  {
    var allocs := Drain(ev.gen, schema).value;
    var labels := Labelling(EntityTempIds(allocs), IdentityEdges(allocs, schema));
    var alloc :- AllocateAll(ClassPartitions(datoms, labels), pm);
    var given := Assign(labels, alloc.ids);
    var finals :- Finals(allocs, given);
    Ok(Resolution(ev.gen.upserted + ev.gen.resolved + finals + split.inert, alloc.pm, ev.bound + given, ev.dropped,
      alloc.ids))
  }

  lemma FinishIff(datoms: seq<TDatom>, schema: Schema, pm: Counters, split: Split, ev: Evolved)
    requires Drain(ev.gen, schema).Ok? && Allocatable(Drain(ev.gen, schema).value, schema)
    ensures var labels := LabelsOf(Drain(ev.gen, schema).value, schema);
            Finish(datoms, schema, pm, split, ev).Ok? <==> AllocateAll(ClassPartitions(datoms, labels), pm).Ok?
    ensures Finish(datoms, schema, pm, split, ev).Ok? || Finish(datoms, schema, pm, split, ev) == Err(true)
  {
    hide Drain, Allocatable, AllocateAll, Finals, Labelling, LabelCount, EntityTempIds, IdentityEdges, Assign,
         ClassNamesIdent;
    var allocs := Drain(ev.gen, schema).value;
    var parts := ClassPartitions(datoms, LabelsOf(allocs, schema));
    RoomIff(datoms, EntityTempIds(allocs), IdentityEdges(allocs, schema), pm);
    var alloc := AllocateAll(parts, pm);
    if alloc.Ok? {
      AllocateGrows(parts, pm);
      FinalSubstitutionTotal(allocs, schema, alloc.value.ids);
    }
  }

  lemma ResolveUnfolds(datoms: seq<TDatom>, schema: Schema, facts: set<Fact>, pm: Counters)
    ensures var split := SplitAll(datoms, schema, Split(EMPTY, []));
            ResolveTempids(datoms, schema, facts, pm) ==
            if split.Err? then Err(split.halt)
            else
              var ev := EvolveAll(split.value.gen, map[], schema, facts);
              if ev.Err? then Err(ev.halt)
              else if Drain(ev.value.gen, schema).Err? then Err(false)
              else if !Allocatable(Drain(ev.value.gen, schema).value, schema) then Err(false)
              else Finish(datoms, schema, pm, split.value, ev.value)
  {
    hide SplitAll, EvolveAll, Allocatable, AllocateAll, Finals, Labelling, LabelCount, EntityTempIds, IdentityEdges,
         Assign, ClassNamesIdent;
  }

  /**
   * When resolution succeeds, exactly: the attributes are known, every tempid is found as at most one
   * entity over all rounds, what is left can be given entities, and the counters have room for one
   * per class. Without room the indexer stops; without the rest the transaction aborts.
   */
  lemma ResolvesIff(datoms: seq<TDatom>, schema: Schema, facts: set<Fact>, pm: Counters)
    requires Inverse(schema)
    ensures ResolveTempids(datoms, schema, facts, pm).Ok? <==>
            CanResolve(datoms, schema, facts) && Roomy(datoms, schema, facts, pm)
    ensures !CanResolve(datoms, schema, facts) ==> ResolveTempids(datoms, schema, facts, pm) == Err(false)
    ensures CanResolve(datoms, schema, facts) && !Roomy(datoms, schema, facts, pm) ==>
            ResolveTempids(datoms, schema, facts, pm) == Err(true)
  {
    hide Inverse, ResolveTempids, SplitAll, EvolveAll, Drain, Allocatable, KnownAttributes, OneFinding, Placeable,
         Finish, AllocateAll, Labelling, LabelCount, EntityTempIds, IdentityEdges, NewTempIds, NewEdges, ClassesFor,
         Bound, HasRoom, ClassNamesIdent;
    ResolveUnfolds(datoms, schema, facts, pm);
    SplitsIff(datoms, schema, Split(EMPTY, []));
    var split := SplitAll(datoms, schema, Split(EMPTY, []));
    if split.Ok? {
      EvolvesIff(datoms, schema, facts, split.value);
      var ev := EvolveAll(split.value.gen, map[], schema, facts);
      if ev.Ok? {
        Waits(datoms, schema, facts, split.value, ev.value);
        if Allocatable(Drain(ev.value.gen, schema).value, schema) {
          FinishIff(datoms, schema, pm, split.value, ev.value);
          RoomIff(datoms, NewTempIds(datoms, schema, facts), NewEdges(datoms, schema, facts), pm);
        }
      }
    }
  }

  /** Which entity each tempid gets, from the input: the one found, or a new one per class of shared identities. */
  lemma AssignmentTold(datoms: seq<TDatom>, schema: Schema, facts: set<Fact>, pm: Counters) returns (given: TempMap)
    requires Inverse(schema) && ResolveTempids(datoms, schema, facts, pm).Ok?
    ensures var res := ResolveTempids(datoms, schema, facts, pm).value;
            && res.sigma == Bound(datoms, schema, facts) + given && Bound(datoms, schema, facts).Keys !! given.Keys
            && OnePerClass(datoms, NewTempIds(datoms, schema, facts), NewEdges(datoms, schema, facts), given, pm,
               res.pm)
  {
    hide *;
    var st := ResolutionUnfolds(datoms, schema, facts, pm);
    given := st.given;
    StagesShape(datoms, schema, facts, st);
    SplitsIff(datoms, schema, Split(EMPTY, []));
    EvolvesIff(datoms, schema, facts, st.split);
    Waits(datoms, schema, facts, st.split, st.ev);
    LabelsUnfold(st.allocs, schema);
    AssignClasses(datoms, EntityTempIds(st.allocs), IdentityEdges(st.allocs, schema), pm);
  }
}
