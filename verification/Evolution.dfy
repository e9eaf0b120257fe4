/** The evolution loop: lookups, bindings, and what a whole run keeps and drops. */
module Evolution {
  import opened Octets
  import opened Values
  import opened Facts
  import opened Model
  import opened Upsert

  // --- Lookups of one generation ---------------------------------------------------------

  /** Bind each tempid to the entity its identity assertions find; two different ones are a conflict. */
  ghost function Resolve(es: seq<UpsertE>, facts: set<Fact>, acc: TempMap): Result<TempMap> {
    if es == [] then Ok(acc)
    else
      var hit := Hit(facts, es[0].a, es[0].v);
      if hit.None? then Resolve(es[1..], facts, acc)
      else if es[0].t in acc && acc[es[0].t] != hit.value then Err(false)
      else Resolve(es[1..], facts, acc[es[0].t := hit.value])
  }

  /** Bindings never change: a tempid found again must find the same entity. */
  function Record(r: TempMap, m: TempMap): Result<TempMap> {
    if exists t :: t in m && t in r && r[t] != m[t] then Err(false) else Ok(r + m)
  }

  /** Every own hit is the binding, and every binding comes from a hit. */
  lemma {:induction false} ResolveMeans(es: seq<UpsertE>, facts: set<Fact>, acc: TempMap)
    requires Resolve(es, facts, acc).Ok?
    ensures var m := Resolve(es, facts, acc).value;
            && Extends(m, acc)
            && (forall u :: u in es && Hit(facts, u.a, u.v).Some? ==> u.t in m && m[u.t] == Hit(facts, u.a, u.v).value)
            && (forall t :: t in m && t !in acc ==> Found(es, facts, t, m[t]))
  {
    hide Hit;
    if es != [] {
      var hit := Hit(facts, es[0].a, es[0].v);
      var acc' := if hit.None? then acc else acc[es[0].t := hit.value];
      ResolveMeans(es[1..], facts, acc');
      var m := Resolve(es, facts, acc).value;
      assert es == [es[0]] + es[1..];
      forall t | t in m && t !in acc ensures Found(es, facts, t, m[t]) {
        if t in acc' { assert es[0] in es; } else { FoundLater(es, facts, t, m[t]); }
      }
    }
  }

  /** Some assertion of `t` in `es` finds entity `e`. */
  ghost predicate Found(es: seq<UpsertE>, facts: set<Fact>, t: TempId, e: I64) {
    exists u :: u in es && u.t == t && Hit(facts, u.a, u.v) == Some(e)
  }

  lemma FoundLater(es: seq<UpsertE>, facts: set<Fact>, t: TempId, e: I64)
    requires es != [] && Found(es[1..], facts, t, e)
    ensures Found(es, facts, t, e)
  {
    var u :| u in es[1..] && u.t == t && Hit(facts, u.a, u.v) == Some(e);
    assert u in es;
  }

  // --- The loop --------------------------------------------------------------------------

  /** A simple upsert that hit, and the datom it became. */
  datatype Upserted = Upserted(u: UpsertE, d: Datom)

  function UpsertsOf(es: seq<UpsertE>, m: TempMap, schema: Schema): seq<Upserted> {
    if es == [] then []
    else
      (if es[0].t in m then [Upserted(es[0], Datom(m[es[0].t], AttrName(schema, es[0].a), es[0].v, Assert))] else []) +
      UpsertsOf(es[1..], m, schema)
  }

  function Datoms(us: seq<Upserted>): (r: seq<Datom>)
    ensures |r| == |us| && forall i :: 0 <= i < |us| ==> r[i] == us[i].d
  {
    seq(|us|, i requires 0 <= i < |us| => us[i].d)
  }

  /** The end of a run, with the upserts that were dropped on the way and the number of steps. */
  datatype Evolved = Evolved(gen: Generation, bound: TempMap, dropped: seq<Upserted>, steps: nat)

  ghost function EvolveAll(g: Generation, r: TempMap, schema: Schema, facts: set<Fact>): Result<Evolved>
    decreases 2 * |g.evs| + |g.es|
  {
    if g.es == [] then Ok(Evolved(g, r, [], 0))
    else
      var m :- Resolve(g.es, facts, map[]);
      var r' :- Record(r, m);
      var g' :- EvolveOneStep(g, m, r', schema);
      RecordExtends(r, m);
      StepShape(g, m, r', schema);
      var rest :- EvolveAll(g', r', schema, facts);
      var lost := if g'.es == [] then [] else UpsertsOf(g.es, m, schema);
      Ok(Evolved(rest.gen, rest.bound, lost + rest.dropped, rest.steps + 1))
  }

  lemma RecordExtends(r: TempMap, m: TempMap)
    requires Record(r, m).Ok?
    ensures Extends(Record(r, m).value, m) && Extends(Record(r, m).value, r)
  {
  }

  /** One step of a run, taken apart. */
  lemma RunUnfolds(g: Generation, r: TempMap, schema: Schema, facts: set<Fact>)
    returns (m: TempMap, r': TempMap, g': Generation, rest: Evolved)
    requires EvolveAll(g, r, schema, facts).Ok? && g.es != []
    ensures Resolve(g.es, facts, map[]) == Ok(m) && Record(r, m) == Ok(r') && EvolveOneStep(g, m, r', schema) == Ok(g')
    ensures EvolveAll(g', r', schema, facts) == Ok(rest)
    ensures EvolveAll(g, r, schema, facts).value ==
            Evolved(rest.gen, rest.bound, (if g'.es == [] then [] else UpsertsOf(g.es, m, schema)) + rest.dropped,
              rest.steps + 1)
    ensures Extends(r', m) && Extends(r', r) && Clean(g', r')
    ensures |g'.es| + |g'.evs| <= |g.evs|
  {
    m := Resolve(g.es, facts, map[]).value;
    r' := Record(r, m).value;
    g' := EvolveOneStep(g, m, r', schema).value;
    rest := EvolveAll(g', r', schema, facts).value;
    RecordExtends(r, m);
    StepShape(g, m, r', schema);
  }

  /** The loop ends after at most one step more than there are complex upserts. */
  lemma {:induction false} StepBound(g: Generation, r: TempMap, schema: Schema, facts: set<Fact>)
    requires EvolveAll(g, r, schema, facts).Ok?
    ensures var out := EvolveAll(g, r, schema, facts).value;
            out.gen.es == [] && out.steps <= |g.evs| + 1 && (g.es == [] ==> out.steps == 0)
    decreases 2 * |g.evs| + |g.es|
  {
    if g.es != [] {
      var m, r', g', rest := RunUnfolds(g, r, schema, facts);
      StepBound(g', r', schema, facts);
    }
  }

  /** Bindings only grow along the run, and what waits at its end is unbound. */
  lemma {:induction false} RunShape(g: Generation, r: TempMap, schema: Schema, facts: set<Fact>)
    requires EvolveAll(g, r, schema, facts).Ok? && Clean(g, r)
    ensures var out := EvolveAll(g, r, schema, facts).value;
            Extends(out.bound, r) && Clean(out.gen, out.bound)
    decreases 2 * |g.evs| + |g.es|
  {
    if g.es != [] {
      var m, r', g', rest := RunUnfolds(g, r, schema, facts);
      RunShape(g', r', schema, facts);
    }
  }

  lemma {:induction false} UpsertedOf(us: seq<UpsertE>, m: TempMap, r: TempMap, schema: Schema, next: Generation)
    requires FoldE(us, m, r, schema, next).Ok?
    ensures FoldE(us, m, r, schema, next).value.upserted == next.upserted + Datoms(UpsertsOf(us, m, schema))
  {
    if us == [] {
      assert Datoms([]) == [];
    } else {
      var n := StepE(us[0], m, r, schema, next).value;
      UpsertedOf(us[1..], m, r, schema, n);
      var head := if us[0].t in m then [Upserted(us[0], Datom(m[us[0].t], AttrName(schema, us[0].a), us[0].v, Assert))]
        else [];
      assert n.upserted == next.upserted + Datoms(head);
      DatomsJoin(head, UpsertsOf(us[1..], m, schema), next.upserted);
    }
  }

  lemma DatomsJoin(a: seq<Upserted>, b: seq<Upserted>, before: seq<Datom>)
    ensures before + Datoms(a) + Datoms(b) == before + Datoms(a + b)
  {
  }

  lemma StepUpserted(g: Generation, m: TempMap, r: TempMap, schema: Schema)
    requires Extends(r, m) && EvolveOneStep(g, m, r, schema).Ok?
    ensures EvolveOneStep(g, m, r, schema).value.upserted == Datoms(UpsertsOf(g.es, m, schema))
  {
    StepUnfolds(g, m, r, schema);
    var start := EMPTY.(resolved := g.resolved);
    var afterE := FoldE(g.es, m, r, schema, start).value;
    var afterEV := FoldEV(g.evs, m, r, schema, afterE).value;
    UpsertedOf(g.es, m, r, schema, start);
    CleanFoldE(g.es, m, r, schema, start);
    CleanFoldEV(g.evs, m, r, schema, afterE);
    assert r + m == r;
    CleanFoldAlloc(g.allocs, r, afterEV);
    assert [] + Datoms(UpsertsOf(g.es, m, schema)) == Datoms(UpsertsOf(g.es, m, schema));
  }

  ghost function Pending(g: Generation): multiset<Datom> { if g.es == [] then multiset{} else multiset(g.upserted) }

  /**
   * Conservation over a run: for every assignment extending the final bindings, what the run
   * started with is what it ends with plus exactly the upserts of its non-final generations.
   */
  lemma {:induction false} RunConserves(sigma: TempMap, g: Generation, r: TempMap, schema: Schema, facts: set<Fact>)
    requires EvolveAll(g, r, schema, facts).Ok? && Clean(g, r)
    requires Extends(sigma, EvolveAll(g, r, schema, facts).value.bound)
    ensures var out := EvolveAll(g, r, schema, facts).value;
            Content(sigma, schema, g) == Content(sigma, schema, out.gen) + multiset(Datoms(out.dropped)) + Pending(g)
    decreases 2 * |g.evs| + |g.es|
  {
    if g.es == [] {
      assert Datoms([]) == [];
    } else {
      hide *;
      var m, r', g', rest := RunUnfolds(g, r, schema, facts);
      RunShape(g', r', schema, facts);
      RunConserves(sigma, g', r', schema, facts);
      ExtendsTransitive(sigma, rest.bound, r');
      ExtendsTransitive(sigma, r', m);
      StepConserves(sigma, g, m, r', schema);
      StepUpserted(g, m, r', schema);
      LostDatoms(g', UpsertsOf(g.es, m, schema), rest.dropped);
      PendingUpserted(g);
      var out := EvolveAll(g, r, schema, facts).value;
      Chain(Content(sigma, schema, g), Content(sigma, schema, g'), Content(sigma, schema, out.gen),
        multiset(g.upserted),
            multiset(Datoms(rest.dropped)), Pending(g'), multiset(Datoms(out.dropped)));
    }
  }

  lemma Chain(a: multiset<Datom>, b: multiset<Datom>, c: multiset<Datom>, u: multiset<Datom>,
              d: multiset<Datom>, p: multiset<Datom>, d': multiset<Datom>)
    requires b + u == a && b == c + d + p && d' == d + p
    ensures a == c + d' + u
  {
  }

  lemma ExtendsTransitive(a: TempMap, b: TempMap, c: TempMap)
    requires Extends(a, b) && Extends(b, c)
    ensures Extends(a, c)
  {
  }

  lemma PendingUpserted(g: Generation)
    requires g.es != []
    ensures Pending(g) == multiset(g.upserted)
  {
  }

  lemma LostDatoms(g: Generation, us: seq<Upserted>, dropped: seq<Upserted>)
    requires g.upserted == Datoms(us)
    ensures multiset(Datoms((if g.es == [] then [] else us) + dropped)) == multiset(Datoms(dropped)) + Pending(g)
  {
    var lost := if g.es == [] then [] else us;
    assert Datoms(lost + dropped) == Datoms(lost) + Datoms(dropped);
    assert Datoms([]) == [];
  }

  // --- Which dropped upserts were already stored -----------------------------------------

  /** A dropped datom was live in the store exactly if the lookup of its own pair hit. */
  ghost predicate OwnHitDecides(facts: set<Fact>, x: Upserted) {
    Reflexive(x.u.v) ==> (Live(facts, x.d.e, x.u.a, x.u.v) <==> Hit(facts, x.u.a, x.u.v).Some?)
  }

  lemma {:induction false} UpsertsMember(es: seq<UpsertE>, m: TempMap, schema: Schema, x: Upserted)
    requires x in UpsertsOf(es, m, schema)
    ensures x.u in es && x.u.t in m && x.d == Datom(m[x.u.t], AttrName(schema, x.u.a), x.u.v, Assert)
  {
    if es[0].t in m && x == Upserted(es[0], Datom(m[es[0].t], AttrName(schema, es[0].a), es[0].v, Assert)) {
    } else {
      UpsertsMember(es[1..], m, schema, x);
    }
  }

  lemma StepOwnHit(es: seq<UpsertE>, facts: set<Fact>, schema: Schema, x: Upserted)
    requires Resolve(es, facts, map[]).Ok? && x in UpsertsOf(es, Resolve(es, facts, map[]).value, schema)
    ensures OwnHitDecides(facts, x)
  {
    var m := Resolve(es, facts, map[]).value;
    ResolveMeans(es, facts, map[]);
    UpsertsMember(es, m, schema, x);
  }

  lemma {:induction false} DroppedOwnHit(g: Generation, r: TempMap, schema: Schema, facts: set<Fact>)
    requires EvolveAll(g, r, schema, facts).Ok?
    ensures forall x :: x in EvolveAll(g, r, schema, facts).value.dropped ==> OwnHitDecides(facts, x)
    decreases 2 * |g.evs| + |g.es|
  {
    if g.es != [] {
      var m, r', g', rest := RunUnfolds(g, r, schema, facts);
      DroppedOwnHit(g', r', schema, facts);
      forall x | x in UpsertsOf(g.es, m, schema) ensures OwnHitDecides(facts, x) { StepOwnHit(g.es, facts, schema, x); }
    }
  }
}
