/** When an upsert that was dropped on the way is lost, and when nothing is. */
module UpsertLoss {
  import opened Values
  import opened Facts
  import opened Model
  import opened Upsert
  import opened Evolution
  import opened Partition
  import opened Tempids
  import opened Rounds
  import opened Expand
  import opened Transact
  import opened Invariant
  import opened Sources

  // --- Lost, by the result and by the input ----------------------------------------------

  /** A datom of the input is neither written nor live in the store already. */
  ghost predicate Missing(d: TDatom, res: Resolution, schema: Schema, facts: set<Fact>) {
    var img := Img(res.sigma, d);
    img !in res.datoms && !Live(facts, img.e, AttrId(img, schema), img.v)
  }

  /**
   * In round `k + 1` the assertion's own lookup misses, another assertion of its tempid finds an
   * entity, and a further round follows. A value not equal to itself is never found, so there the
   * triple must not be live either.
   */
  ghost predicate Overrun(d: TDatom, datoms: seq<TDatom>, schema: Schema, facts: set<Fact>, k: nat) {
    var b := Round(datoms, schema, facts, k);
    var u := Asks(d, schema, b);
    && u.Some? && Hit(facts, u.value.a, u.value.v).None? && Goes(datoms, schema, facts, k + 1)
    && exists e :: FoundBy(datoms, schema, facts, b, u.value.t, e) &&
         (Reflexive(u.value.v) || !Live(facts, e, u.value.a, u.value.v))
  }

  /** The same datom once the bound tempids are replaced. */
  ghost predicate SameOnceBound(d: TDatom, f: TDatom, datoms: seq<TDatom>, schema: Schema, facts: set<Fact>) {
    Substitute(d, Bound(datoms, schema, facts)) == Substitute(f, Bound(datoms, schema, facts))
  }

  /** The assertion is overrun, and no datom that survives says the same. */
  ghost predicate Lost(d: TDatom, datoms: seq<TDatom>, schema: Schema, facts: set<Fact>) {
    && (exists k: nat :: k < |datoms| && Overrun(d, datoms, schema, facts, k))
    && (forall f :: f in datoms && SameOnceBound(d, f, datoms, schema, facts) ==> f in Discards(datoms, schema, facts))
  }

  // --- What is written -------------------------------------------------------------------

  lemma {:induction false} OnlyMember(sigma: TempMap, ds: seq<TDatom>, s: set<TDatom>, x: Datom)
    ensures x in Imgs(sigma, Only(ds, s)) <==> exists f :: f in ds && f in s && Img(sigma, f) == x
  {
    hide Img;
    if ds == [] {
      assert Only(ds, s) == [];
    } else {
      OnlyMember(sigma, ds[1..], s, x);
      OnlyUnfolds(sigma, ds, s);
      assert ds == [ds[0]] + ds[1..];
      hide Only;
      if f :| f in ds[1..] && f in s && Img(sigma, f) == x { assert f in ds; }
      if ds[0] in s && Img(sigma, ds[0]) == x { assert ds[0] in ds; }
    }
  }

  lemma WrittenIff(datoms: seq<TDatom>, schema: Schema, facts: set<Fact>, pm: Counters, x: Datom)
    requires Inverse(schema) && ResolveTempids(datoms, schema, facts, pm).Ok?
    ensures var res := ResolveTempids(datoms, schema, facts, pm).value;
            x in res.datoms <==> exists f ::
              f in datoms && f !in Discards(datoms, schema, facts) && Img(res.sigma, f) == x
  {
    hide *;
    SurvivorsWritten(datoms, schema, facts, pm);
    var res, kept := ResolveTempids(datoms, schema, facts, pm).value, Survivors(datoms, schema, facts);
    OnlyMember(res.sigma, datoms, kept, x);
    SameMembers(res.datoms, Imgs(res.sigma, Only(datoms, kept)), x);
    forall f | f in datoms
      ensures f in kept <==> f !in Discards(datoms, schema, facts)
    {
      SurvivorIs(datoms, schema, facts, f);
    }
  }

  lemma SurvivorIs(datoms: seq<TDatom>, schema: Schema, facts: set<Fact>, f: TDatom)
    requires f in datoms
    ensures f in Survivors(datoms, schema, facts) <==> f !in Discards(datoms, schema, facts)
  {
    hide Discards;
  }

  lemma SameMembers(a: seq<Datom>, b: seq<Datom>, x: Datom)
    requires multiset(a) == multiset(b)
    ensures x in a <==> x in b
  {
    assert x in a <==> x in multiset(a);
    assert x in b <==> x in multiset(b);
  }

  // --- Equal images ----------------------------------------------------------------------

  /** A discarded assertion mentions bound tempids only. */
  lemma DiscardedBound(d: TDatom, datoms: seq<TDatom>, schema: Schema, facts: set<Fact>)
    requires d in Discards(datoms, schema, facts)
    ensures AssertsIdentity(d, schema) && d.e.t in Bound(datoms, schema, facts)
    ensures d.v.TempRef? ==> d.v.t in Bound(datoms, schema, facts)
  {
    hide DiscardedIn, Bound;
    var k: nat :| k < |datoms| && DiscardedIn(d, datoms, schema, facts, k);
    BoundIn(d, datoms, schema, facts, k);
  }

  lemma BoundIn(d: TDatom, datoms: seq<TDatom>, schema: Schema, facts: set<Fact>, k: nat)
    requires k < |datoms| && DiscardedIn(d, datoms, schema, facts, k)
    ensures AssertsIdentity(d, schema) && d.e.t in Bound(datoms, schema, facts)
    ensures d.v.TempRef? ==> d.v.t in Bound(datoms, schema, facts)
  {
    hide Round, Findings, FoundBy, Goes, Asks;
    var b := Round(datoms, schema, facts, k);
    AskedTempIds(d, schema, b);
    FindingKeys(datoms, schema, facts, b, d.e.t);
    RoundUnfolds(datoms, schema, facts, k);
    Grown(datoms, schema, facts, k, |datoms| + 1);
    Grown(datoms, schema, facts, k + 1, |datoms| + 1);
  }

  lemma AskedTempIds(d: TDatom, schema: Schema, b: Bindings)
    requires Asks(d, schema, b).Some?
    ensures AssertsIdentity(d, schema) && d.e.t == Asks(d, schema, b).value.t && (d.v.TempRef? ==> d.v.t in b.now)
  {
  }

  /** A transaction that has been expanded and resolved, in a state with the invariants. */
  ghost predicate Resolves(s: State, txId: nat, ops: seq<TxOp>, rets: seq<TDatom>, input: seq<TDatom>) {
    && Inv(s) && SetTx(s.pm, txId).Ok? && RetractsLive(rets, TargetsOf(ops, s.schema, s.facts), s.schema, s.facts)
    && ExpandTx(ops, rets, s.schema, s.facts, s.pm) == Ok(input)
    && ResolveTempids(input, s.schema, s.facts, SetTx(s.pm, txId).value).Ok?
  }

  ghost function ResolutionOf(s: State, txId: nat, ops: seq<TxOp>, rets: seq<TDatom>, input: seq<TDatom>): Resolution
    requires Resolves(s, txId, ops, rets, input)
  {
    ResolveTempids(input, s.schema, s.facts, SetTx(s.pm, txId).value).value
  }

  /** Bound tempids end at allocated entities, the others at new ones. */
  lemma EndsAt(s: State, txId: nat, ops: seq<TxOp>, rets: seq<TDatom>, input: seq<TDatom>, t: TempId)
    requires Resolves(s, txId, ops, rets, input) && t in AllTempIds(input)
    ensures EndOf(s.pm, Bound(input, s.schema, s.facts), ResolutionOf(s, txId, ops, rets, input).sigma, t)
  {
    assert Resolves(s, txId, ops, rets, input);
    hide Inv, SetTx, RetractsLive, ExpandTx, TargetsOf, ResolveTempids, Bound, AllTempIds, Contains, NewId, OnePerClass;
    var pm := SetTx(s.pm, txId).value;
    InvInverse(s);
    ResolutionConserves(input, s.schema, s.facts, pm);
    var allocs, given := RoundsResolve(input, s.schema, s.facts, pm);
    var res, bound := ResolutionOf(s, txId, ops, rets, input), Bound(input, s.schema, s.facts);
    if t in bound {
      BoundStored(s.facts, bound, t);
      StoredContained(s, bound[t]);
    } else {
      var p := GivenNew(input, EntityTempIds(allocs), IdentityEdges(allocs, s.schema), given, pm, res.pm, t);
      NewNotOld(s.pm, txId, res.pm, p, given[t]);
    }
  }

  lemma NewNotOld(pm: Counters, txId: nat, pm': Counters, p: nat, e: I64)
    requires SetTx(pm, txId).Ok? && NewId(SetTx(pm, txId).value, pm', p, e)
    ensures !Contains(pm, e)
  {
  }

  /** A tempid is bound to its allocated end, or ends at an id that is new. */
  ghost predicate EndOf(pm: Counters, bound: TempMap, sigma: TempMap, t: TempId) {
    t in sigma && (if t in bound then sigma[t] == bound[t] && Contains(pm, sigma[t]) else !Contains(pm, sigma[t]))
  }

  /** For a discarded assertion, equal images are equal substitutions: no new id can be mistaken for an old one. */
  lemma SameImageIff(s: State, txId: nat, ops: seq<TxOp>, rets: seq<TDatom>, input: seq<TDatom>, d: TDatom, f: TDatom)
    requires Resolves(s, txId, ops, rets, input) && d in input && f in input && d in Discards(input, s.schema, s.facts)
    ensures var sigma := ResolutionOf(s, txId, ops, rets, input).sigma;
            Img(sigma, f) == Img(sigma, d) <==> SameOnceBound(d, f, input, s.schema, s.facts)
  {
    hide Resolves, ResolutionOf, Discards, Bound, Contains, Substitute, Img, EndOf;
    DiscardedBound(d, input, s.schema, s.facts);
    EndsOf(s, txId, ops, rets, input, d);
    EndsOf(s, txId, ops, rets, input, f);
    if f.v.TempRef? && d.a == f.a { RefValueKnown(s, txId, ops, rets, input, d, f); }
    var bound, sigma := Bound(input, s.schema, s.facts), ResolutionOf(s, txId, ops, rets, input).sigma;
    SameEnds(s.pm, bound, sigma, d, f);
  }

  lemma EndsOf(s: State, txId: nat, ops: seq<TxOp>, rets: seq<TDatom>, input: seq<TDatom>, d: TDatom)
    requires Resolves(s, txId, ops, rets, input) && d in input
    ensures forall t :: t in TempIdsOf(d) ==>
              EndOf(s.pm, Bound(input, s.schema, s.facts), ResolutionOf(s, txId, ops, rets, input).sigma, t)
  {
    hide Resolves, ResolutionOf, Bound, Contains, TempIdsOf;
    forall t | t in TempIdsOf(d)
      ensures EndOf(s.pm, Bound(input, s.schema, s.facts), ResolutionOf(s, txId, ops, rets, input).sigma, t)
    {
      TempIdOf(input, d, t);
      EndsAt(s, txId, ops, rets, input, t);
    }
  }

  lemma SameEnds(pm: Counters, bound: TempMap, sigma: TempMap, d: TDatom, f: TDatom)
    requires forall t :: t in TempIdsOf(d) || t in TempIdsOf(f) ==> EndOf(pm, bound, sigma, t)
    requires d.e.Temp? && d.e.t in bound && (d.v.TempRef? ==> d.v.t in bound)
    requires f.v.TempRef? && d.a == f.a && d.v.Data? && d.v.v.Long? ==> Contains(pm, d.v.v.i)
    ensures Img(sigma, f) == Img(sigma, d) <==> Substitute(d, bound) == Substitute(f, bound)
  {
    hide Contains;
    assert EndOf(pm, bound, sigma, d.e.t);
    assert d.v.TempRef? ==> EndOf(pm, bound, sigma, d.v.t);
    assert f.e.Temp? ==> EndOf(pm, bound, sigma, f.e.t);
    assert f.v.TempRef? ==> EndOf(pm, bound, sigma, f.v.t);
  }

  /** An explicit value of an attribute that elsewhere refers to a tempid is an allocated entity. */
  lemma RefValueKnown(s: State, txId: nat, ops: seq<TxOp>, rets: seq<TDatom>, input: seq<TDatom>, d: TDatom, f: TDatom)
    requires Resolves(s, txId, ops, rets, input) && d in input && f in input && f.v.TempRef? && d.a == f.a
    ensures d.v.Data? && d.v.v.Long? ==> Contains(s.pm, d.v.v.i)
  {
    hide Inv, SetTx, RetractsLive, TargetsOf, ResolveTempids, Contains, GetAttribute, ExpandTx;
    InputRefTyped(ops, rets, TargetsOf(ops, s.schema, s.facts), s.schema, s.facts, s.pm);
    ExpandedAllocated(ops, rets, s.schema, s.facts, s.pm);
    assert RefTyped(f, s.schema) && AllocatedDatom(d, s.schema, s.pm);
  }

  // --- The condition ---------------------------------------------------------------------

  /** Among the discarded, the overrun ones are those whose triple is not live. */
  lemma OverrunIff(sigma: TempMap, datoms: seq<TDatom>, schema: Schema, facts: set<Fact>, d: TDatom, k: nat)
    requires Agree(sigma, datoms, schema, facts, 0) && d in datoms && DiscardedIn(d, datoms, schema, facts, k)
    ensures var img := Img(sigma, d);
            Overrun(d, datoms, schema, facts, k) <==> !Live(facts, img.e, AttrId(img, schema), img.v)
  {
    hide Round, Asks, Goes, FoundBy, Live, Reflexive, AttrId, Img;
    AskedIs(sigma, datoms, schema, facts, d, k);
    var b := Round(datoms, schema, facts, k);
    var u := Asks(d, schema, b).value;
    var e :| FoundBy(datoms, schema, facts, b, u.t, e);
    assert u.t in sigma && sigma[u.t] == e;
    if Hit(facts, u.a, u.v).Some? {
      OwnHitFound(datoms, schema, facts, b, d);
      HitLive(facts, u.a, u.v);
    } else if Reflexive(u.v) {
      MissDead(facts, u.a, u.v, e);
    }
  }

  lemma HitLive(facts: set<Fact>, a: I64, v: DataType)
    requires Hit(facts, a, v).Some?
    ensures Live(facts, Hit(facts, a, v).value, a, v)
  {
  }

  lemma MissDead(facts: set<Fact>, a: I64, v: DataType, e: I64)
    requires Hit(facts, a, v).None? && Reflexive(v)
    ensures !Live(facts, e, a, v)
  {
  }

  lemma OverrunDiscarded(d: TDatom, datoms: seq<TDatom>, schema: Schema, facts: set<Fact>, k: nat)
    requires Overrun(d, datoms, schema, facts, k)
    ensures DiscardedIn(d, datoms, schema, facts, k)
  {
    hide Round, Asks, Goes, FoundBy, Live, Reflexive;
  }

  lemma OwnHitFound(datoms: seq<TDatom>, schema: Schema, facts: set<Fact>, b: Bindings, d: TDatom)
    requires d in datoms && Asks(d, schema, b).Some? &&
             Hit(facts, Asks(d, schema, b).value.a, Asks(d, schema, b).value.v).Some?
    ensures var u := Asks(d, schema, b).value; FoundBy(datoms, schema, facts, b, u.t, Hit(facts, u.a, u.v).value)
  {
    hide Hit;
  }

  /** The image of an assertion is what its lookup asked about, for the entity its tempid ends at. */
  lemma AskedIs(sigma: TempMap, datoms: seq<TDatom>, schema: Schema, facts: set<Fact>, d: TDatom, k: nat)
    requires Agree(sigma, datoms, schema, facts, 0) && Asks(d, schema, Round(datoms, schema, facts, k)).Some?
    ensures var u, img := Asks(d, schema, Round(datoms, schema, facts, k)).value, Img(sigma, d);
            img.e == At(sigma, u.t) && AttrId(img, schema) == u.a && img.v == u.v
  {
    hide Round;
    AgreeExtends(sigma, datoms, schema, facts, k);
  }

  /**
   * The promise, exactly: a datom of a transaction is neither written nor stored if and only if its
   * lookup was overrun and no surviving datom says the same. The right side is told from the expanded
   * transaction, the schema and the store alone.
   */
  lemma LostIff(s: State, txId: nat, ops: seq<TxOp>, rets: seq<TDatom>, input: seq<TDatom>, d: TDatom)
    requires Resolves(s, txId, ops, rets, input) && d in input
    ensures Missing(d, ResolutionOf(s, txId, ops, rets, input), s.schema, s.facts) <==>
            Lost(d, input, s.schema, s.facts)
  {
    hide *;
    var res := ResolutionIs(s, txId, ops, rets, input);
    var sigma := res.sigma;
    WrittenIff(input, s.schema, s.facts, SetTx(s.pm, txId).value, Img(sigma, d));
    forall f | f in input && d in Discards(input, s.schema, s.facts)
      ensures Img(sigma, f) == Img(sigma, d) <==> SameOnceBound(d, f, input, s.schema, s.facts)
    {
      SameImageIff(s, txId, ops, rets, input, d, f);
    }
    LostBy(res, input, s.schema, s.facts, d);
  }

  lemma LostBy(res: Resolution, datoms: seq<TDatom>, schema: Schema, facts: set<Fact>, d: TDatom)
    requires Agree(res.sigma, datoms, schema, facts, 0) && d in datoms
    requires Img(res.sigma, d) in res.datoms <==>
             exists f :: f in datoms && f !in Discards(datoms, schema, facts) && Img(res.sigma, f) == Img(res.sigma, d)
    requires forall f :: f in datoms && d in Discards(datoms, schema, facts) ==>
               (Img(res.sigma, f) == Img(res.sigma, d) <==> SameOnceBound(d, f, datoms, schema, facts))
    ensures Missing(d, res, schema, facts) <==> Lost(d, datoms, schema, facts)
  {
    hide Agree, Img, Live, AttrId, DiscardedIn, Overrun, SameOnceBound;
    forall k: nat | Overrun(d, datoms, schema, facts, k) ensures DiscardedIn(d, datoms, schema, facts, k) {
      OverrunDiscarded(d, datoms, schema, facts, k);
    }
    forall k: nat | DiscardedIn(d, datoms, schema, facts, k)
      ensures var img := Img(res.sigma, d);
              Overrun(d, datoms, schema, facts, k) <==> !Live(facts, img.e, AttrId(img, schema), img.v)
    {
      OverrunIff(res.sigma, datoms, schema, facts, d, k);
    }
  }

  lemma ResolutionIs(s: State, txId: nat, ops: seq<TxOp>, rets: seq<TDatom>, input: seq<TDatom>)
    returns (res: Resolution)
    requires Resolves(s, txId, ops, rets, input)
    ensures Inverse(s.schema) && SetTx(s.pm, txId).Ok? && res == ResolutionOf(s, txId, ops, rets, input)
    ensures ResolveTempids(input, s.schema, s.facts, SetTx(s.pm, txId).value) == Ok(res)
    ensures Agree(res.sigma, input, s.schema, s.facts, 0)
  {
    hide Inv, SetTx, RetractsLive, ExpandTx, TargetsOf, ResolveTempids, Agree, Bound, AllStored, OnePerClass, Inverse;
    InvInverse(s);
    res := ResolutionOf(s, txId, ops, rets, input);
    var allocs, given := RoundsResolve(input, s.schema, s.facts, SetTx(s.pm, txId).value);
  }

  /** Without an identity assertion between two tempids there is one step, and plain conservation. */
  lemma SimpleUpsertsKeepAll(datoms: seq<TDatom>, schema: Schema, facts: set<Fact>, pm: Counters)
    requires Inverse(schema) && ResolveTempids(datoms, schema, facts, pm).Ok?
    requires forall d :: d in datoms && d.e.Temp? && d.v.TempRef? && d.op.Assert? && GetAttribute(schema, d.a).Some? ==>
               !IsIdentity(GetAttribute(schema, d.a).value.attr)
    ensures var res := ResolveTempids(datoms, schema, facts, pm).value;
            res.dropped == [] && multiset(res.datoms) == multiset(Imgs(res.sigma, datoms))
  {
    hide ResolveTempids, GetAttribute, IsIdentity, Inverse, EvolveAll, SplitAll;
    var st := ResolutionUnfolds(datoms, schema, facts, pm);
    NoComplex(datoms, schema, Split(EMPTY, []));
    var g := st.split.gen;
    if g.es != [] {
      var m, r', g', rest := RunUnfolds(g, map[], schema, facts);
      EvolveNothing(g', r', schema, facts);
    } else {
      EvolveNothing(g, map[], schema, facts);
    }
    ResolutionConserves(datoms, schema, facts, pm);
    assert Datoms([]) == [];
  }

  lemma EvolveNothing(g: Generation, r: TempMap, schema: Schema, facts: set<Fact>)
    requires g.es == []
    ensures EvolveAll(g, r, schema, facts) == Ok(Evolved(g, r, [], 0))
  {
  }

  lemma {:induction false} NoComplex(ds: seq<TDatom>, schema: Schema, s: Split)
    requires SplitAll(ds, schema, s).Ok? && s.gen.evs == []
    requires forall d :: d in ds && d.e.Temp? && d.v.TempRef? && d.op.Assert? && GetAttribute(schema, d.a).Some? ==>
               !IsIdentity(GetAttribute(schema, d.a).value.attr)
    ensures SplitAll(ds, schema, s).value.gen.evs == []
  {
    if ds != [] {
      var n := Classify(ds[0], schema, s).value;
      assert ds[0] in ds && n.gen.evs == [];
      forall d | d in ds[1..] ensures d in ds {}
      NoComplex(ds[1..], schema, n);
    }
  }
}
