/** The rounds of upsert resolution, told from the input of a transaction and the store alone. */
module Rounds {
  import opened Octets
  import opened Values
  import opened Facts
  import opened Model
  import opened Upsert
  import opened Evolution
  import opened Partition
  import opened Tempids

  // --- Rounds of lookups -----------------------------------------------------------------

  /** Which tempids are bound, before and after the latest round of lookups. */
  datatype Bindings = Bindings(first: bool, before: TempMap, now: TempMap)

  const START: Bindings := Bindings(true, map[], map[])

  /**
   * The lookup an identity assertion makes in the next round. Data is looked up in the first round;
   * a tempid in the round after it was bound, if the entity was not bound before that.
   */
  function Asks(d: TDatom, schema: Schema, b: Bindings): Option<UpsertE> {
    if !AssertsIdentity(d, schema) then None
    else
      var a := GetAttribute(schema, d.a).value.id;
      match d.v
      case Data(v) => if b.first then Some(UpsertE(d.e.t, a, v)) else None
      case TempRef(u) =>
        if u in b.now && u !in b.before && d.e.t !in b.before then Some(UpsertE(d.e.t, a, Long(b.now[u]))) else None
  }

  /** The entity that lookup finds. */
  ghost function Finds(d: TDatom, schema: Schema, facts: set<Fact>, b: Bindings): Option<I64> {
    var u := Asks(d, schema, b);
    if u.Some? then Hit(facts, u.value.a, u.value.v) else None
  }

  ghost predicate FoundBy(datoms: seq<TDatom>, schema: Schema, facts: set<Fact>, b: Bindings, t: TempId, e: I64) {
    exists d :: d in datoms && d.e == Temp(t) && Finds(d, schema, facts, b) == Some(e)
  }

  /** The tempids the next round binds. */
  ghost function Findings(datoms: seq<TDatom>, schema: Schema, facts: set<Fact>, b: Bindings): TempMap {
    map t | t in AllTempIds(datoms) && exists e :: FoundBy(datoms, schema, facts, b, t, e) ::
      (var e :| FoundBy(datoms, schema, facts, b, t, e); e)
  }

  /** The bindings after `k` rounds. */
  ghost function Round(datoms: seq<TDatom>, schema: Schema, facts: set<Fact>, k: nat): Bindings {
    if k == 0 then START
    else
      var b := Round(datoms, schema, facts, k - 1);
      Bindings(false, b.now, b.now + Findings(datoms, schema, facts, b))
  }

  /** Some assertion makes a lookup in round `k + 1`. */
  ghost predicate Goes(datoms: seq<TDatom>, schema: Schema, facts: set<Fact>, k: nat) {
    exists d :: d in datoms && Asks(d, schema, Round(datoms, schema, facts, k)).Some?
  }

  /**
   * The assertion is looked up in round `k + 1`, its tempid is found in that round, by this or another
   * lookup, and a further round follows.
   */
  ghost predicate DiscardedIn(d: TDatom, datoms: seq<TDatom>, schema: Schema, facts: set<Fact>, k: nat) {
    var b := Round(datoms, schema, facts, k);
    && Asks(d, schema, b).Some? && Goes(datoms, schema, facts, k + 1)
    && exists e :: FoundBy(datoms, schema, facts, b, Asks(d, schema, b).value.t, e)
  }

  ghost function Discards(datoms: seq<TDatom>, schema: Schema, facts: set<Fact>): set<TDatom> {
    set d | d in datoms && exists k: nat :: k < |datoms| && DiscardedIn(d, datoms, schema, facts, k)
  }

  ghost function Survivors(datoms: seq<TDatom>, schema: Schema, facts: set<Fact>): set<TDatom> {
    set d | d in datoms && d !in Discards(datoms, schema, facts)
  }

  /** The datoms of a sequence that are in a set, in order and as often. */
  ghost function Only(ds: seq<TDatom>, s: set<TDatom>): seq<TDatom> {
    if ds == [] then [] else (if ds[0] in s then [ds[0]] else []) + Only(ds[1..], s)
  }

  // --- The lookups of a generation -------------------------------------------------------

  function Listed<T>(x: Option<T>): seq<T> { if x.Some? then [x.value] else [] }

  function Lookups(ds: seq<TDatom>, schema: Schema, b: Bindings): seq<UpsertE> {
    if ds == [] then [] else Listed(Asks(ds[0], schema, b)) + Lookups(ds[1..], schema, b)
  }

  /** An identity assertion between two tempids of which none is bound. */
  function Undecided(d: TDatom, schema: Schema, r: TempMap): Option<UpsertEV> {
    if AssertsIdentity(d, schema) && d.v.TempRef? && d.e.t !in r && d.v.t !in r then
      Some(UpsertEV(d.e.t, GetAttribute(schema, d.a).value.id, d.v.t))
    else None
  }

  function Open(ds: seq<TDatom>, schema: Schema, r: TempMap): seq<UpsertEV> {
    if ds == [] then [] else Listed(Undecided(ds[0], schema, r)) + Open(ds[1..], schema, r)
  }

  lemma {:induction false} OpenBound(ds: seq<TDatom>, schema: Schema, r: TempMap)
    ensures |Open(ds, schema, r)| <= |ds|
  {
    if ds != [] { OpenBound(ds[1..], schema, r); }
  }

  lemma {:induction false} LookupsMember(ds: seq<TDatom>, schema: Schema, b: Bindings, u: UpsertE)
    ensures u in Lookups(ds, schema, b) <==> exists d :: d in ds && Asks(d, schema, b) == Some(u)
  {
    hide Asks;
    if ds != [] {
      LookupsMember(ds[1..], schema, b, u);
      assert ds == [ds[0]] + ds[1..];
      if u in Lookups(ds[1..], schema, b) {
        var d :| d in ds[1..] && Asks(d, schema, b) == Some(u);
        assert d in ds;
      }
      if Asks(ds[0], schema, b) == Some(u) { assert ds[0] in ds; }
    }
  }

  lemma ClassifyAsks(d: TDatom, schema: Schema, s: Split)
    requires Classify(d, schema, s).Ok?
    ensures var n := Classify(d, schema, s).value;
            && n.gen.es == s.gen.es + Listed(Asks(d, schema, START))
            && n.gen.evs == s.gen.evs + Listed(Undecided(d, schema, map[]))
  {
  }

  lemma {:induction false} SplitAsks(ds: seq<TDatom>, schema: Schema, s: Split)
    requires SplitAll(ds, schema, s).Ok?
    ensures var n := SplitAll(ds, schema, s).value;
            n.gen.es == s.gen.es + Lookups(ds, schema, START) && n.gen.evs == s.gen.evs + Open(ds, schema, map[])
  {
    hide Classify, Asks, Undecided, START;
    if ds != [] {
      ClassifyAsks(ds[0], schema, s);
      SplitAsks(ds[1..], schema, Classify(ds[0], schema, s).value);
    }
  }

  /** One open assertion in a step: it is promoted, put aside, or stays open. */
  lemma StepOpen(d: TDatom, m: TempMap, r: TempMap, r': TempMap, schema: Schema, next: Generation)
    requires Extends(r', r) && Extends(r', m) && Undecided(d, schema, r).Some?
    requires StepEV(Undecided(d, schema, r).value, m, r', schema, next).Ok?
    ensures var n := StepEV(Undecided(d, schema, r).value, m, r', schema, next).value;
            && n.es == next.es + Listed(Asks(d, schema, Bindings(false, r, r')))
            && n.evs == next.evs + Listed(Undecided(d, schema, r'))
  {
  }

  lemma StepDecided(d: TDatom, r: TempMap, r': TempMap, schema: Schema)
    requires Extends(r', r) && Undecided(d, schema, r).None?
    ensures Undecided(d, schema, r').None? && Asks(d, schema, Bindings(false, r, r')).None?
  {
  }

  lemma {:induction false} FoldOpen(ds: seq<TDatom>, m: TempMap, r: TempMap, r': TempMap, schema: Schema,
                                    next: Generation)
    requires Extends(r', r) && Extends(r', m) && FoldEV(Open(ds, schema, r), m, r', schema, next).Ok?
    ensures var n := FoldEV(Open(ds, schema, r), m, r', schema, next).value;
            && n.es == next.es + Lookups(ds, schema, Bindings(false, r, r'))
            && n.evs == next.evs + Open(ds, schema, r')
  {
    if ds == [] {
      FoldNone(m, r', schema, next);
    } else {
      hide *;
      var b := Bindings(false, r, r');
      ListsUnfold(ds, schema, b, r);
      ListsUnfold(ds, schema, b, r');
      var ev, rest := Undecided(ds[0], schema, r), Open(ds[1..], schema, r);
      ListedIs(ev, rest);
      if ev.Some? {
        FoldFirst(ev.value, rest, m, r', schema, next);
        StepOpen(ds[0], m, r, r', schema, next);
        var n := StepEV(ev.value, m, r', schema, next).value;
        FoldOpen(ds[1..], m, r, r', schema, n);
        Regroup(next.es, Listed(Asks(ds[0], schema, b)), Lookups(ds[1..], schema, b));
        Regroup(next.evs, Listed(Undecided(ds[0], schema, r')), Open(ds[1..], schema, r'));
      } else {
        StepDecided(ds[0], r, r', schema);
        FoldOpen(ds[1..], m, r, r', schema, next);
        ListedIs(Asks(ds[0], schema, b), Lookups(ds[1..], schema, b));
        ListedIs(Undecided(ds[0], schema, r'), Open(ds[1..], schema, r'));
      }
    }
  }

  lemma ListsUnfold(ds: seq<TDatom>, schema: Schema, b: Bindings, r: TempMap)
    requires ds != []
    ensures Lookups(ds, schema, b) == Listed(Asks(ds[0], schema, b)) + Lookups(ds[1..], schema, b)
    ensures Open(ds, schema, r) == Listed(Undecided(ds[0], schema, r)) + Open(ds[1..], schema, r)
  {
  }

  lemma ListedIs<T>(x: Option<T>, rest: seq<T>)
    ensures Listed(x) + rest == if x.Some? then [x.value] + rest else rest
  {
  }

  lemma Regroup<T>(a: seq<T>, b: seq<T>, c: seq<T>)
    ensures a + b + c == a + (b + c)
  {
  }

  lemma FoldNone(m: TempMap, r: TempMap, schema: Schema, next: Generation)
    ensures FoldEV([], m, r, schema, next) == Ok(next)
  {
  }

  lemma FoldFirst(u: UpsertEV, rest: seq<UpsertEV>, m: TempMap, r: TempMap, schema: Schema, next: Generation)
    requires FoldEV([u] + rest, m, r, schema, next).Ok?
    ensures StepEV(u, m, r, schema, next).Ok?
    ensures FoldEV([u] + rest, m, r, schema, next) == FoldEV(rest, m, r, schema, StepEV(u, m, r, schema, next).value)
  {
    assert ([u] + rest)[0] == u && ([u] + rest)[1..] == rest;
  }

  // --- A generation is a round -----------------------------------------------------------

  /** The generation after `k` steps holds the lookups of round `k + 1` and the open assertions. */
  ghost predicate AtRound(g: Generation, datoms: seq<TDatom>, schema: Schema, b: Bindings) {
    g.es == Lookups(datoms, schema, b) && g.evs == Open(datoms, schema, b.now)
  }

  lemma FoundMeans(datoms: seq<TDatom>, schema: Schema, facts: set<Fact>, b: Bindings, t: TempId, e: I64)
    ensures FoundBy(datoms, schema, facts, b, t, e) <==> Found(Lookups(datoms, schema, b), facts, t, e)
  {
    hide Hit, Lookups;
    var es := Lookups(datoms, schema, b);
    if FoundBy(datoms, schema, facts, b, t, e) {
      var d :| d in datoms && d.e == Temp(t) && Finds(d, schema, facts, b) == Some(e);
      var u := Asks(d, schema, b).value;
      LookupsMember(datoms, schema, b, u);
      assert u in es && u.t == t;
    }
    if Found(es, facts, t, e) {
      var u :| u in es && u.t == t && Hit(facts, u.a, u.v) == Some(e);
      LookupsMember(datoms, schema, b, u);
      var d :| d in datoms && Asks(d, schema, b) == Some(u);
      assert d.e == Temp(t);
    }
  }

  lemma FoundTempId(datoms: seq<TDatom>, schema: Schema, facts: set<Fact>, b: Bindings, t: TempId, e: I64)
    requires FoundBy(datoms, schema, facts, b, t, e)
    ensures t in AllTempIds(datoms)
  {
    hide Finds;
    var d :| d in datoms && d.e == Temp(t) && Finds(d, schema, facts, b) == Some(e);
    assert t in TempIdsOf(d);
  }

  /** What a round finds are the bindings of a step. */
  lemma FindingsAre(datoms: seq<TDatom>, schema: Schema, facts: set<Fact>, b: Bindings)
    requires Resolve(Lookups(datoms, schema, b), facts, map[]).Ok?
    ensures Findings(datoms, schema, facts, b) == Resolve(Lookups(datoms, schema, b), facts, map[]).value
  {
    hide FoundBy, Hit, Lookups, AllTempIds;
    var es := Lookups(datoms, schema, b);
    var m, f := Resolve(es, facts, map[]).value, Findings(datoms, schema, facts, b);
    ResolveMeans(es, facts, map[]);
    forall t, e ensures FoundBy(datoms, schema, facts, b, t, e) <==> Found(es, facts, t, e) {
      FoundMeans(datoms, schema, facts, b, t, e);
    }
    forall t | t in m ensures t in f {
      assert Found(es, facts, t, m[t]);
      FoundTempId(datoms, schema, facts, b, t, m[t]);
    }
    forall t | t in f ensures t in m && m[t] == f[t] {
      assert FoundBy(datoms, schema, facts, b, t, f[t]);
      assert Found(es, facts, t, f[t]);
      var u :| u in es && u.t == t && Hit(facts, u.a, u.v) == Some(f[t]);
    }
  }

  lemma NextRound(datoms: seq<TDatom>, schema: Schema, facts: set<Fact>, b: Bindings, g: Generation,
                  m: TempMap, r': TempMap, g': Generation)
    requires AtRound(g, datoms, schema, b) && Resolve(g.es, facts, map[]) == Ok(m) && Record(b.now, m) == Ok(r')
    requires EvolveOneStep(g, m, r', schema) == Ok(g')
    ensures Findings(datoms, schema, facts, b) == m && r' == b.now + m
    ensures AtRound(g', datoms, schema, Bindings(false, b.now, r'))
  {
    hide Findings, Resolve, Lookups, Open, FoldE, FoldEV, FoldAlloc, Clean;
    FindingsAre(datoms, schema, facts, b);
    RecordExtends(b.now, m);
    StepUnfolds(g, m, r', schema);
    var start := EMPTY.(resolved := g.resolved);
    var afterE := FoldE(g.es, m, r', schema, start).value;
    var afterEV := FoldEV(g.evs, m, r', schema, afterE).value;
    NothingWaits(start, r');
    CleanFoldE(g.es, m, r', schema, start);
    CleanFoldEV(g.evs, m, r', schema, afterE);
    assert r' + m == r';
    CleanFoldAlloc(g.allocs, r', afterEV);
    FoldOpen(datoms, m, b.now, r', schema, afterE);
  }

  lemma NothingWaits(g: Generation, r: TempMap)
    requires g.allocs == [] && g.evs == []
    ensures Clean(g, r)
  {
  }

  // --- When it ends ----------------------------------------------------------------------

  lemma {:induction false} Grown(datoms: seq<TDatom>, schema: Schema, facts: set<Fact>, j: nat, k: nat)
    requires j <= k
    ensures Round(datoms, schema, facts, j).now.Keys <= Round(datoms, schema, facts, k).now.Keys
    decreases k - j
  {
    hide Findings;
    if j < k { Grown(datoms, schema, facts, j, k - 1); }
  }

  /** An assertion is looked up in one round only. */
  lemma AsksOnce(d: TDatom, datoms: seq<TDatom>, schema: Schema, facts: set<Fact>, j: nat, k: nat)
    requires Asks(d, schema, Round(datoms, schema, facts, j)).Some? && j < k
    ensures Asks(d, schema, Round(datoms, schema, facts, k)).None?
  {
    hide Findings;
    Grown(datoms, schema, facts, j, k - 1);
  }

  lemma {:induction false} NoLookups(ds: seq<TDatom>, schema: Schema, b: Bindings)
    ensures Lookups(ds, schema, b) == [] <==> forall d :: d in ds ==> Asks(d, schema, b).None?
  {
    hide Asks;
    if ds != [] {
      NoLookups(ds[1..], schema, b);
      assert ds == [ds[0]] + ds[1..];
    }
  }

  /** A round without lookups binds nothing. */
  lemma QuietRound(datoms: seq<TDatom>, schema: Schema, facts: set<Fact>, k: nat)
    requires !Goes(datoms, schema, facts, k)
    ensures Round(datoms, schema, facts, k + 1).now == Round(datoms, schema, facts, k).now
    ensures !Goes(datoms, schema, facts, k + 1)
  {
    hide AllTempIds;
    var b := Round(datoms, schema, facts, k);
    forall t, e ensures !FoundBy(datoms, schema, facts, b, t, e) {}
    assert Findings(datoms, schema, facts, b) == map[];
  }

  lemma {:induction false} StaysQuiet(datoms: seq<TDatom>, schema: Schema, facts: set<Fact>, k: nat, j: nat)
    requires !Goes(datoms, schema, facts, k) && k <= j
    ensures !Goes(datoms, schema, facts, j) &&
            Round(datoms, schema, facts, j).now == Round(datoms, schema, facts, k).now
    decreases j
  {
    hide Goes, Round;
    if k < j {
      StaysQuiet(datoms, schema, facts, k, j - 1);
      QuietRound(datoms, schema, facts, j - 1);
    }
  }

  // --- Which datoms are discarded --------------------------------------------------------

  ghost function DiscardsIn(datoms: seq<TDatom>, schema: Schema, facts: set<Fact>, k: nat): set<TDatom> {
    set d | d in datoms && DiscardedIn(d, datoms, schema, facts, k)
  }

  ghost predicate DiscardedSince(d: TDatom, datoms: seq<TDatom>, schema: Schema, facts: set<Fact>, k: nat) {
    exists j: nat :: k <= j && DiscardedIn(d, datoms, schema, facts, j)
  }

  ghost function DiscardsSince(datoms: seq<TDatom>, schema: Schema, facts: set<Fact>, k: nat): set<TDatom> {
    set d | d in datoms && DiscardedSince(d, datoms, schema, facts, k)
  }

  lemma SinceSplits(datoms: seq<TDatom>, schema: Schema, facts: set<Fact>, k: nat)
    ensures DiscardsSince(datoms, schema, facts, k) ==
            DiscardsIn(datoms, schema, facts, k) + DiscardsSince(datoms, schema, facts, k + 1)
    ensures DiscardsIn(datoms, schema, facts, k) !! DiscardsSince(datoms, schema, facts, k + 1)
  {
    hide DiscardedIn;
    forall d | d in datoms
      ensures DiscardedSince(d, datoms, schema, facts, k) <==>
              DiscardedIn(d, datoms, schema, facts, k) || DiscardedSince(d, datoms, schema, facts, k + 1)
    {
      if DiscardedSince(d, datoms, schema, facts, k) && !DiscardedIn(d, datoms, schema, facts, k) {
        var j: nat :| k <= j && DiscardedIn(d, datoms, schema, facts, j);
        assert k + 1 <= j;
      }
    }
    forall d | d in datoms && DiscardedIn(d, datoms, schema, facts, k)
      ensures !DiscardedSince(d, datoms, schema, facts, k + 1)
    {
      forall j: nat | k + 1 <= j ensures !DiscardedIn(d, datoms, schema, facts, j) {
        OneRound(d, datoms, schema, facts, k, j);
      }
    }
  }

  lemma OneRound(d: TDatom, datoms: seq<TDatom>, schema: Schema, facts: set<Fact>, j: nat, k: nat)
    requires DiscardedIn(d, datoms, schema, facts, j) && j < k
    ensures !DiscardedIn(d, datoms, schema, facts, k)
  {
    hide Asks, Round, Goes, FoundBy;
    AsksOnce(d, datoms, schema, facts, j, k);
  }

  lemma {:induction false} OnlyUnion(sigma: TempMap, ds: seq<TDatom>, a: set<TDatom>, b: set<TDatom>)
    requires a !! b
    ensures multiset(Imgs(sigma, Only(ds, a + b))) ==
            multiset(Imgs(sigma, Only(ds, a))) + multiset(Imgs(sigma, Only(ds, b)))
  {
    if ds != [] {
      OnlyUnion(sigma, ds[1..], a, b);
      OnlyHead(sigma, ds, a);
      OnlyHead(sigma, ds, b);
      OnlyHead(sigma, ds, a + b);
    }
  }

  lemma OnlyHead(sigma: TempMap, ds: seq<TDatom>, s: set<TDatom>)
    requires ds != []
    ensures multiset(Imgs(sigma, Only(ds, s))) ==
            (if ds[0] in s then multiset{Img(sigma, ds[0])} else multiset{}) + multiset(Imgs(sigma, Only(ds[1..], s)))
  {
    var rest := Only(ds[1..], s);
    if ds[0] in s {
      ImgsHead(sigma, [ds[0]] + rest);
      assert ([ds[0]] + rest)[1..] == rest;
    } else {
      assert [] + rest == rest;
    }
  }

  lemma {:induction false} OnlyAll(ds: seq<TDatom>, s: set<TDatom>)
    requires forall d :: d in ds ==> d in s
    ensures Only(ds, s) == ds
  {
    if ds != [] {
      assert ds[0] in ds;
      OnlyAll(ds[1..], s);
      assert [ds[0]] + ds[1..] == ds;
    }
  }

  lemma {:induction false} OnlyNone(ds: seq<TDatom>, s: set<TDatom>)
    requires forall d :: d in ds ==> d !in s
    ensures Only(ds, s) == []
  {
    if ds != [] {
      assert ds[0] in ds;
      OnlyNone(ds[1..], s);
    }
  }

  /** The datom a discarded assertion has become is its image. */
  lemma AskedImage(sigma: TempMap, d: TDatom, schema: Schema, b: Bindings, m: TempMap)
    requires Inverse(schema) && Extends(sigma, m) && Extends(sigma, b.now)
    requires Asks(d, schema, b).Some? && Asks(d, schema, b).value.t in m
    ensures var u := Asks(d, schema, b).value; Datom(m[u.t], AttrName(schema, u.a), u.v, Assert) == Img(sigma, d)
  {
  }

  /** The tempid of an assertion is found in the round of its lookup. */
  predicate Upserts(d: TDatom, schema: Schema, b: Bindings, m: TempMap) {
    Asks(d, schema, b).Some? && Asks(d, schema, b).value.t in m
  }

  lemma UpsertsHead(u: UpsertE, es: seq<UpsertE>, m: TempMap, schema: Schema)
    ensures Datoms(UpsertsOf([u] + es, m, schema)) ==
            (if u.t in m then [Datom(m[u.t], AttrName(schema, u.a), u.v, Assert)] else []) +
              Datoms(UpsertsOf(es, m, schema))
  {
    assert ([u] + es)[0] == u && ([u] + es)[1..] == es;
  }

  lemma {:induction false} RoundImages(sigma: TempMap, ds: seq<TDatom>, schema: Schema, b: Bindings, m: TempMap,
                                       s: set<TDatom>)
    requires Inverse(schema) && Extends(sigma, m) && Extends(sigma, b.now)
    requires forall d :: d in ds ==> (d in s <==> Upserts(d, schema, b, m))
    ensures Datoms(UpsertsOf(Lookups(ds, schema, b), m, schema)) == Imgs(sigma, Only(ds, s))
  {
    if ds == [] {
      NoUpserts(m, schema);
      assert Imgs(sigma, []) == [];
    } else {
      hide Asks, Inverse, Extends, UpsertsOf, Lookups, Only, Datoms, Imgs, Img, AttrName, Listed;
      assert ds[0] in ds;
      forall d | d in ds[1..] ensures d in ds {}
      RoundImages(sigma, ds[1..], schema, b, m, s);
      ListsUnfold(ds, schema, b, m);
      OnlyUnfolds(sigma, ds, s);
      var u, es := Asks(ds[0], schema, b), Lookups(ds[1..], schema, b);
      ListedIs(u, es);
      if u.Some? { UpsertsHead(u.value, es, m, schema); }
      if ds[0] in s { AskedImage(sigma, ds[0], schema, b, m); }
    }
  }

  lemma OnlyUnfolds(sigma: TempMap, ds: seq<TDatom>, s: set<TDatom>)
    requires ds != []
    ensures Imgs(sigma, Only(ds, s)) == (if ds[0] in s then [Img(sigma, ds[0])] else []) + Imgs(sigma, Only(ds[1..], s))
  {
    var kept := Only(ds[1..], s);
    assert Imgs(sigma, [ds[0]] + kept) == [Img(sigma, ds[0])] + Imgs(sigma, kept);
    assert [] + kept == kept;
  }

  lemma NoUpserts(m: TempMap, schema: Schema)
    ensures Datoms(UpsertsOf([], m, schema)) == []
  {
  }

  /** The upserts a round drops, if there is a further one, are its discarded assertions. */
  lemma RoundDiscards(sigma: TempMap, datoms: seq<TDatom>, schema: Schema, facts: set<Fact>, k: nat, m: TempMap)
    requires Inverse(schema) && Extends(sigma, m) &&
             m == Findings(datoms, schema, facts, Round(datoms, schema, facts, k))
    requires Extends(sigma, Round(datoms, schema, facts, k).now)
    ensures var us := UpsertsOf(Lookups(datoms, schema, Round(datoms, schema, facts, k)), m, schema);
            Datoms(if Goes(datoms, schema, facts, k + 1) then us else []) ==
            Imgs(sigma, Only(datoms, DiscardsIn(datoms, schema, facts, k)))
  {
    hide Inverse, Extends, Asks, Round, Lookups, UpsertsOf, FoundBy, Goes, AllTempIds;
    var s, b := DiscardsIn(datoms, schema, facts, k), Round(datoms, schema, facts, k);
    if Goes(datoms, schema, facts, k + 1) {
      forall d | d in datoms ensures d in s <==> Upserts(d, schema, b, m) {
        if Asks(d, schema, b).Some? { FindingKeys(datoms, schema, facts, b, Asks(d, schema, b).value.t); }
      }
      RoundImages(sigma, datoms, schema, b, m, s);
    } else {
      OnlyNone(datoms, s);
      assert Datoms([]) == [] && Imgs(sigma, []) == [];
    }
  }

  lemma FindingKeys(datoms: seq<TDatom>, schema: Schema, facts: set<Fact>, b: Bindings, t: TempId)
    ensures t in Findings(datoms, schema, facts, b) <==> exists e :: FoundBy(datoms, schema, facts, b, t, e)
  {
    hide AllTempIds, FoundBy;
    if e :| FoundBy(datoms, schema, facts, b, t, e) { FoundTempId(datoms, schema, facts, b, t, e); }
  }

  // --- Whole runs ------------------------------------------------------------------------

  lemma GoesIff(datoms: seq<TDatom>, schema: Schema, facts: set<Fact>, k: nat)
    ensures Goes(datoms, schema, facts, k) <==> Lookups(datoms, schema, Round(datoms, schema, facts, k)) != []
  {
    hide Round, Lookups, Asks;
    NoLookups(datoms, schema, Round(datoms, schema, facts, k));
  }

  /** After the last round nothing more is discarded. */
  lemma NothingSince(sigma: TempMap, datoms: seq<TDatom>, schema: Schema, facts: set<Fact>, k: nat)
    requires !Goes(datoms, schema, facts, k)
    ensures Imgs(sigma, Only(datoms, DiscardsSince(datoms, schema, facts, k))) == []
  {
    hide Goes, Round, Asks, FoundBy, Only;
    forall d, j: nat | k <= j
      ensures !DiscardedIn(d, datoms, schema, facts, j)
    {
      StaysQuiet(datoms, schema, facts, k, j + 1);
    }
    OnlyNone(datoms, DiscardsSince(datoms, schema, facts, k));
  }

  /** One more round in front of a run. */
  lemma OneMoreRound(sigma: TempMap, datoms: seq<TDatom>, schema: Schema, facts: set<Fact>, k: nat, m: TempMap,
                     later: seq<Upserted>)
    requires Inverse(schema) && Extends(sigma, m) &&
             m == Findings(datoms, schema, facts, Round(datoms, schema, facts, k))
    requires Extends(sigma, Round(datoms, schema, facts, k).now)
    requires multiset(Datoms(later)) == multiset(Imgs(sigma, Only(datoms, DiscardsSince(datoms, schema, facts, k + 1))))
    ensures var us := UpsertsOf(Lookups(datoms, schema, Round(datoms, schema, facts, k)), m, schema);
            multiset(Datoms((if Goes(datoms, schema, facts, k + 1) then us else []) + later)) ==
            multiset(Imgs(sigma, Only(datoms, DiscardsSince(datoms, schema, facts, k))))
  {
    hide *;
    RoundDiscards(sigma, datoms, schema, facts, k, m);
    SinceSplits(datoms, schema, facts, k);
    OnlyUnion(sigma, datoms, DiscardsIn(datoms, schema, facts, k), DiscardsSince(datoms, schema, facts, k + 1));
    var us := UpsertsOf(Lookups(datoms, schema, Round(datoms, schema, facts, k)), m, schema);
    BothDatoms(if Goes(datoms, schema, facts, k + 1) then us else [], later);
  }

  lemma BothDatoms(a: seq<Upserted>, b: seq<Upserted>)
    ensures multiset(Datoms(a + b)) == multiset(Datoms(a)) + multiset(Datoms(b))
  {
    assert Datoms(a + b) == Datoms(a) + Datoms(b);
  }

  lemma RoundUnfolds(datoms: seq<TDatom>, schema: Schema, facts: set<Fact>, k: nat)
    ensures var b := Round(datoms, schema, facts, k);
            Round(datoms, schema, facts, k + 1) == Bindings(false, b.now, b.now + Findings(datoms, schema, facts, b))
  {
  }

  /** Whatever a lookup finds, from round `k + 1` on, is the entity its tempid ends at. */
  ghost predicate Agree(sigma: TempMap, datoms: seq<TDatom>, schema: Schema, facts: set<Fact>, k: nat) {
    forall j: nat, t, e :: k <= j && FoundBy(datoms, schema, facts, Round(datoms, schema, facts, j), t, e) ==>
      t in sigma && sigma[t] == e
  }

  lemma QuietAgrees(sigma: TempMap, datoms: seq<TDatom>, schema: Schema, facts: set<Fact>, k: nat)
    requires !Goes(datoms, schema, facts, k)
    ensures Agree(sigma, datoms, schema, facts, k)
  {
    hide Round, Asks;
    forall j: nat, t, e | k <= j ensures !FoundBy(datoms, schema, facts, Round(datoms, schema, facts, j), t, e) {
      StaysQuiet(datoms, schema, facts, k, j);
    }
  }

  lemma RoundAgrees(sigma: TempMap, datoms: seq<TDatom>, schema: Schema, facts: set<Fact>, k: nat, m: TempMap)
    requires Resolve(Lookups(datoms, schema, Round(datoms, schema, facts, k)), facts, map[]) == Ok(m) &&
             Extends(sigma, m)
    requires Agree(sigma, datoms, schema, facts, k + 1)
    ensures Agree(sigma, datoms, schema, facts, k)
  {
    hide Round, Lookups, Resolve, Hit, FoundBy;
    var b := Round(datoms, schema, facts, k);
    ResolveMeans(Lookups(datoms, schema, b), facts, map[]);
    forall t, e | FoundBy(datoms, schema, facts, b, t, e) ensures t in sigma && sigma[t] == e {
      FoundMeans(datoms, schema, facts, b, t, e);
    }
  }

  lemma {:induction false} AgreeExtends(sigma: TempMap, datoms: seq<TDatom>, schema: Schema, facts: set<Fact>, k: nat)
    requires Agree(sigma, datoms, schema, facts, 0)
    ensures Extends(sigma, Round(datoms, schema, facts, k).now)
  {
    hide FoundBy, AllTempIds;
    if k > 0 {
      AgreeExtends(sigma, datoms, schema, facts, k - 1);
      var b := Round(datoms, schema, facts, k - 1);
      var f := Findings(datoms, schema, facts, b);
      forall t | t in f ensures t in sigma && sigma[t] == f[t] { assert FoundBy(datoms, schema, facts, b, t, f[t]); }
    }
  }

  /** What a run from round `k` on drops, where it ends and what it has bound by then. */
  lemma {:induction false} RunDiscards(sigma: TempMap, datoms: seq<TDatom>, schema: Schema, facts: set<Fact>, k: nat,
                                       g: Generation)
    requires Inverse(schema) && AtRound(g, datoms, schema, Round(datoms, schema, facts, k))
    requires EvolveAll(g, Round(datoms, schema, facts, k).now, schema, facts).Ok?
    requires Extends(sigma, EvolveAll(g, Round(datoms, schema, facts, k).now, schema, facts).value.bound)
    ensures var out := EvolveAll(g, Round(datoms, schema, facts, k).now, schema, facts).value;
            && multiset(Datoms(out.dropped)) ==
               multiset(Imgs(sigma, Only(datoms, DiscardsSince(datoms, schema, facts, k))))
            && !Goes(datoms, schema, facts, k + out.steps) &&
               out.bound == Round(datoms, schema, facts, k + out.steps).now
            && Extends(out.bound, Round(datoms, schema, facts, k).now) && Agree(sigma, datoms, schema, facts, k)
    decreases 2 * |g.evs| + |g.es|
  {
    hide *;
    var b := Round(datoms, schema, facts, k);
    var r := b.now;
    GoesIff(datoms, schema, facts, k);
    AtRoundIs(g, datoms, schema, b);
    if g.es == [] {
      RunEnds(g, r, schema, facts);
      NothingSince(sigma, datoms, schema, facts, k);
      QuietAgrees(sigma, datoms, schema, facts, k);
    } else {
      var m, r', g', rest := RunUnfolds(g, r, schema, facts);
      NextRound(datoms, schema, facts, b, g, m, r', g');
      RoundUnfolds(datoms, schema, facts, k);
      RunDiscards(sigma, datoms, schema, facts, k + 1, g');
      ExtendsTransitive(sigma, rest.bound, r');
      ExtendsTransitive(sigma, r', m);
      ExtendsTransitive(sigma, r', r);
      ExtendsTransitive(rest.bound, r', r);
      OneMoreRound(sigma, datoms, schema, facts, k, m, rest.dropped);
      RoundAgrees(sigma, datoms, schema, facts, k, m);
      GoesIff(datoms, schema, facts, k + 1);
      AtRoundIs(g', datoms, schema, Round(datoms, schema, facts, k + 1));
    }
  }

  lemma RunEnds(g: Generation, r: TempMap, schema: Schema, facts: set<Fact>)
    requires g.es == []
    ensures EvolveAll(g, r, schema, facts) == Ok(Evolved(g, r, [], 0)) && Datoms([]) == [] && Extends(r, r)
  {
  }

  lemma AtRoundIs(g: Generation, datoms: seq<TDatom>, schema: Schema, b: Bindings)
    requires AtRound(g, datoms, schema, b)
    ensures g.es == Lookups(datoms, schema, b) && g.evs == Open(datoms, schema, b.now)
  {
  }

  /** All rounds take place within the number of datoms. */
  lemma DiscardsAll(datoms: seq<TDatom>, schema: Schema, facts: set<Fact>, n: nat)
    requires !Goes(datoms, schema, facts, n) && n <= |datoms| + 1
    ensures DiscardsSince(datoms, schema, facts, 0) == Discards(datoms, schema, facts)
  {
    hide Goes, Round, Asks, FoundBy;
    forall d, j: nat | DiscardedIn(d, datoms, schema, facts, j) ensures j < |datoms| {
      if j >= |datoms| { StaysQuiet(datoms, schema, facts, n, j + 1); }
    }
  }

  /** The tempids bound when resolution ends. */
  ghost function Bound(datoms: seq<TDatom>, schema: Schema, facts: set<Fact>): TempMap {
    Round(datoms, schema, facts, |datoms| + 1).now
  }

  /** The stages of a resolution, in terms of the input: what is discarded, what is bound, and to what. */
  lemma RoundsResolve(datoms: seq<TDatom>, schema: Schema, facts: set<Fact>, pm: Counters)
    returns (allocs: seq<TDatom>, given: TempMap)
    requires Inverse(schema) && ResolveTempids(datoms, schema, facts, pm).Ok?
    ensures var res, bound := ResolveTempids(datoms, schema, facts, pm).value, Bound(datoms, schema, facts);
            && multiset(Datoms(res.dropped)) == multiset(Imgs(res.sigma, Only(datoms, Discards(datoms, schema, facts))))
            && Agree(res.sigma, datoms, schema, facts, 0)
            && res.sigma == bound + given && bound.Keys !! given.Keys && AllStored(facts, bound)
            && OnePerClass(datoms, EntityTempIds(allocs), IdentityEdges(allocs, schema), given, pm, res.pm)
  {
    hide *;
    var st := ResolutionUnfolds(datoms, schema, facts, pm);
    allocs, given := st.allocs, st.given;
    StagesShape(datoms, schema, facts, st);
    StartsAtRound(datoms, schema, facts, st.split);
    RunDiscards(st.ev.bound + st.given, datoms, schema, facts, 0, st.split.gen);
    StepBound(st.split.gen, map[], schema, facts);
    OpenBound(datoms, schema, map[]);
    var n := st.ev.steps;
    StaysQuiet(datoms, schema, facts, n, |datoms| + 1);
    DiscardsAll(datoms, schema, facts, n);
    BoundIs(datoms, schema, facts);
    NoneStored(facts);
    RunStored(st.split.gen, map[], schema, facts);
    LabelsUnfold(allocs, schema);
    AssignClasses(datoms, EntityTempIds(allocs), IdentityEdges(allocs, schema), pm);
  }

  lemma BoundIs(datoms: seq<TDatom>, schema: Schema, facts: set<Fact>)
    ensures Bound(datoms, schema, facts) == Round(datoms, schema, facts, |datoms| + 1).now
  {
  }

  lemma StartsAtRound(datoms: seq<TDatom>, schema: Schema, facts: set<Fact>, split: Split)
    requires SplitAll(datoms, schema, Split(EMPTY, [])) == Ok(split)
    ensures Round(datoms, schema, facts, 0).now == map[] && split.gen.evs == Open(datoms, schema, map[])
    ensures AtRound(split.gen, datoms, schema, Round(datoms, schema, facts, 0))
  {
    hide SplitAll, Lookups, Open;
    SplitAsks(datoms, schema, Split(EMPTY, []));
    assert [] + Lookups(datoms, schema, START) == Lookups(datoms, schema, START);
    assert [] + Open(datoms, schema, map[]) == Open(datoms, schema, map[]);
  }

  /**
   * What resolution writes, from its input: the images of exactly the datoms that no round discards,
   * each as often as it was given.
   */
  lemma SurvivorsWritten(datoms: seq<TDatom>, schema: Schema, facts: set<Fact>, pm: Counters)
    requires Inverse(schema) && ResolveTempids(datoms, schema, facts, pm).Ok?
    ensures var res := ResolveTempids(datoms, schema, facts, pm).value;
            && multiset(res.datoms) == multiset(Imgs(res.sigma, Only(datoms, Survivors(datoms, schema, facts))))
            && multiset(Datoms(res.dropped)) == multiset(Imgs(res.sigma, Only(datoms, Discards(datoms, schema, facts))))
  {
    hide *;
    var allocs, given := RoundsResolve(datoms, schema, facts, pm);
    ResolutionConserves(datoms, schema, facts, pm);
    var res := ResolveTempids(datoms, schema, facts, pm).value;
    var gone, kept := Discards(datoms, schema, facts), Survivors(datoms, schema, facts);
    Divided(datoms, schema, facts);
    OnlyUnion(res.sigma, datoms, gone, kept);
    OnlyAll(datoms, gone + kept);
    Cancel(multiset(res.datoms), multiset(Datoms(res.dropped)), multiset(Imgs(res.sigma, Only(datoms, kept))));
  }

  lemma Cancel<T>(a: multiset<T>, b: multiset<T>, c: multiset<T>)
    requires a + b == b + c
    ensures a == c
  {
    forall x ensures a[x] == c[x] { assert (a + b)[x] == (b + c)[x]; }
  }

  lemma Divided(datoms: seq<TDatom>, schema: Schema, facts: set<Fact>)
    ensures var gone, kept := Discards(datoms, schema, facts), Survivors(datoms, schema, facts);
            gone !! kept && forall d :: d in datoms ==> d in gone + kept
  {
    hide DiscardedIn;
  }
}
