/** A run of a fresh database in which a committed transaction loses one of its assertions. */
module LostUpsert {
  import opened Octets
  import opened Values
  import opened Facts
  import opened Model
  import opened Partition
  import opened SchemaRules
  import opened Expand
  import opened Upsert
  import opened Evolution
  import opened Tempids
  import opened Rounds
  import opened UpsertLoss
  import opened Transact
  import opened Invariant
  import opened Sources
  import opened Preserve
  import opened Runs
  import opened Bootstrap
  import opened Theorems
  import opened Asserting
  import opened Installing
  import opened FreshRuns

  // --- Lost means lost -------------------------------------------------------------------

  /** What a committed transaction has lost is not live afterwards. */
  lemma LostForGood(s: State, s': State, key: TxKey, ops: seq<TxOp>, rets: seq<TDatom>, error: Octets,
                    input: seq<TDatom>, d: TDatom)
    requires key.txId >= 0 && Resolves(s, key.txId, ops, rets, input) && Step(s, s', key, ops, rets, error, Committed)
    requires d in input && Lost(d, input, s.schema, s.facts)
    ensures var img := Img(ResolutionOf(s, key.txId, ops, rets, input).sigma, d);
            !Live(s'.facts, img.e, AttrId(img, s.schema), img.v)
  {
    hide *;
    LostIff(s, key.txId, ops, rets, input, d);
    var res, b, g := CommittedAs(s, s', key, ops, rets, error, input);
    var img := Img(res.sigma, d);
    var a := LostDatom(s, key.txId, ops, rets, input, d);
    MissingMeans(d, res, s.schema, s.facts);
    CommitCounters(s, key, ops, rets, b, g);
    LiveNow(s, b.datoms, g.tx, img.e, a, img.v);
    if Has(b.datoms, s.schema, img.e, a, img.v, Assert) {
      var x := WroteIt(s, key, ops, rets, b, g, img.e, a, img.v);
      InvInverse(s);
      SameName(s.schema, x, img);
      TxEntityOnly(s, key, ops, rets, b, g, x);
    }
  }

  lemma MissingMeans(d: TDatom, res: Resolution, schema: Schema, facts: set<Fact>)
    requires Missing(d, res, schema, facts)
    ensures var img := Img(res.sigma, d); img !in res.datoms && !Live(facts, img.e, AttrId(img, schema), img.v)
  {
  }

  lemma CommittedAs(s: State, s': State, key: TxKey, ops: seq<TxOp>, rets: seq<TDatom>, error: Octets,
                    input: seq<TDatom>)
    returns (res: Resolution, b: Batch, g: Stage)
    requires key.txId >= 0 && Resolves(s, key.txId, ops, rets, input) && Step(s, s', key, ops, rets, error, Committed)
    ensures res == ResolutionOf(s, key.txId, ops, rets, input) && g.res == res && Inv(s) &&
            Staged(s, key, ops, rets, b, g)
    ensures s'.facts == s.facts + FactsOf(b.datoms, s.schema, g.tx)
  {
    hide Inv, Prepare, ExpandTx, ResolveTempids, SetTx, RetractsLive, TargetsOf, Validates, Finalize, UniqueOk,
         ChangesSchema, Preparable, Prepared, Applied, TxDatoms, FactsOf;
    res := ResolutionOf(s, key.txId, ops, rets, input);
    b := Prepare(s, key, ops, rets).value;
    g := CommitStages(s, key, ops, rets);
  }

  /** A lost assertion is about an allocated entity and an attribute of the schema. */
  lemma LostDatom(s: State, txId: nat, ops: seq<TxOp>, rets: seq<TDatom>, input: seq<TDatom>, d: TDatom)
    returns (a: I64)
    requires Resolves(s, txId, ops, rets, input) && d in input && Lost(d, input, s.schema, s.facts)
    ensures var img := Img(ResolutionOf(s, txId, ops, rets, input).sigma, d);
            && a == AttrId(img, s.schema) && GetAttribute(s.schema, img.a).Some? && img.op.Assert? &&
               Contains(s.pm, img.e)
  {
    hide Resolves, ResolutionOf, Round, Goes, FoundBy, Contains, Bound, Discards, GetAttribute, SameOnceBound;
    assert SameOnceBound(d, d, input, s.schema, s.facts) by { SameAsItself(d, input, s.schema, s.facts); }
    DiscardedBound(d, input, s.schema, s.facts);
    EndsOf(s, txId, ops, rets, input, d);
    assert d.e.t in TempIdsOf(d);
    a := AttrId(Img(ResolutionOf(s, txId, ops, rets, input).sigma, d), s.schema);
  }

  lemma SameAsItself(d: TDatom, datoms: seq<TDatom>, schema: Schema, facts: set<Fact>)
    ensures SameOnceBound(d, d, datoms, schema, facts)
  {
  }

  /** An assertion that is written comes from the resolved datoms or describes the transaction. */
  lemma WroteIt(s: State, key: TxKey, ops: seq<TxOp>, rets: seq<TDatom>, b: Batch, g: Stage, e: I64, a: I64,
                v: DataType)
    returns (x: Datom)
    requires Staged(s, key, ops, rets, b, g) && Has(b.datoms, s.schema, e, a, v, Assert)
    ensures x == Datom(e, x.a, v, Assert) && AttrId(x, s.schema) == a && GetAttribute(s.schema, x.a).Some?
    ensures x in g.res.datoms || x in TxDatoms(g.tx, key, None)
  {
    hide ExpandTx, ResolveTempids, SetTx, Validates, Finalize, UniqueOk, ChangesSchema, Preparable, Prepared, Applied,
         TxDatoms, AttrId, GetAttribute, NoChange, Replaced, Matches;
    x :| x in b.datoms && AttrId(x, s.schema) == a && x.e == e && x.v == v && x.op == Assert;
    AssertKept(s, g.ds, x);
    KnownAttribute(s, g.ds, x);
  }

  lemma TxEntityOnly(s: State, key: TxKey, ops: seq<TxOp>, rets: seq<TDatom>, b: Batch, g: Stage, x: Datom)
    requires Inv(s) && Staged(s, key, ops, rets, b, g) && Contains(s.pm, x.e)
    ensures x !in TxDatoms(g.tx, key, None)
  {
    hide Inv, Staged, Contains, CounterOf, Grows, CountersOk, Before;
    CommitCounters(s, key, ops, rets, b, g);
  }

  // --- The people ------------------------------------------------------------------------

  const EMAIL: Keyword := Ns("person", "email")
  const SSN: Keyword := Ns("person", "ssn")
  const BOSS: Keyword := Ns("person", "boss")

  const EMAIL_ATTR: Definition := Definition(500, EMAIL, VtString, false, Some(UniqueIdentity))
  const SSN_ATTR: Definition := Definition(501, SSN, VtString, false, Some(UniqueIdentity))
  const BOSS_ATTR: Definition := Definition(502, BOSS, VtRef, false, Some(UniqueIdentity))

  const ANN: I64 := 600
  const BOB: I64 := 601
  const MAIL: DataType := String([97])
  const NUMBER: DataType := String([98])

  /** Ann is known by email and is somebody's boss; she has no number yet. */
  ghost predicate Known(s: State) {
    && Inv(s) && Contains(s.pm, ANN) && Contains(s.pm, BOB)
    && GetAttribute(s.schema, EMAIL) == Some(AttrEntry(500, DefinedAs(EMAIL_ATTR)))
    && GetAttribute(s.schema, SSN) == Some(AttrEntry(501, DefinedAs(SSN_ATTR)))
    && GetAttribute(s.schema, BOSS) == Some(AttrEntry(502, DefinedAs(BOSS_ATTR)))
    && OnlyLive(s.facts, 500, {(ANN, MAIL)}) && OnlyLive(s.facts, 501, {}) && OnlyLive(s.facts, 502, {(BOB, Long(ANN))})
  }

  // --- Setting up ------------------------------------------------------------------------

  lemma NamesApart()
    ensures EMAIL != SSN && EMAIL != BOSS && SSN != BOSS && |EMAIL.ns| == 6 && |SSN.ns| == 6 && |BOSS.ns| == 6
  {
    assert |EMAIL.name| == 5 && |SSN.name| == 3 && |BOSS.name| == 4;
  }

  /** The three attributes are installed. */
  lemma Attributes() returns (states: seq<State>, events: seq<Event>)
    ensures FreshRun(states, events) && states != [] && Last(states).latest.txId == 3
    ensures ReadyFor(Last(states), EMAIL_ATTR, true) && ReadyFor(Last(states), SSN_ATTR, true) &&
            ReadyFor(Last(states), BOSS_ATTR, true)
  {
    hide FreshRun, Inv, BOOT, Free, Installed, ReadyFor, EMAIL, SSN, BOSS;
    StartRun();
    NamesApart();
    BootReady(EMAIL_ATTR);
    BootReady(SSN_ATTR);
    BootReady(BOSS_ATTR);
    var states1, events1 := ReadyNext([BOOT], [], EMAIL_ATTR, 1, SSN_ATTR, false, BOSS_ATTR, false);
    var states2, events2 := ReadyNext(states1, events1, SSN_ATTR, 2, EMAIL_ATTR, true, BOSS_ATTR, false);
    states, events := ReadyNext(states2, events2, BOSS_ATTR, 3, EMAIL_ATTR, true, SSN_ATTR, true);
  }

  lemma ReadyNext(states: seq<State>, events: seq<Event>, n: Definition, txId: nat, m: Definition, a: bool,
                  o: Definition, b: bool)
    returns (more: seq<State>, all: seq<Event>)
    requires FreshRun(states, events) && states != [] && Last(states).latest.txId < txId < COUNTER_SPAN
    requires ReadyFor(Last(states), n, false) && ReadyFor(Last(states), m, a) && ReadyFor(Last(states), o, b)
    requires Ordinary(n) && Ordinary(m) && Ordinary(o) && n.e != m.e && n.e != o.e && n.k != m.k && n.k != o.k
    ensures FreshRun(more, all) && more != [] && Last(more).latest.txId == txId
    ensures ReadyFor(Last(more), n, true) && ReadyFor(Last(more), m, a) && ReadyFor(Last(more), o, b)
  {
    hide FreshRun, Inv, Free, Installed, IsInstalled, OnlyLive;
    RunLast(states, events);
    more, all := InstallNext(states, events, n, txId);
    InstalledNow(Last(states), n, Last(more));
    OthersStay(Last(states), n, Last(more), m, a);
    OthersStay(Last(states), n, Last(more), o, b);
  }

  const ANN_MAIL: Datom := Datom(ANN, EMAIL, MAIL, Assert)
  const BOB_BOSS: Datom := Datom(BOB, BOSS, Long(ANN), Assert)

  /** Ann's email is stored first, then that she is Bob's boss. */
  lemma SetUp() returns (states: seq<State>, events: seq<Event>)
    ensures FreshRun(states, events) && states != [] && Last(states).latest.txId == 5 && Known(Last(states))
  {
    hide FreshRun, Inv, ReadyFor, Storable, StoredAs, Known, EMAIL, SSN, BOSS;
    var states3, events3 := Attributes();
    RunLast(states3, events3);
    var s3 := Last(states3);
    MailStorable(s3);
    var states4, events4 := StoreNext(states3, events3, 500, ANN_MAIL, 4);
    var s4 := Last(states4);
    MailStored(s3, s4);
    states, events := StoreNext(states4, events4, 502, BOB_BOSS, 5);
    BossStored(s4, Last(states));
  }

  ghost predicate AllReady(s: State) {
    Inv(s) && ReadyFor(s, EMAIL_ATTR, true) && ReadyFor(s, SSN_ATTR, true) && ReadyFor(s, BOSS_ATTR, true)
  }

  lemma PeopleAllocated(s: State)
    requires Inv(s)
    ensures Contains(s.pm, ANN) && Contains(s.pm, BOB)
  {
    hide Inv, CountersOk, Contains;
    InvParts(s);
    SystemContained(s.pm, ANN);
    SystemContained(s.pm, BOB);
  }

  lemma MailStorable(s: State)
    requires AllReady(s)
    ensures Storable(s, 500, ANN_MAIL)
  {
    hide Inv, Live, Contains, GetAttribute, EMAIL, SSN, BOSS;
    PeopleAllocated(s);
  }

  lemma MailStored(s: State, s': State)
    requires AllReady(s) && StoredAs(s, 500, ANN_MAIL, s')
    ensures Inv(s') && IsInstalled(s', EMAIL_ATTR) && IsInstalled(s', SSN_ATTR) && IsInstalled(s', BOSS_ATTR)
    ensures OnlyLive(s'.facts, 500, {(ANN, MAIL)}) && OnlyLive(s'.facts, 501, {}) && OnlyLive(s'.facts, 502, {})
    ensures Storable(s', 502, BOB_BOSS)
  {
    hide Inv, Live, Contains, GetAttribute, CounterOf, EMAIL, SSN, BOSS;
    PeopleAllocated(s');
  }

  lemma BossStored(s: State, s': State)
    requires Inv(s) && IsInstalled(s, EMAIL_ATTR) && IsInstalled(s, SSN_ATTR) && IsInstalled(s, BOSS_ATTR) &&
             StoredAs(s, 502, BOB_BOSS, s')
    requires OnlyLive(s.facts, 500, {(ANN, MAIL)}) && OnlyLive(s.facts, 501, {}) && OnlyLive(s.facts, 502, {})
    ensures Known(s')
  {
    hide Inv, Live, Contains, GetAttribute, CounterOf, EMAIL, SSN, BOSS;
    PeopleAllocated(s');
  }

  // --- The transaction -------------------------------------------------------------------

  const A: TempId := [1]
  const B: TempId := [2]

  /** Ann, named by her email, gets a number; her boss relation to Bob is asserted along with it. */
  const OPS: seq<TxOp> := [Add(RefTemp(A), EMAIL, MAIL), Add(RefTemp(A), SSN, NUMBER), Add(RefTemp(B), BOSS, String(A))]

  const INPUT: seq<TDatom> := [
    TDatom(Temp(A), EMAIL, Data(MAIL), Assert),
    TDatom(Temp(A), SSN, Data(NUMBER), Assert),
    TDatom(Temp(B), BOSS, TempRef(A), Assert)]

  const X1: DatomX := DatomX(XTemp(A), EMAIL, XData(MAIL), Assert)
  const X2: DatomX := DatomX(XTemp(A), SSN, XData(NUMBER), Assert)
  const X3: DatomX := DatomX(XTemp(B), BOSS, XTempRef(A), Assert)

  lemma OpsAre(s: State)
    requires Known(s)
    ensures ExpandOp(OPS[0], s.schema, Expanded([], [], 0)) == Ok(Expanded([X1], [], 0))
    ensures ExpandOp(OPS[1], s.schema, Expanded([X1], [], 0)) == Ok(Expanded([X1, X2], [], 0))
    ensures ExpandOp(OPS[2], s.schema, Expanded([X1, X2], [], 0)) == Ok(Expanded([X1, X2, X3], [], 0))
  {
    hide Inv, Contains, OnlyLive, GetAttribute, EMAIL, SSN, BOSS;
    assert [] + [X1] == [X1] && [X1] + [X2] == [X1, X2] && [X1, X2] + [X3] == [X1, X2, X3];
  }

  lemma OpsExpand(s: State)
    requires Known(s)
    ensures ExpandOps(OPS, s.schema, Expanded([], [], 0)) == Ok(Expanded([X1, X2, X3], [], 0))
  {
    hide Known, ExpandOp, EMAIL, SSN, BOSS;
    OpsAre(s);
    assert OPS[1..] == [OPS[1], OPS[2]] && [OPS[1], OPS[2]][1..] == [OPS[2]] && [OPS[2]][1..] == [];
    assert ExpandOps([OPS[2]], s.schema, Expanded([X1, X2], [], 0)) == Ok(Expanded([X1, X2, X3], [], 0));
    assert ExpandOps([OPS[1], OPS[2]], s.schema, Expanded([X1], [], 0)) == Ok(Expanded([X1, X2, X3], [], 0));
  }

  lemma XsResolve(schema: Schema, facts: set<Fact>)
    ensures ResolveXs([X1, X2, X3], schema, facts) == Ok(INPUT)
  {
    hide EMAIL, SSN, BOSS;
    var p, q, r := INPUT[0], INPUT[1], INPUT[2];
    assert [X1, X2, X3][1..] == [X2, X3] && [X2, X3][1..] == [X3] && [X3][1..] == [];
    assert ResolveX(X1, schema, facts) == Ok(p) && ResolveX(X2, schema, facts) == Ok(q) &&
           ResolveX(X3, schema, facts) == Ok(r);
    assert [r] + [] == [r] && [q] + [r] == [q, r] && [p] + [q, r] == INPUT;
    assert ResolveXs([X3], schema, facts) == Ok([r]);
    assert ResolveXs([X2, X3], schema, facts) == Ok([q, r]);
  }

  lemma InputAllowed(s: State)
    requires Known(s)
    ensures Allocated(INPUT, s.schema, s.pm)
  {
    hide Inv, Contains, OnlyLive, GetAttribute, EMAIL, SSN, BOSS;
  }

  lemma TxExpands(s: State)
    requires Known(s)
    ensures ExpandTx(OPS, [], s.schema, s.facts, s.pm) == Ok(INPUT)
    ensures RetractsLive([], TargetsOf(OPS, s.schema, s.facts), s.schema, s.facts) && ValidOps(OPS)
  {
    hide Known, ExpandOps, ResolveXs, Allocated, Live, EMAIL, SSN, BOSS;
    OpsExpand(s);
    XsResolve(s.schema, s.facts);
    InputAllowed(s);
    assert INPUT + [] == INPUT;
  }

  // --- Its resolution --------------------------------------------------------------------

  const E0: seq<UpsertE> := [UpsertE(A, 500, MAIL), UpsertE(A, 501, NUMBER)]
  const G0: Generation := EMPTY.(es := E0, evs := [UpsertEV(B, 502, A)])
  const DROPPED: seq<Datom> := [Datom(ANN, EMAIL, MAIL, Assert), Datom(ANN, SSN, NUMBER, Assert)]
  const G1: Generation := EMPTY.(es := [UpsertE(B, 502, Long(ANN))], upserted := DROPPED)
  const G2: Generation := EMPTY.(upserted := [BOB_BOSS])
  const M1: TempMap := map[A := ANN]
  const M2: TempMap := map[B := BOB]
  const R2: TempMap := map[A := ANN, B := BOB]

  lemma Hits(s: State)
    requires Known(s)
    ensures Hit(s.facts, 500, MAIL) == Some(ANN) && Hit(s.facts, 501, NUMBER) == None &&
            Hit(s.facts, 502, Long(ANN)) == Some(BOB)
  {
    hide Inv, Contains, GetAttribute, Live, EMAIL, SSN, BOSS;
    assert (ANN, MAIL) in {(ANN, MAIL)} && (BOB, Long(ANN)) in {(BOB, Long(ANN))};
  }

  lemma Names(s: State)
    requires Known(s)
    ensures Inverse(s.schema)
    ensures 500 in s.schema.entids && 501 in s.schema.entids && 502 in s.schema.entids
    ensures s.schema.entids[500] == EMAIL && s.schema.entids[501] == SSN && s.schema.entids[502] == BOSS
  {
    hide Inv, Contains, OnlyLive, EMAIL, SSN, BOSS;
    InvInverse(s);
    AttrNamed(s.schema, EMAIL);
    AttrNamed(s.schema, SSN);
    AttrNamed(s.schema, BOSS);
  }

  const S1: Split := Split(EMPTY.(es := [E0[0]]), [])
  const S2: Split := Split(EMPTY.(es := E0), [])

  lemma InputSplits(s: State)
    requires Known(s)
    ensures Classify(INPUT[0], s.schema, Split(EMPTY, [])) == Ok(S1)
    ensures Classify(INPUT[1], s.schema, S1) == Ok(S2)
    ensures Classify(INPUT[2], s.schema, S2) == Ok(Split(G0, []))
  {
    hide Inv, Contains, OnlyLive, GetAttribute, EMAIL, SSN, BOSS;
    assert EMPTY.es + [E0[0]] == [E0[0]] && [E0[0]] + [E0[1]] == E0 && EMPTY.evs + G0.evs == G0.evs;
  }

  lemma SplitInput(s: State)
    requires Known(s)
    ensures SplitAll(INPUT, s.schema, Split(EMPTY, [])) == Ok(Split(G0, []))
  {
    hide Known, Classify, EMAIL, SSN, BOSS;
    InputSplits(s);
    assert INPUT[1..] == [INPUT[1], INPUT[2]] && [INPUT[1], INPUT[2]][1..] == [INPUT[2]] && [INPUT[2]][1..] == [];
    assert SplitAll([INPUT[2]], s.schema, S2) == Ok(Split(G0, []));
    assert SplitAll([INPUT[1], INPUT[2]], s.schema, S1) == Ok(Split(G0, []));
  }

  lemma FirstBinds(s: State)
    requires Known(s)
    ensures Resolve(E0, s.facts, map[]) == Ok(M1) && Record(map[], M1) == Ok(M1)
  {
    hide Known, Hit;
    Hits(s);
    assert E0[1..] == [E0[1]] && [E0[1]][1..] == [];
    assert Resolve([E0[1]], s.facts, M1) == Ok(M1);
    assert map[] + M1 == M1;
  }

  lemma FirstStep(s: State)
    requires Known(s)
    ensures EvolveOneStep(G0, M1, M1, s.schema) == Ok(G1)
  {
    hide Known, EMAIL, SSN, BOSS;
    Names(s);
    var start := EMPTY.(resolved := []);
    var mid := start.(upserted := [DROPPED[0]]);
    var late := start.(upserted := DROPPED);
    assert E0[1..] == [E0[1]] && [E0[1]][1..] == [];
    assert EMPTY.upserted + mid.upserted == mid.upserted && mid.upserted + [DROPPED[1]] == DROPPED &&
           EMPTY.es + G1.es == G1.es;
    assert StepE(E0[0], M1, M1, s.schema, start) == Ok(mid) && StepE(E0[1], M1, M1, s.schema, mid) == Ok(late);
    assert FoldE([E0[1]], M1, M1, s.schema, mid) == Ok(late);
    assert FoldE(E0, M1, M1, s.schema, start) == Ok(late);
    assert StepEV(G0.evs[0], M1, M1, s.schema, late) == Ok(G1);
    assert FoldEV(G0.evs, M1, M1, s.schema, late) == Ok(G1);
  }

  lemma SecondStep(s: State)
    requires Known(s)
    ensures Resolve(G1.es, s.facts, map[]) == Ok(M2) && Record(M1, M2) == Ok(R2) &&
            EvolveOneStep(G1, M2, R2, s.schema) == Ok(G2)
  {
    hide Known, Hit, EMAIL, SSN, BOSS;
    Hits(s);
    Names(s);
    var start := EMPTY.(resolved := []);
    assert EMPTY.upserted + [BOB_BOSS] == [BOB_BOSS] && M1 + M2 == R2;
    assert StepE(G1.es[0], M2, R2, s.schema, start) == Ok(G2);
    assert FoldE(G1.es, M2, R2, s.schema, start) == Ok(G2);
  }

  lemma WholeRun(s: State)
    requires Known(s)
    ensures EvolveAll(G0, map[], s.schema, s.facts).Ok?
    ensures EvolveAll(G0, map[], s.schema, s.facts).value.gen == G2 &&
            EvolveAll(G0, map[], s.schema, s.facts).value.bound == R2
  {
    hide Known, EvolveOneStep, Resolve, Record, EMAIL, SSN, BOSS;
    FirstBinds(s);
    FirstStep(s);
    SecondStep(s);
    assert G0.es == E0 && G0.es != [] && G1.es != [] && G2.es == [];
    var end := EvolveAll(G2, R2, s.schema, s.facts);
    assert end == Ok(Evolved(G2, R2, [], 0));
    var later := EvolveAll(G1, M1, s.schema, s.facts);
    assert later.Ok? && later.value.gen == G2 && later.value.bound == R2;
  }

  lemma Drained(schema: Schema)
    ensures Drain(G2, schema) == Ok([])
  {
    assert AsEVs(schema, G2.evs) == [] && G2.allocs + AsEVs(schema, G2.evs) == [];
  }

  lemma Resolved(s: State, pm: Counters)
    requires Known(s)
    ensures ResolveTempids(INPUT, s.schema, s.facts, pm).Ok?
    ensures var res := ResolveTempids(INPUT, s.schema, s.facts, pm).value;
            res.datoms == [BOB_BOSS] && res.pm == pm && A in res.sigma && res.sigma[A] == ANN
  {
    hide Known, SplitAll, EvolveAll, Drain, Allocatable, LabelCount, AllocateAll, ClassPartitions, IdentityEdges,
         EntityTempIds, EMAIL, SSN, BOSS;
    SplitInput(s);
    WholeRun(s);
    Drained(s.schema);
    NoLabels(s.schema);
    NothingAllocated(INPUT, s.schema, pm);
    assert Finals([], Assign(LabelsOf([], s.schema), [])) == Ok([]);
    assert [BOB_BOSS] + [] + [] + [] == [BOB_BOSS];
    assert Assign(LabelsOf([], s.schema), []) == map[];
  }

  // --- The loss --------------------------------------------------------------------------

  lemma BossFits(s: State)
    requires Known(s)
    ensures Fits(s, [BOB_BOSS]) && Claimable(s, [BOB_BOSS]) && !ChangesSchema([BOB_BOSS])
  {
    hide Inv, Contains, OnlyLive, GetAttribute, Hit, SameKey, IsSchemaAttr, EMAIL, SSN, BOSS;
    Hits(s);
    NotSchemaName(s, BOSS, 502);
  }

  lemma Commits(s: State, key: TxKey) returns (s': State)
    requires Known(s) && InTurn(s, key)
    ensures Step(s, s', key, OPS, [], [], Committed) && Resolves(s, key.txId, OPS, [], INPUT)
    ensures var res := ResolutionOf(s, key.txId, OPS, [], INPUT);
            res.datoms == [BOB_BOSS] && A in res.sigma && res.sigma[A] == ANN
  {
    hide Inv, CounterOf, OnlyLive, GetAttribute, Contains, Fits, Claimable, ExpandTx, ResolveTempids, Finalize,
         ChangesSchema, Preparable, Prepared, Applied, Prepare, SetTx, RetractsLive, TargetsOf, ValidOps, CountersOk,
         Before, OPS, INPUT, BOB_BOSS;
    TxFacts(s, key);
    TxExpands(s);
    Resolved(s, SetTx(s.pm, key.txId).value);
    BossFits(s);
    ClaimsOk(s, key, [BOB_BOSS]);
    Preparing(s, key, OPS, [], INPUT, [BOB_BOSS]);
    s' := Commit(s, key, Prepare(s, key, OPS, []).value);
  }

  lemma NumberMissing(s: State, res: Resolution)
    requires Known(s) && res.datoms == [BOB_BOSS] && A in res.sigma && res.sigma[A] == ANN
    ensures Missing(INPUT[1], res, s.schema, s.facts) && INPUT[1] in INPUT
    ensures Img(res.sigma, INPUT[1]) == Datom(ANN, SSN, NUMBER, Assert) &&
            AttrId(Img(res.sigma, INPUT[1]), s.schema) == 501
  {
    hide Inv, Contains, GetAttribute, Live, EMAIL, SSN, BOSS;
  }

  /**
   * A fresh database, three installed attributes, two stored values, and a transaction that commits
   * without the one new assertion it was made for: afterwards Ann still has no number.
   */
  lemma UpsertCanBeLost() returns (states: seq<State>, events: seq<Event>)
    ensures FreshRun(states, events) && events != [] && |states| == |events| + 1
    ensures var n := |events| - 1;
            && events[n].ops == OPS && events[n].out == Committed
            && GetAttribute(states[n].schema, SSN) == Some(AttrEntry(501, DefinedAs(SSN_ATTR)))
            && Lost(INPUT[1], INPUT, states[n].schema, states[n].facts)
            && !Live(states[n + 1].facts, ANN, 501, NUMBER)
  {
    hide *;
    var before, done := SetUp();
    var s := Last(before);
    var s', v := Loses(s);
    LastIs(before);
    OneMoreStep(before, done, s', v);
    RunLength(before, done);
    states, events := before + [s'], done + [v];
  }

  lemma Loses(s: State) returns (s': State, v: Event)
    requires Known(s) && s.latest.txId == 5
    ensures StepOf(s, s', v) && ValidOps(v.ops) && v.ops == OPS && v.out == Committed
    ensures GetAttribute(s.schema, SSN) == Some(AttrEntry(501, DefinedAs(SSN_ATTR)))
    ensures Lost(INPUT[1], INPUT, s.schema, s.facts) && !Live(s'.facts, ANN, 501, NUMBER)
  {
    hide Inv, OnlyLive, GetAttribute, Contains, Step, Resolves, ResolutionOf, Lost, Missing, ValidOps, Live, Img,
         AttrId, InTurn, OPS, EMAIL, SSN, BOSS;
    var key := TxKey(6, 0);
    Upcoming(s, key);
    s' := Commits(s, key);
    v := Event(key, OPS, [], [], Committed);
    TxExpands(s);
    var res := ResolutionOf(s, key.txId, OPS, [], INPUT);
    NumberMissing(s, res);
    LostIff(s, key.txId, OPS, [], INPUT, INPUT[1]);
    LostForGood(s, s', key, OPS, [], [], INPUT, INPUT[1]);
  }
}
