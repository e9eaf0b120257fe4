/** The expansion of a transaction: exactly the datoms its operations ask for. */
module Operations {
  import opened Octets
  import opened Values
  import opened Facts
  import opened Model
  import opened Partition
  import opened Expand
  import opened Transact
  import opened Invariant
  import opened Preserve
  import opened Meaning

  // --- The operations one by one ---------------------------------------------------------

  /** The part of operation `i`, when `n` anonymous puts came before all of them. */
  function Piece(ops: seq<TxOp>, schema: Schema, n: nat, i: nat): Result<Expanded>
    requires i < |ops|
  {
    Alone(ops[i], schema, n + AutosBefore(ops, i))
  }

  lemma PieceShift(ops: seq<TxOp>, schema: Schema, n: nat, i: nat)
    requires 0 < i < |ops|
    ensures Piece(ops, schema, n, i) == Piece(ops[1..], schema, n + if Anonymous(ops[0]) then 1 else 0, i - 1)
  {
    hide Alone, Anonymous;
  }

  /** The parts make up the whole. */
  ghost predicate MadeOf(ops: seq<TxOp>, schema: Schema, x: Expanded, y: Expanded) {
    && (forall d :: d in y.datoms <==>
       d in x.datoms || exists i :: 0 <= i < |ops| && PieceHas(ops, schema, x.autos, i, d))
    && (forall t :: t in y.targets <==>
          t in x.targets || exists i :: 0 <= i < |ops| && PieceTargets(ops, schema, x.autos, i, t))
  }

  predicate PieceHas(ops: seq<TxOp>, schema: Schema, n: nat, i: nat, d: DatomX)
    requires i < |ops|
  {
    Piece(ops, schema, n, i).Ok? && d in Piece(ops, schema, n, i).value.datoms
  }

  predicate PieceTargets(ops: seq<TxOp>, schema: Schema, n: nat, i: nat, t: EntityX)
    requires i < |ops|
  {
    Piece(ops, schema, n, i).Ok? && t in Piece(ops, schema, n, i).value.targets
  }

  lemma PiecesShift(ops: seq<TxOp>, schema: Schema, n: nat)
    requires ops != []
    ensures var m := n + if Anonymous(ops[0]) then 1 else 0;
            && Piece(ops, schema, n, 0) == Alone(ops[0], schema, n)
            && (forall i :: 0 < i < |ops| ==> Piece(ops, schema, n, i) == Piece(ops[1..], schema, m, i - 1))
  {
    hide Alone, Anonymous;
    forall i | 0 < i < |ops|
      ensures Piece(ops, schema, n, i) == Piece(ops[1..], schema, n + if Anonymous(ops[0]) then 1 else 0, i - 1)
    {
      PieceShift(ops, schema, n, i);
    }
  }

  ghost predicate AllPieces(ops: seq<TxOp>, schema: Schema, n: nat) {
    forall i :: 0 <= i < |ops| ==> Piece(ops, schema, n, i).Ok?
  }

  lemma HeadPieces(ops: seq<TxOp>, schema: Schema, n: nat)
    requires ops != []
    ensures AllPieces(ops, schema, n) <==>
            Alone(ops[0], schema, n).Ok? && AllPieces(ops[1..], schema, n + if Anonymous(ops[0]) then 1 else 0)
  {
    hide Alone, Anonymous, Piece;
    PiecesShift(ops, schema, n);
    var rest, m := ops[1..], n + if Anonymous(ops[0]) then 1 else 0;
    if AllPieces(ops, schema, n) {
      forall i | 0 <= i < |rest| ensures Piece(rest, schema, m, i).Ok? {
        assert Piece(ops, schema, n, i + 1).Ok?;
      }
    }
  }

  lemma {:induction false} OpsGive(ops: seq<TxOp>, schema: Schema, x: Expanded)
    ensures ExpandOps(ops, schema, x).Ok? <==> AllPieces(ops, schema, x.autos)
    ensures ExpandOps(ops, schema, x).Ok? || ExpandOps(ops, schema, x) == Err(false)
    ensures ExpandOps(ops, schema, x).Ok? ==> MadeOf(ops, schema, x, ExpandOps(ops, schema, x).value)
  {
    hide Alone, Anonymous, Piece, ExpandOp;
    if ops != [] {
      AddsAlone(ops[0], schema, x);
      HeadPieces(ops, schema, x.autos);
      if Alone(ops[0], schema, x.autos).Ok? {
        var y := ExpandOp(ops[0], schema, x).value;
        OpsGive(ops[1..], schema, y);
        if ExpandOps(ops, schema, x).Ok? { MadeHead(ops, schema, x, y, ExpandOps(ops, schema, x).value); }
      }
    }
  }

  lemma MadeHead(ops: seq<TxOp>, schema: Schema, x: Expanded, y: Expanded, z: Expanded)
    requires ops != [] && Alone(ops[0], schema, x.autos).Ok? && MadeOf(ops[1..], schema, y, z)
    requires var p := Alone(ops[0], schema, x.autos).value;
             y == Expanded(x.datoms + p.datoms, x.targets + p.targets, x.autos + if Anonymous(ops[0]) then 1 else 0)
    ensures MadeOf(ops, schema, x, z)
  {
    hide Alone, Anonymous, Piece;
    PiecesShift(ops, schema, x.autos);
    var rest := ops[1..];
    forall d
      ensures d in z.datoms <==> d in x.datoms || exists i :: 0 <= i < |ops| && PieceHas(ops, schema, x.autos, i, d)
    {
      if i :| 0 <= i < |ops| && PieceHas(ops, schema, x.autos, i, d) {
        if i > 0 { assert PieceHas(rest, schema, y.autos, i - 1, d); }
      }
      if d in Alone(ops[0], schema, x.autos).value.datoms { assert PieceHas(ops, schema, x.autos, 0, d); }
      if i :| 0 <= i < |rest| && PieceHas(rest, schema, y.autos, i, d) {
        assert PieceHas(ops, schema, x.autos, i + 1, d);
      }
    }
    forall t
      ensures t in z.targets <==>
              t in x.targets || exists i :: 0 <= i < |ops| && PieceTargets(ops, schema, x.autos, i, t)
    {
      if i :| 0 <= i < |ops| && PieceTargets(ops, schema, x.autos, i, t) {
        if i > 0 { assert PieceTargets(rest, schema, y.autos, i - 1, t); }
      }
      if t in Alone(ops[0], schema, x.autos).value.targets { assert PieceTargets(ops, schema, x.autos, 0, t); }
      if i :| 0 <= i < |rest| && PieceTargets(rest, schema, y.autos, i, t) {
        assert PieceTargets(ops, schema, x.autos, i + 1, t);
      }
    }
  }

  lemma {:induction false} TargetsGive(es: seq<EntityX>, schema: Schema, facts: set<Fact>, id: I64)
    ensures ResolveTargets(es, schema, facts).Ok? <==> forall t :: t in es ==> ResolveTarget(t, schema, facts).Ok?
    ensures ResolveTargets(es, schema, facts).Ok? || ResolveTargets(es, schema, facts) == Err(false)
    ensures ResolveTargets(es, schema, facts).Ok? ==>
            (id in ResolveTargets(es, schema, facts).value <==>
             exists t :: t in es && ResolveTarget(t, schema, facts) == Ok(id))
  {
    hide ResolveTarget;
    if es != [] {
      TargetsGive(es[1..], schema, facts, id);
      assert es == [es[0]] + es[1..];
      TargetSoft(es[0], schema, facts);
      if t :| t in es[1..] && ResolveTarget(t, schema, facts) == Ok(id) { assert t in es; }
      assert es[0] in es;
    }
  }

  lemma TargetSoft(e: EntityX, schema: Schema, facts: set<Fact>)
    ensures ResolveTarget(e, schema, facts).Ok? || ResolveTarget(e, schema, facts) == Err(false)
  {
    hide LookupAllowed, Hit, ExtractPartition;
  }

  // --- The expansion of a transaction ----------------------------------------------------

  ghost predicate AllSensible(ops: seq<TxOp>, schema: Schema, facts: set<Fact>) {
    forall i :: 0 <= i < |ops| ==> Sensible(ops[i], schema, facts)
  }

  /** Everything the operations name is known and found. */
  ghost predicate Expands(ops: seq<TxOp>, schema: Schema, facts: set<Fact>) {
    var x := ExpandOps(ops, schema, Expanded([], [], 0));
    x.Ok? && ResolveXs(x.value.datoms, schema, facts).Ok? && ResolveTargets(x.value.targets, schema, facts).Ok?
  }

  ghost predicate AllGive(ops: seq<TxOp>, schema: Schema, facts: set<Fact>) {
    forall i :: 0 <= i < |ops| ==> Gives(ops[i], AutosBefore(ops, i), schema, facts)
  }

  lemma PiecesGive(ops: seq<TxOp>, schema: Schema, facts: set<Fact>, x: Expanded)
    requires AllPieces(ops, schema, 0) && MadeOf(ops, schema, Expanded([], [], 0), x)
    ensures AllGive(ops, schema, facts) <==>
            AllResolve(x.datoms, schema, facts) && forall t :: t in x.targets ==> ResolveTarget(t, schema, facts).Ok?
  {
    hide Alone, ResolveX, ResolveTarget;
    if AllGive(ops, schema, facts) {
      forall d | d in x.datoms ensures ResolveX(d, schema, facts).Ok? {
        var i :| 0 <= i < |ops| && PieceHas(ops, schema, 0, i, d);
        assert Gives(ops[i], AutosBefore(ops, i), schema, facts);
      }
      forall t | t in x.targets ensures ResolveTarget(t, schema, facts).Ok? {
        var i :| 0 <= i < |ops| && PieceTargets(ops, schema, 0, i, t);
        assert Gives(ops[i], AutosBefore(ops, i), schema, facts);
      }
    } else {
      var i :| 0 <= i < |ops| && !Gives(ops[i], AutosBefore(ops, i), schema, facts);
      assert Piece(ops, schema, 0, i).Ok?;
      var p := Alone(ops[i], schema, AutosBefore(ops, i)).value;
      forall d | d in p.datoms ensures d in x.datoms { assert PieceHas(ops, schema, 0, i, d); }
      forall t | t in p.targets ensures t in x.targets { assert PieceTargets(ops, schema, 0, i, t); }
    }
  }

  lemma ExpandsIff(ops: seq<TxOp>, schema: Schema, facts: set<Fact>)
    requires SingleOwner(facts, schema)
    ensures Expands(ops, schema, facts) <==> AllSensible(ops, schema, facts)
  {
    hide SingleOwner, ExpandOps, ResolveXs, ResolveTargets, Gives, Sensible, MadeOf, Piece, AllResolve, ResolveTarget;
    var none := TDatom(Id(0), KW_DB_ID, Data(Long(0)), Assert);
    forall i | 0 <= i < |ops|
      ensures Gives(ops[i], AutosBefore(ops, i), schema, facts) <==> Sensible(ops[i], schema, facts)
    {
      OpMeans(ops[i], AutosBefore(ops, i), schema, facts, none);
    }
    OpsGive(ops, schema, Expanded([], [], 0));
    if AllPieces(ops, schema, 0) {
      var x := ExpandOps(ops, schema, Expanded([], [], 0)).value;
      PiecesGive(ops, schema, facts, x);
      ResolvesAll(x.datoms, schema, facts, none);
      TargetsGive(x.targets, schema, facts, 0);
    } else if AllSensible(ops, schema, facts) {
      var i :| 0 <= i < |ops| && !Piece(ops, schema, 0, i).Ok?;
      GivesPiece(ops, schema, facts, i);
    }
  }

  lemma GivesPiece(ops: seq<TxOp>, schema: Schema, facts: set<Fact>, i: nat)
    requires i < |ops| && Gives(ops[i], AutosBefore(ops, i), schema, facts)
    ensures Piece(ops, schema, 0, i).Ok?
  {
    hide Alone, AllResolve, ResolveTarget;
  }

  /** The datoms of all operations but whole-entity retractions. */
  lemma YieldsIff(ops: seq<TxOp>, schema: Schema, facts: set<Fact>, x: Expanded, d: TDatom)
    requires SingleOwner(facts, schema) && AllGive(ops, schema, facts) && MadeOf(ops, schema, Expanded([], [], 0), x)
    ensures Yields(x.datoms, schema, facts, d) <==>
            exists i :: 0 <= i < |ops| && !ops[i].RetractEntity? &&
              Demands(ops[i], AutosBefore(ops, i), schema, facts, d)
  {
    hide SingleOwner, Alone, Gives, Demands, ResolveX;
    forall i | 0 <= i < |ops|
      ensures Piece(ops, schema, 0, i).Ok?
      ensures Yields(Piece(ops, schema, 0, i).value.datoms, schema, facts, d) <==>
              !ops[i].RetractEntity? && Demands(ops[i], AutosBefore(ops, i), schema, facts, d)
    {
      assert Gives(ops[i], AutosBefore(ops, i), schema, facts);
      GivesPiece(ops, schema, facts, i);
      if ops[i].RetractEntity? {
        RetractMeans(ops[i].e, AutosBefore(ops, i), schema, facts);
      } else {
        OpMeans(ops[i], AutosBefore(ops, i), schema, facts, d);
      }
    }
    hide Piece;
    if Yields(x.datoms, schema, facts, d) {
      var y :| y in x.datoms && ResolveX(y, schema, facts) == Ok(d);
      var i :| 0 <= i < |ops| && PieceHas(ops, schema, 0, i, y);
      assert Yields(Piece(ops, schema, 0, i).value.datoms, schema, facts, d);
    }
    if i :| 0 <= i < |ops| && !ops[i].RetractEntity? && Demands(ops[i], AutosBefore(ops, i), schema, facts, d) {
      var y :| y in Piece(ops, schema, 0, i).value.datoms && ResolveX(y, schema, facts) == Ok(d);
      assert PieceHas(ops, schema, 0, i, y);
    }
  }

  /** The entities retracted as a whole. */
  lemma TargetsIff(ops: seq<TxOp>, schema: Schema, facts: set<Fact>, x: Expanded, id: I64)
    requires SingleOwner(facts, schema) && AllGive(ops, schema, facts) && MadeOf(ops, schema, Expanded([], [], 0), x)
    ensures (exists t :: t in x.targets && ResolveTarget(t, schema, facts) == Ok(id)) <==>
            exists i :: 0 <= i < |ops| && ops[i].RetractEntity? && Names(ops[i].e, schema, facts, Id(id))
  {
    hide SingleOwner, Alone, Gives, Names, ResolveTarget;
    forall i | 0 <= i < |ops|
      ensures Piece(ops, schema, 0, i).Ok?
      ensures (exists t ::
                 t in Piece(ops, schema, 0, i).value.targets && ResolveTarget(t, schema, facts) == Ok(id)) <==>
              ops[i].RetractEntity? && Names(ops[i].e, schema, facts, Id(id))
    {
      assert Gives(ops[i], AutosBefore(ops, i), schema, facts);
      GivesPiece(ops, schema, facts, i);
      if ops[i].RetractEntity? {
        RetractMeans(ops[i].e, AutosBefore(ops, i), schema, facts);
      } else {
        NoTargets(ops[i], schema, AutosBefore(ops, i));
      }
    }
    hide Piece;
    if t :| t in x.targets && ResolveTarget(t, schema, facts) == Ok(id) {
      var i :| 0 <= i < |ops| && PieceTargets(ops, schema, 0, i, t);
    }
    if i :| 0 <= i < |ops| && ops[i].RetractEntity? && Names(ops[i].e, schema, facts, Id(id)) {
      var t :| t in Piece(ops, schema, 0, i).value.targets && ResolveTarget(t, schema, facts) == Ok(id);
      assert PieceTargets(ops, schema, 0, i, t);
    }
  }

  /** The operations name what is there, and the ids of the datoms they ask for are allocated. */
  ghost predicate Accepted(s: State, ops: seq<TxOp>) {
    && AllSensible(ops, s.schema, s.facts)
    && forall d :: Demanded(ops, s.schema, s.facts, d) ==> AllocatedDatom(d, s.schema, s.pm)
  }

  /** The scan delivers what the whole-entity retractions ask for. */
  lemma ScanIff(ops: seq<TxOp>, rets: seq<TDatom>, schema: Schema, facts: set<Fact>, targets: set<I64>, d: TDatom)
    requires RetractsLive(rets, targets, schema, facts)
    requires forall id: I64 :: id in targets <==>
               exists i :: 0 <= i < |ops| && ops[i].RetractEntity? && Names(ops[i].e, schema, facts, Id(id))
    ensures d in rets <==>
            exists i :: 0 <= i < |ops| && ops[i].RetractEntity? &&
              Demands(ops[i], AutosBefore(ops, i), schema, facts, d)
  {
    hide Live, Names;
    if d in rets {
      assert d == TDatom(Id(d.e.id), d.a, Data(d.v.v), Retract);
      var i :| 0 <= i < |ops| && ops[i].RetractEntity? && Names(ops[i].e, schema, facts, Id(d.e.id));
      assert Demands(ops[i], AutosBefore(ops, i), schema, facts, d);
    }
    if i :| 0 <= i < |ops| && ops[i].RetractEntity? && Demands(ops[i], AutosBefore(ops, i), schema, facts, d) {
      assert d == TDatom(Id(d.e.id), d.a, Data(d.v.v), Retract);
      assert d.e.id in targets;
    }
  }

  lemma LiveIsNamed(s: State, targets: set<I64>)
    requires Inv(s)
    ensures TargetsNamed(targets, s.schema, s.facts)
  {
    hide Inv, Live;
    forall e, a: I64, v | e in targets && Live(s.facts, e, a, v) ensures a in s.schema.entids {
      LiveTyped(s, e, a, v);
    }
  }

  /** The datoms before the check of explicit ids. */
  lemma ExpandedIff(s: State, ops: seq<TxOp>, rets: seq<TDatom>, d: TDatom)
    requires Inv(s) && RetractsLive(rets, TargetsOf(ops, s.schema, s.facts), s.schema, s.facts)
    requires Expands(ops, s.schema, s.facts)
    ensures var r := ExpandTxOps(ops, rets, s.schema, s.facts);
            r.Ok? && (d in r.value <==> Demanded(ops, s.schema, s.facts, d))
  {
    hide Inv, ExpandOps, ResolveXs, ResolveTargets, RetractsLive, Yields, MadeOf, AllPieces, SingleOwner, Demands,
         Names, ResolveTarget, TargetsNamed, Gives, AllResolve;
    InvParts(s);
    var x := ExpandOps(ops, s.schema, Expanded([], [], 0)).value;
    OpsGive(ops, s.schema, Expanded([], [], 0));
    ResolvesAll(x.datoms, s.schema, s.facts, d);
    TargetsGive(x.targets, s.schema, s.facts, 0);
    PiecesGive(ops, s.schema, s.facts, x);
    YieldsIff(ops, s.schema, s.facts, x, d);
    var targets := TargetsOf(ops, s.schema, s.facts);
    forall id: I64
      ensures id in targets <==>
              exists i :: 0 <= i < |ops| && ops[i].RetractEntity? && Names(ops[i].e, s.schema, s.facts, Id(id))
    {
      TargetsGive(x.targets, s.schema, s.facts, id);
      TargetsIff(ops, s.schema, s.facts, x, id);
    }
    LiveIsNamed(s, targets);
    ScanIff(ops, rets, s.schema, s.facts, targets, d);
  }

  lemma ExpandSoft(ops: seq<TxOp>, rets: seq<TDatom>, schema: Schema, facts: set<Fact>)
    requires !Expands(ops, schema, facts)
    ensures ExpandTxOps(ops, rets, schema, facts) == Err(false)
  {
    hide ExpandOps, ResolveXs, ResolveTargets, TargetsNamed, AllPieces, MadeOf;
    OpsGive(ops, schema, Expanded([], [], 0));
    var x := ExpandOps(ops, schema, Expanded([], [], 0));
    if x.Ok? {
      ResolvesAll(x.value.datoms, schema, facts, TDatom(Id(0), KW_DB_ID, Data(Long(0)), Assert));
      TargetsGive(x.value.targets, schema, facts, 0);
    }
  }

  /**
   * What the operations mean, exactly. They expand if and only if each makes sense in the store and
   * every explicit id is allocated, otherwise the transaction aborts; and then a datom is in the
   * expansion if and only if some operation asks for it.
   */
  lemma ExpansionMeans(s: State, ops: seq<TxOp>, rets: seq<TDatom>, d: TDatom)
    requires Inv(s) && RetractsLive(rets, TargetsOf(ops, s.schema, s.facts), s.schema, s.facts)
    ensures ExpandTx(ops, rets, s.schema, s.facts, s.pm).Ok? <==> Accepted(s, ops)
    ensures !Accepted(s, ops) ==> ExpandTx(ops, rets, s.schema, s.facts, s.pm) == Err(false)
    ensures Accepted(s, ops) ==>
            (d in ExpandTx(ops, rets, s.schema, s.facts, s.pm).value <==> Demanded(ops, s.schema, s.facts, d))
  {
    hide Inv, RetractsLive, TargetsOf, AllSensible, Demanded, AllocatedDatom, ExpandTxOps, Expands, SingleOwner;
    InvParts(s);
    ExpandsIff(ops, s.schema, s.facts);
    if Expands(ops, s.schema, s.facts) {
      forall f ensures var r := ExpandTxOps(ops, rets, s.schema, s.facts);
                       r.Ok? && (f in r.value <==> Demanded(ops, s.schema, s.facts, f))
      {
        ExpandedIff(s, ops, rets, f);
      }
      var r := ExpandTxOps(ops, rets, s.schema, s.facts);
      ExpandedIff(s, ops, rets, d);
      assert Allocated(r.value, s.schema, s.pm) <==>
             forall f :: Demanded(ops, s.schema, s.facts, f) ==> AllocatedDatom(f, s.schema, s.pm);
    } else {
      ExpandSoft(ops, rets, s.schema, s.facts);
    }
  }

  // --- Tempids of puts -------------------------------------------------------------------

  lemma {:induction false} DecimalDiffers(m: nat, n: nat)
    requires m != n
    ensures Decimal(m) != Decimal(n)
  {
    if m >= 10 && n >= 10 {
      var a, b := Decimal(m / 10), Decimal(n / 10);
      if m / 10 != n / 10 {
        DecimalDiffers(m / 10, n / 10);
        assert a == Decimal(m)[..|Decimal(m)| - 1] && b == Decimal(n)[..|Decimal(n)| - 1];
      } else {
        assert Decimal(m)[|Decimal(m)| - 1] != Decimal(n)[|Decimal(n)| - 1];
      }
    }
  }

  lemma AutoDiffers(m: nat, n: nat)
    requires m != n
    ensures AutoTempId(m) != AutoTempId(n)
  {
    hide Decimal;
    DecimalDiffers(m, n);
    var p := Ascii("__auto_");
    assert AutoTempId(m)[|p|..] == Decimal(m) && AutoTempId(n)[|p|..] == Decimal(n);
  }

  lemma {:induction false} AutosGrow(ops: seq<TxOp>, i: nat, j: nat)
    requires i < j <= |ops| && Anonymous(ops[i])
    ensures AutosBefore(ops, i) < AutosBefore(ops, j)
  {
    hide Anonymous;
    if i > 0 { AutosGrow(ops[1..], i - 1, j - 1); }
  }

  /** Puts without `:db/id` speak of one tempid each, and different puts of different ones. */
  lemma OneTempIdEach(ops: seq<TxOp>, schema: Schema, facts: set<Fact>, i: nat, j: nat, d: TDatom, f: TDatom)
    requires i < |ops| && j < |ops| && Anonymous(ops[i]) && Anonymous(ops[j])
    requires Demands(ops[i], AutosBefore(ops, i), schema, facts, d) &&
             Demands(ops[j], AutosBefore(ops, j), schema, facts, f)
    ensures d.e.Temp? && f.e.Temp? && (d.e == f.e <==> i == j)
  {
    hide AutoTempId, FieldAsks;
    if i < j {
      AutosGrow(ops, i, j);
    } else if j < i {
      AutosGrow(ops, j, i);
    }
    if i != j { AutoDiffers(AutosBefore(ops, i), AutosBefore(ops, j)); }
  }
}
