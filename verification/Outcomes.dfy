/** What a committed transaction leaves, told from its operations. */
module Outcomes {
  import opened Octets
  import opened Values
  import opened Facts
  import opened Model
  import opened Partition
  import opened Expand
  import opened Upsert
  import opened Tempids
  import opened Rounds
  import opened UpsertLoss
  import opened Transact
  import opened Invariant
  import opened Sources
  import opened Effect
  import opened Meaning
  import opened Operations

  /** The transaction expands to `input`, which resolves to `res`. */
  ghost predicate ResolvedWith(s: State, key: TxKey, ops: seq<TxOp>, rets: seq<TDatom>, input: seq<TDatom>,
                               res: Resolution)
  {
    && key.txId >= 0 && SetTx(s.pm, key.txId).Ok? && ExpandTx(ops, rets, s.schema, s.facts, s.pm) == Ok(input)
    && ResolveTempids(input, s.schema, s.facts, SetTx(s.pm, key.txId).value) == Ok(res)
  }

  /** From operations to datoms, and from datoms to what is live. */
  ghost predicate CommitsWith(s: State, s': State, key: TxKey, ops: seq<TxOp>, input: seq<TDatom>, res: Resolution) {
    && (forall d :: d in input <==> Demanded(ops, s.schema, s.facts, d))
    && (forall x :: x in res.datoms <==>
          exists d :: d in input && d !in Discards(input, s.schema, s.facts) && Img(res.sigma, d) == x)
    && 0 <= key.txId < COUNTER_SPAN && (forall x :: x in res.datoms ==> x.e != TxEid(key.txId))
    && (forall e: I64, a: I64, v :: e != TxEid(key.txId) ==>
          (Live(s'.facts, e, a, v) <==> LiveThen(s, res.datoms, e, a, v)))
  }

  lemma InputIs(s: State, ops: seq<TxOp>, rets: seq<TDatom>, input: seq<TDatom>)
    requires Inv(s) && RetractsLive(rets, TargetsOf(ops, s.schema, s.facts), s.schema, s.facts)
    requires ExpandTx(ops, rets, s.schema, s.facts, s.pm) == Ok(input)
    ensures Accepted(s, ops) && forall d :: d in input <==> Demanded(ops, s.schema, s.facts, d)
  {
    hide Inv, RetractsLive, TargetsOf, ExpandTx, Demanded, Accepted;
    var none := TDatom(Id(0), KW_DB_ID, Data(Long(0)), Assert);
    ExpansionMeans(s, ops, rets, none);
    forall d ensures d in input <==> Demanded(ops, s.schema, s.facts, d) { ExpansionMeans(s, ops, rets, d); }
  }

  lemma StepParts(s: State, s': State, key: TxKey, ops: seq<TxOp>, rets: seq<TDatom>, error: Octets)
    requires Step(s, s', key, ops, rets, error, Committed)
    ensures RetractsLive(rets, TargetsOf(ops, s.schema, s.facts), s.schema, s.facts) && 0 <= key.txId < COUNTER_SPAN
  {
    hide RetractsLive, TargetsOf, Prepare;
  }

  /** The meaning of a commit: operations to datoms, datoms to what is live. */
  lemma CommitMeans(s: State, s': State, key: TxKey, ops: seq<TxOp>, rets: seq<TDatom>, error: Octets)
    returns (input: seq<TDatom>, res: Resolution)
    requires Inv(s) && ValidOps(ops) && Step(s, s', key, ops, rets, error, Committed)
    ensures Accepted(s, ops) && ResolvedWith(s, key, ops, rets, input, res)
    ensures CommitsWith(s, s', key, ops, input, res)
  {
    hide *;
    StepParts(s, s', key, ops, rets, error);
    var ds;
    input, ds := CommitEffect(s, s', key, ops, rets, error, 0, 0, Long(0));
    res := ResolvedAs(s, key, ops, rets, input, ds);
    InputIs(s, ops, rets, input);
    InvInverse(s);
    forall x ensures x in res.datoms <==>
                     exists d :: d in input && d !in Discards(input, s.schema, s.facts) && Img(res.sigma, d) == x
    {
      WrittenIff(input, s.schema, s.facts, SetTx(s.pm, key.txId).value, x);
    }
    forall e: I64, a: I64, v | e != TxEid(key.txId)
      ensures Live(s'.facts, e, a, v) <==> LiveThen(s, res.datoms, e, a, v)
    {
      var again, same := CommitEffect(s, s', key, ops, rets, error, e, a, v);
      OneResolution(s, key, ops, rets, input, ds, again, same);
    }
    Commits(s, s', key, ops, input, res);
  }

  lemma Commits(s: State, s': State, key: TxKey, ops: seq<TxOp>, input: seq<TDatom>, res: Resolution)
    requires forall d :: d in input <==> Demanded(ops, s.schema, s.facts, d)
    requires forall x :: x in res.datoms <==>
          exists d :: d in input && d !in Discards(input, s.schema, s.facts) && Img(res.sigma, d) == x
    requires 0 <= key.txId < COUNTER_SPAN && forall x :: x in res.datoms ==> x.e != TxEid(key.txId)
    requires forall e: I64, a: I64, v :: e != TxEid(key.txId) ==>
          (Live(s'.facts, e, a, v) <==> LiveThen(s, res.datoms, e, a, v))
    ensures CommitsWith(s, s', key, ops, input, res)
  {
    hide Demanded, Discards, Img, Live, LiveThen, TxEid;
  }

  lemma ResolvedAs(s: State, key: TxKey, ops: seq<TxOp>, rets: seq<TDatom>, input: seq<TDatom>, ds: seq<Datom>)
    returns (res: Resolution)
    requires ResolvesTo(s, key, ops, rets, input, ds)
    ensures key.txId >= 0 && SetTx(s.pm, key.txId).Ok? && ExpandTx(ops, rets, s.schema, s.facts, s.pm) == Ok(input)
    ensures ResolveTempids(input, s.schema, s.facts, SetTx(s.pm, key.txId).value) == Ok(res) && res.datoms == ds
    ensures ResolvedWith(s, key, ops, rets, input, res)
  {
    hide SetTx, ExpandTx, ResolveTempids;
    res := ResolveTempids(input, s.schema, s.facts, SetTx(s.pm, key.txId).value).value;
  }

  lemma OneResolution(s: State, key: TxKey, ops: seq<TxOp>, rets: seq<TDatom>, input: seq<TDatom>, ds: seq<Datom>,
                      again: seq<TDatom>, same: seq<Datom>)
    requires ResolvesTo(s, key, ops, rets, input, ds) && ResolvesTo(s, key, ops, rets, again, same)
    ensures ds == same
  {
    hide SetTx, ExpandTx, ResolveTempids;
  }

  // --- Removed and added -----------------------------------------------------------------

  /** A retraction is never discarded. */
  lemma RetractionSurvives(d: TDatom, input: seq<TDatom>, schema: Schema, facts: set<Fact>)
    requires d.op.Retract?
    ensures d !in Discards(input, schema, facts)
  {
    hide Discards, Bound;
    if d in Discards(input, schema, facts) { DiscardedBound(d, input, schema, facts); }
  }

  /**
   * A removal ends its triple: whatever a removal or a whole-entity retraction of a committed
   * transaction asks to retract is live afterwards only if the same transaction asserts it.
   */
  lemma RemovedIsGone(s: State, s': State, key: TxKey, ops: seq<TxOp>, rets: seq<TDatom>, error: Octets, d: TDatom)
    returns (input: seq<TDatom>, res: Resolution)
    requires Inv(s) && ValidOps(ops) && Step(s, s', key, ops, rets, error, Committed)
    requires Demanded(ops, s.schema, s.facts, d) && d.op.Retract?
    ensures ResolvedWith(s, key, ops, rets, input, res)
    ensures var sigma, x := res.sigma, Img(res.sigma, d);
            Live(s'.facts, x.e, AttrId(x, s.schema), x.v) ==> exists f ::
              Demanded(ops, s.schema, s.facts, f) && f.op.Assert? && Img(sigma, f).e == x.e &&
              AttrId(Img(sigma, f), s.schema) == AttrId(x, s.schema) && Img(sigma, f).v == x.v
  {
    hide Inv, ValidOps, Step, Demanded, Discards, Img, Live, AttrId, Accepted, Absorbed, Displaced, TxEid, ResolvedWith;
    input, res := CommitMeans(s, s', key, ops, rets, error);
    var sigma := res.sigma;
    var x, a := Img(sigma, d), AttrId(Img(sigma, d), s.schema);
    RetractionSurvives(d, input, s.schema, s.facts);
    ImgOp(sigma, d);
    assert x in res.datoms;
    assert Tells(res.datoms, s.schema, x.e, a, x.v, Retract);
    if Live(s'.facts, x.e, a, x.v) {
      assert LiveThen(s, res.datoms, x.e, a, x.v);
      var y :| y in res.datoms && y.e == x.e && AttrId(y, s.schema) == a && y.v == x.v && y.op == Assert;
      var f :| f in input && f !in Discards(input, s.schema, s.facts) && Img(sigma, f) == y;
      ImgOp(sigma, f);
    }
  }

  lemma ImgOp(sigma: TempMap, d: TDatom)
    ensures Img(sigma, d).op == d.op
  {
  }

  /**
   * What an operation asserts is live after the commit, unless its upsert is discarded or an equal
   * value absorbs it.
   */
  lemma AddedIsLive(s: State, s': State, key: TxKey, ops: seq<TxOp>, rets: seq<TDatom>, error: Octets, d: TDatom)
    returns (input: seq<TDatom>, res: Resolution)
    requires Inv(s) && ValidOps(ops) && Step(s, s', key, ops, rets, error, Committed)
    requires Demanded(ops, s.schema, s.facts, d) && d.op.Assert?
    ensures ResolvedWith(s, key, ops, rets, input, res)
    ensures var x := Img(res.sigma, d);
            d !in Discards(input, s.schema, s.facts) && !Absorbed(s, x.e, AttrId(x, s.schema), x.v) ==>
            Live(s'.facts, x.e, AttrId(x, s.schema), x.v)
  {
    hide Inv, ValidOps, Step, Demanded, Discards, Img, Live, AttrId, Accepted, Absorbed, Displaced, TxEid, ResolvedWith;
    input, res := CommitMeans(s, s', key, ops, rets, error);
    var sigma := res.sigma;
    var x, a := Img(sigma, d), AttrId(Img(sigma, d), s.schema);
    ImgOp(sigma, d);
    if d !in Discards(input, s.schema, s.facts) {
      assert x in res.datoms;
      assert Tells(res.datoms, s.schema, x.e, a, x.v, Assert);
    }
  }
}
