/** The indexer as a subscriber of the log: the completions it sends are a history a waiter can rely on. */
module Accepting {
  import opened Octets
  import opened Model
  import opened Expand
  import opened Transact
  import opened Invariant
  import opened Sources
  import opened Runs
  import opened Waiter
  import I = Indexer

  /** A log record: the operations it decodes to, if it does, and the text of an error it may lead to. */
  datatype Incoming = Incoming(key: TxKey, ops: Option<seq<TxOp>>, error: Octets)

  /** Everything indexed: the transaction the indexer started from, then what it has sent. */
  function History(start: TxKey, sent: seq<Completion>): seq<Completion> { [Completion(start, Committed)] + sent }

  /** Records in log order, after everything indexed. */
  ghost predicate InLogOrder(history: seq<Completion>, records: seq<Incoming>) {
    && (forall i, j :: 0 <= i < j < |records| ==> Before(records[i].key, records[j].key))
    && (forall c, r :: c in history && r in records ==> Before(c.key, r.key))
  }

  /** A later completion keeps the order, and moves the baseline exactly if its outcome is stored. */
  lemma Announced(history: seq<Completion>, latest: TxKey, c: Completion)
    requires IsHistory(history) && IsBaseline(latest, history) && forall d :: d in history ==> Before(d.key, c.key)
    ensures IsHistory(history + [c]) && IsBaseline(if Recorded(c) then c.key else latest, history + [c])
  {
    var more := history + [c];
    forall i, j | 0 <= i < j < |more| ensures Before(more[i].key, more[j].key) {
      if j == |history| { assert history[i] in history; }
    }
    var i :| 0 <= i < |history| && history[i].key == latest && Recorded(history[i]);
    assert more[i] == history[i] && more[|history|] == c && history[i] in history;
    forall j | 0 <= j < |more| && Recorded(more[j])
      ensures !Before(if Recorded(c) then c.key else latest, more[j].key)
    {
      if j < |history| { assert more[j] == history[j] && history[j] in history; }
    }
  }

  lemma StillInOrder(history: seq<Completion>, records: seq<Incoming>, c: Completion)
    requires InLogOrder(history, records) && records != [] && c.key == records[0].key
    ensures InLogOrder(history + [c], records[1..])
  {
    hide Before;
    forall d, r | d in history + [c] && r in records[1..] ensures Before(d.key, r.key) {
      assert r in records;
      var j :| 0 <= j < |records[1..]| && records[1..][j] == r;
      if d !in history { assert Before(records[0].key, records[j + 1].key); }
    }
  }

  lemma StepMovesLatest(s: State, s': State, key: TxKey, ops: seq<TxOp>, rets: seq<TDatom>, error: Octets, out: Outcome)
    requires Inv(s) && Step(s, s', key, ops, rets, error, out)
    ensures s'.latest == if out.Committed? || out.Aborted? then key else s.latest
  {
    hide Inv, Step;
    StepAdvances(s, s', key, ops, rets, error, out);
  }

  /** `accept` for one record; a record that does not decode is announced as failed. */
  method Accept(ix: I.Indexer, r: Incoming, ghost start: TxKey) returns (halted: bool)
    requires ix.Valid() && (r.ops.Some? ==> ValidOps(r.ops.value))
    requires IsHistory(History(start, ix.sent)) && IsBaseline(ix.latest, History(start, ix.sent))
    requires InLogOrder(History(start, ix.sent), [r])
    modifies ix
    ensures ix.Valid() && IsHistory(History(start, ix.sent)) && IsBaseline(ix.latest, History(start, ix.sent))
    ensures halted ==> ix.sent == old(ix.sent)
    ensures !halted ==> exists out :: ix.sent == old(ix.sent) + [Completion(r.key, out)]
  {
    hide Inv, Step, ValidOps, IsHistory, IsBaseline;
    ghost var before, latest := History(start, ix.sent), ix.latest;
    assert r in [r];
    if r.ops.None? {
      ghost var c := Completion(r.key, Failed);
      ix.sent := ix.sent + [Completion(r.key, Failed)];
      Announced(before, latest, c);
      assert History(start, ix.sent) == before + [c];
      return false;
    }
    ghost var s := ix.State();
    var out, rets := ix.TransactTx(r.key, r.ops.value, r.error);
    StepMovesLatest(s, ix.State(), r.key, r.ops.value, rets, r.error, out);
    if out.Halted? { return true; }
    ghost var c := Completion(r.key, out);
    Announced(before, latest, c);
    assert History(start, ix.sent) == before + [c];
    halted := false;
  }

  /**
   * Records accepted in log order: what has been sent is a history with the latest indexed transaction
   * as its baseline, one completion per record, until a panic stops the indexer.
   */
  method AcceptAll(ix: I.Indexer, records: seq<Incoming>, ghost start: TxKey) returns (n: nat, halted: bool)
    requires ix.Valid() && forall r :: r in records && r.ops.Some? ==> ValidOps(r.ops.value)
    requires IsHistory(History(start, ix.sent)) && IsBaseline(ix.latest, History(start, ix.sent))
    requires InLogOrder(History(start, ix.sent), records)
    modifies ix
    ensures ix.Valid() && IsHistory(History(start, ix.sent)) && IsBaseline(ix.latest, History(start, ix.sent))
    ensures n <= |records| && (!halted ==> n == |records|) && |ix.sent| == |old(ix.sent)| + n && old(ix.sent) <= ix.sent
    ensures forall i :: 0 <= i < n ==> ix.sent[|old(ix.sent)| + i].key == records[i].key
  {
    hide Inv, ValidOps, IsHistory, IsBaseline, Before;
    ghost var base := ix.sent;
    n := 0;
    assert records[0..] == records;
    while n < |records|
      invariant n <= |records| && ix.Valid()
      invariant IsHistory(History(start, ix.sent)) && IsBaseline(ix.latest, History(start, ix.sent))
      invariant InLogOrder(History(start, ix.sent), records[n..])
      invariant |ix.sent| == |base| + n && base <= ix.sent
      invariant forall i :: 0 <= i < n ==> ix.sent[|base| + i].key == records[i].key
    {
      assert records[n] in records && records[n] in records[n..] && records[n..][1..] == records[n + 1..];
      ghost var before := ix.sent;
      halted := Accept(ix, records[n], start);
      if halted { return; }
      ghost var out :| ix.sent == before + [Completion(records[n].key, out)];
      StillInOrder(History(start, before), records[n..], Completion(records[n].key, out));
      assert History(start, ix.sent) == History(start, before) + [Completion(records[n].key, out)];
      n := n + 1;
    }
    halted := false;
  }

  /** An indexer that has sent nothing starts with such a history. */
  lemma StartsHistory(latest: TxKey)
    ensures IsHistory(History(latest, [])) && IsBaseline(latest, History(latest, []))
  {
    assert History(latest, [])[0] == Completion(latest, Committed);
  }
}
