/** The transaction log as its readers see it, and the log kept in memory. */
module TxLog {
  import opened Octets
  import opened Values
  import opened Model

  datatype Record = Record(key: TxKey, data: Octets)

  function RecordId(r: Record): I64 { r.key.txId }

  /** Transaction ids grow along the log. */
  ghost predicate Increasing(log: seq<Record>) {
    forall i, j :: 0 <= i < j < |log| ==> RecordId(log[i]) < RecordId(log[j])
  }

  /** How many records a reader that stopped at `after` has behind it. */
  ghost function Behind(log: seq<Record>, after: Option<I64>): (n: nat)
    ensures n <= |log|
  {
    if after.None? || log == [] then 0
    else if RecordId(log[|log| - 1]) <= after.value then |log|
    else Behind(log[..|log| - 1], after)
  }

  /** The records behind are exactly those up to the id. */
  lemma {:induction false} BehindSplits(log: seq<Record>, after: Option<I64>, i: nat)
    requires Increasing(log) && i < |log|
    ensures i < Behind(log, after) <==> after.Some? && RecordId(log[i]) <= after.value
  {
    if after.Some? && RecordId(log[|log| - 1]) > after.value {
      var init := log[..|log| - 1];
      if i < |init| { BehindSplits(init, after, i); }
    }
  }

  lemma BehindIs(log: seq<Record>, after: Option<I64>, n: nat)
    requires Increasing(log) && n <= |log|
    requires forall i :: 0 <= i < |log| ==> (i < n <==> after.Some? && RecordId(log[i]) <= after.value)
    ensures Behind(log, after) == n
  {
    var b := Behind(log, after);
    if b < n {
      var r := log[b];
      assert after.Some? && RecordId(r) <= after.value;
      BehindSplits(log, after, b);
    }
    if n < b {
      var r := log[n];
      assert !(after.Some? && RecordId(r) <= after.value);
      BehindSplits(log, after, n);
    }
  }

  /** A reader at the id of record `i` has it and all before it behind. */
  lemma BehindAt(log: seq<Record>, i: nat)
    requires Increasing(log) && i < |log|
    ensures Behind(log, Some(RecordId(log[i]))) == i + 1
  {
    BehindIs(log, Some(RecordId(log[i])), i + 1);
  }

  /** Appending a record moves nobody past it, unless they were already ahead of it. */
  lemma BehindAppend(log: seq<Record>, r: Record, after: Option<I64>)
    requires Increasing(log + [r])
    ensures Behind(log + [r], after) ==
            if after.Some? && RecordId(r) <= after.value then |log| + 1 else Behind(log, after)
    ensures Increasing(log)
  {
    var more := log + [r];
    assert more[..|more| - 1] == log;
    assert more[|more| - 1] == r;
    forall i, j | 0 <= i < j < |log|
      ensures RecordId(log[i]) < RecordId(log[j])
    {
      assert more[i] == log[i] && more[j] == log[j];
    }
  }

  /** The contract of `read_txs_after`: the next records in order, fewer than asked only at the end of the log. */
  ghost function ReadAfter(log: seq<Record>, after: Option<I64>, limit: nat): (r: seq<Record>)
    ensures |r| <= limit && (|r| < limit ==> r == log[Behind(log, after)..])
  {
    var start := Behind(log, after);
    if |log| - start <= limit then log[start..] else log[start..start + limit]
  }

  /** The records that follow `after`, strictly. */
  lemma ReadMeans(log: seq<Record>, after: Option<I64>, limit: nat)
    requires Increasing(log)
    ensures var start, r := Behind(log, after), ReadAfter(log, after, limit);
            start + |r| <= |log| && r == log[start..start + |r|] && forall x ::
              x in r ==> after.Some? ==> RecordId(x) > after.value
  {
    var start, r := Behind(log, after), ReadAfter(log, after, limit);
    forall i | 0 <= i < |r|
      ensures after.Some? ==> RecordId(r[i]) > after.value
    {
      BehindSplits(log, after, start + i);
    }
  }

  // --- The log in memory -----------------------------------------------------------------

  /** Ids are positions. */
  ghost predicate Dense(log: seq<Record>) {
    forall i :: 0 <= i < |log| ==> RecordId(log[i]) == i
  }

  lemma DenseIncreasing(log: seq<Record>)
    requires Dense(log)
    ensures Increasing(log)
  {
  }

  const BOOTSTRAP_RECORD: Record := Record(TxKey(0, 0), [])

  /** One more than the greatest position, and the greatest limit of a read. */
  const WORD: int := 2 * TWO_63
  const MAX_LIMIT: nat := 65535

  class MemoryLog {
    var txs: seq<Record>
    var sent: seq<Record>

    ghost predicate Valid()
      reads this
    {
      Dense(txs) && |txs| < TWO_63
    }

    constructor ()
      ensures Valid() && txs == [] && sent == []
    {
      txs, sent := [], [];
    }

    /** The id is the position; the record is sent to subscribers after it is in the log. */
    method AppendTx(data: Octets, now: I64) returns (key: TxKey)
      requires Valid() && |txs| + 1 < TWO_63
      modifies this
      ensures Valid() && key == TxKey(|old(txs)|, now)
      ensures txs == old(txs) + [Record(key, data)] && sent == old(sent) + [Record(key, data)]
    {
      key := TxKey(|txs|, now);
      txs := txs + [Record(key, data)];
      sent := sent + [Record(key, data)];
    }

    /**
     * The slice after the position of the id is what the contract asks for, from id -1 on. A negative
     * id is cast to a position of 64 bits; `wraps` tells whether overflow wraps around or panics.
     */
    method ReadTxsAfter(after: Option<I64>, limit: nat, wraps: bool) returns (r: Result<seq<Record>>)
      requires Valid() && limit <= MAX_LIMIT
      ensures after.None? || after.value >= 0 || (after.value == -1 && wraps) ==> r == Ok(ReadAfter(txs, after, limit))
      ensures after == Some(-1) && !wraps ==> r == Err(true)
      ensures after.Some? && after.value < -1 ==> r == if wraps || limit < -1 - after.value then Ok([]) else Err(true)
    {
      var start: int := 0;
      if after.Some? {
        start := (if after.value < 0 then after.value + WORD else after.value) + 1;
        if start >= WORD {
          if !wraps { return Err(true); }
          start := start - WORD;
        }
      }
      var end := start + limit;
      if end >= WORD {
        if !wraps { return Err(true); }
        end := end - WORD;
      }
      if after.None? || after.value >= -1 {
        DenseBehind(txs, after);
        assert |txs| - Behind(txs, after) <= limit ==> ReadAfter(txs, after, limit) == txs[Behind(txs, after)..|txs|];
      }
      if start >= |txs| { return Ok([]); }
      return Ok(txs[start..if end < |txs| then end else |txs|]);
    }

    method EnsureBootstrapRecord() returns (ok: bool)
      requires Valid()
      modifies this
      ensures Valid() && sent == old(sent)
      ensures ok <==> old(txs) == [] || old(txs)[0] == BOOTSTRAP_RECORD
      ensures txs == if old(txs) == [] then [BOOTSTRAP_RECORD] else old(txs)
      ensures ok ==> txs != [] && txs[0] == BOOTSTRAP_RECORD
    {
      if txs != [] { return txs[0] == BOOTSTRAP_RECORD; }
      txs := [BOOTSTRAP_RECORD];
      ok := true;
    }
  }

  lemma DenseBehind(log: seq<Record>, after: Option<I64>)
    requires Dense(log) && (after.Some? ==> after.value >= -1)
    ensures Behind(log, after) == if after.None? then 0 else if after.value + 1 < |log| then after.value + 1 else |log|
  {
    BehindIs(log, after, if after.None? then 0 else if after.value + 1 < |log| then after.value + 1 else |log|);
  }

  /** Catching up on a log nobody appends to: the records after `last`, at most `max` of them. */
  method CatchUp(log: MemoryLog, last: Option<I64>, batch: nat, max: Option<nat>, wraps: bool)
    returns (accepted: seq<Record>, last': Option<I64>)
    requires log.Valid() && 0 < batch <= MAX_LIMIT && (last.Some? ==> last.value >= 0)
    ensures accepted == ReadAfter(log.txs, last, if max.None? then |log.txs| else max.value)
    ensures last' == if accepted == [] then last else Some(RecordId(accepted[|accepted| - 1]))
  {
    hide ReadAfter, Behind, Dense, Following;
    accepted, last' := [], last;
    var remaining := max;
    NothingYet(log.txs, last);
    while true
      invariant Following(log.txs, last, accepted, last') && (max.Some? <==> remaining.Some?)
      invariant max.Some? ==> 0 <= remaining.value && remaining.value + |accepted| == max.value
      decreases |log.txs| - |accepted|
    {
      Inside(log.txs, last, accepted, last');
      if remaining == Some(0) {
        Enough(log.txs, last, accepted, last', max.value);
        break;
      }
      var limit := if remaining.Some? && remaining.value < batch then remaining.value else batch;
      var read := log.ReadTxsAfter(last', limit, wraps);
      var txs := read.value;
      Reached(log.txs, last, accepted, last', limit);
      if txs == [] {
        Enough(log.txs, last, accepted, last', if max.None? then |log.txs| else max.value);
        break;
      }
      accepted := accepted + txs;
      last' := Some(RecordId(txs[|txs| - 1]));
      if remaining.Some? { remaining := Some(remaining.value - |txs|); }
      if |txs| < limit {
        Enough(log.txs, last, accepted, last', if max.None? then |log.txs| else max.value);
        break;
      }
    }
  }

  /** `accepted` are the records that follow `last`, and `at` is where they end. */
  ghost predicate Following(log: seq<Record>, last: Option<I64>, accepted: seq<Record>, at: Option<I64>) {
    var start := Behind(log, last);
    && start + |accepted| <= |log| && accepted == log[start..start + |accepted|]
    && at == (if accepted == [] then last else Some(RecordId(accepted[|accepted| - 1])))
    && (at.Some? ==> at.value >= 0)
  }

  lemma NothingYet(log: seq<Record>, last: Option<I64>)
    requires last.Some? ==> last.value >= 0
    ensures Following(log, last, [], last)
  {
  }

  lemma AtIsBehind(log: seq<Record>, last: Option<I64>, accepted: seq<Record>, at: Option<I64>)
    requires Increasing(log) && Following(log, last, accepted, at)
    ensures Behind(log, at) == Behind(log, last) + |accepted|
  {
    hide Behind;
    if accepted != [] { BehindAt(log, Behind(log, last) + |accepted| - 1); }
  }

  /** One batch more. */
  lemma Reached(log: seq<Record>, last: Option<I64>, accepted: seq<Record>, at: Option<I64>, limit: nat)
    requires Dense(log) && Following(log, last, accepted, at)
    ensures var txs := ReadAfter(log, at, limit);
            && |txs| <= limit && |accepted| + |txs| <= |log|
            && (txs != [] ==> Following(log, last, accepted + txs, Some(RecordId(txs[|txs| - 1]))))
            && (|txs| < limit ==> Behind(log, last) + |accepted| + |txs| == |log|)
  {
    hide *;
    DenseIncreasing(log);
    AtIsBehind(log, last, accepted, at);
    ReadMeans(log, at, limit);
    ReadIds(log, at, limit);
    Extended(log, last, accepted, at, ReadAfter(log, at, limit));
  }

  lemma ReadIds(log: seq<Record>, at: Option<I64>, limit: nat)
    requires Dense(log)
    ensures var txs := ReadAfter(log, at, limit);
            && (forall r :: r in txs ==> RecordId(r) >= 0) && |txs| <= limit &&
               (|txs| < limit ==> Behind(log, at) + |txs| == |log|)
  {
    hide Behind;
  }

  lemma Extended(log: seq<Record>, last: Option<I64>, accepted: seq<Record>, at: Option<I64>, txs: seq<Record>)
    requires Following(log, last, accepted, at) && forall r :: r in txs ==> RecordId(r) >= 0
    requires var start := Behind(log, last) + |accepted|; start + |txs| <= |log| && txs == log[start..start + |txs|]
    ensures |accepted| + |txs| <= |log| &&
            (txs != [] ==> Following(log, last, accepted + txs, Some(RecordId(txs[|txs| - 1]))))
  {
    hide Behind;
    var start := Behind(log, last);
    assert log[start..start + |accepted| + |txs|] == accepted + txs;
    if txs != [] { assert txs[|txs| - 1] in txs; }
  }

  lemma Enough(log: seq<Record>, last: Option<I64>, accepted: seq<Record>, at: Option<I64>, max: nat)
    requires Following(log, last, accepted, at) && |accepted| <= max
    requires |accepted| == max || Behind(log, last) + |accepted| == |log|
    ensures accepted == ReadAfter(log, last, max) &&
            at == if accepted == [] then last else Some(RecordId(accepted[|accepted| - 1]))
  {
  }

  lemma Inside(log: seq<Record>, last: Option<I64>, accepted: seq<Record>, at: Option<I64>)
    requires Following(log, last, accepted, at)
    ensures |accepted| <= |log| && (at.Some? ==> at.value >= 0)
  {
    hide Behind;
  }
}
