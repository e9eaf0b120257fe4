/** Entity ids as (partition, counter), and the per-partition counters. */
module Partition {
  import opened Octets
  import opened Values
  import opened Model

  /** Counters take 42 bits, partitions 20. */
  const COUNTER_SPAN: int := 0x400_0000_0000
  const PARTITION_SPAN: int := 0x10_0000

  const DB_PARTITION: nat := 0
  const TX_PARTITION: nat := 1
  const USER_PARTITION: nat := 2

  function MakeEntityId(partition: nat, counter: nat): (e: I64)
    requires partition < PARTITION_SPAN && counter < COUNTER_SPAN
    ensures ExtractPartition(e) == partition && ExtractCounter(e) == counter && e >= 0
  {
    partition * COUNTER_SPAN + counter
  }

  /** Bits 61 to 42; the two top bits are ignored. */
  function ExtractPartition(e: I64): (p: nat)
    ensures p < PARTITION_SPAN
  {
    e / COUNTER_SPAN % PARTITION_SPAN
  }

  /** Bits 41 to 0. */
  function ExtractCounter(e: I64): (c: nat)
    ensures c < COUNTER_SPAN
  {
    e % COUNTER_SPAN
  }

  /** Schema-bound tempids outrank the default partition. */
  function Dominant(a: nat, b: nat): nat {
    if a == DB_PARTITION || b == DB_PARTITION then DB_PARTITION else a
  }

  type Counters = map<nat, nat>

  function CounterOf(pm: Counters, p: nat): nat { if p in pm then pm[p] else 0 }

  predicate Contains(pm: Counters, e: I64) {
    ExtractPartition(e) in pm && ExtractCounter(e) < pm[ExtractPartition(e)]
  }

  /** Record a log-assigned transaction id; ids may skip ahead but not repeat. */
  function SetTx(pm: Counters, txId: nat): Result<Counters> {
    if txId < CounterOf(pm, TX_PARTITION) then Err(false) else Ok(pm[TX_PARTITION := txId + 1])
  }

  ghost predicate InRange(parts: seq<nat>) {
    forall i :: 0 <= i < |parts| ==> parts[i] < PARTITION_SPAN
  }

  datatype Allocation = Allocation(ids: seq<I64>, pm: Counters)

  /** One id per listed partition, in order; a counter past 42 bits panics. */
  function AllocateAll(parts: seq<nat>, pm: Counters): Result<Allocation>
    requires InRange(parts)
  {
    if parts == [] then Ok(Allocation([], pm))
    else
      var p := parts[0];
      var c := CounterOf(pm, p);
      if c >= COUNTER_SPAN then Err(true)
      else
        var rest :- AllocateAll(parts[1..], pm[p := c + 1]);
        Ok(Allocation([MakeEntityId(p, c)] + rest.ids, rest.pm))
  }

  ghost predicate Grows(pm: Counters, pm': Counters) {
    pm.Keys <= pm'.Keys && forall p :: p in pm' ==> CounterOf(pm, p) <= pm'[p]
  }

  lemma GrowsContains(pm: Counters, pm': Counters, e: I64)
    requires Grows(pm, pm') && Contains(pm, e)
    ensures Contains(pm', e)
  {
  }

  /** Counters only grow, and only in the listed partitions. */
  lemma {:induction false} AllocateGrows(parts: seq<nat>, pm: Counters)
    requires InRange(parts) && AllocateAll(parts, pm).Ok?
    ensures var out := AllocateAll(parts, pm).value;
            && |out.ids| == |parts| && Grows(pm, out.pm)
            && (forall p :: p !in parts ==> (p in out.pm <==> p in pm) && CounterOf(out.pm, p) == CounterOf(pm, p))
  {
    if parts != [] {
      AllocateGrows(parts[1..], pm[parts[0] := CounterOf(pm, parts[0]) + 1]);
      assert parts == [parts[0]] + parts[1..];
    }
  }

  /** New ids: in the listed partition, not allocated before, allocated after, all different. */
  lemma {:induction false} AllocateFresh(parts: seq<nat>, pm: Counters)
    requires InRange(parts) && AllocateAll(parts, pm).Ok?
    ensures var out := AllocateAll(parts, pm).value;
            && |out.ids| == |parts|
            && (forall i :: 0 <= i < |parts| ==> NewId(pm, out.pm, parts[i], out.ids[i]))
            && (forall i, j :: 0 <= i < j < |parts| ==> out.ids[i] != out.ids[j])
  {
    if parts != [] {
      var p := parts[0];
      var c := CounterOf(pm, p);
      var mid := pm[p := c + 1];
      AllocateFresh(parts[1..], mid);
      AllocateGrows(parts[1..], mid);
      var rest := AllocateAll(parts[1..], mid).value;
      FirstId(pm, p, c, rest.pm);
      forall i | 0 <= i < |rest.ids|
        ensures NewId(pm, rest.pm, parts[i + 1], rest.ids[i]) && rest.ids[i] != MakeEntityId(p, c)
      {
        LaterId(pm, p, c, rest.pm, parts[1..][i], rest.ids[i]);
      }
    }
  }

  ghost predicate NewId(pm: Counters, pm': Counters, p: nat, e: I64) {
    ExtractPartition(e) == p && !Contains(pm, e) && Contains(pm', e)
  }

  lemma FirstId(pm: Counters, p: nat, c: nat, pm': Counters)
    requires p < PARTITION_SPAN && c < COUNTER_SPAN && c == CounterOf(pm, p) && Grows(pm[p := c + 1], pm')
    ensures NewId(pm, pm', p, MakeEntityId(p, c))
  {
  }

  lemma LaterId(pm: Counters, p: nat, c: nat, pm': Counters, q: nat, e: I64)
    requires p < PARTITION_SPAN && c < COUNTER_SPAN && c == CounterOf(pm, p) && NewId(pm[p := c + 1], pm', q, e)
    ensures NewId(pm, pm', q, e) && e != MakeEntityId(p, c)
  {
  }

  /** Every counter value between the old and the new counter was given out. */
  lemma {:induction false} AllocateCovers(parts: seq<nat>, pm: Counters, p: nat, c: nat)
    requires InRange(parts) && AllocateAll(parts, pm).Ok?
    requires CounterOf(pm, p) <= c < CounterOf(AllocateAll(parts, pm).value.pm, p)
    ensures p < PARTITION_SPAN && c < COUNTER_SPAN && MakeEntityId(p, c) in AllocateAll(parts, pm).value.ids
  {
    if parts == [] {
    } else {
      var q := parts[0];
      var mid := pm[q := CounterOf(pm, q) + 1];
      if !(p == q && c == CounterOf(pm, q)) { AllocateCovers(parts[1..], mid, p, c); }
    }
  }

  /** Counters stay within 42 bits, and only listed partitions are added. */
  lemma {:induction false} AllocateBound(parts: seq<nat>, pm: Counters)
    requires InRange(parts) && AllocateAll(parts, pm).Ok? && forall p :: p in pm ==> pm[p] <= COUNTER_SPAN
    ensures var out := AllocateAll(parts, pm).value.pm;
            forall p :: p in out ==> out[p] <= COUNTER_SPAN && (p in pm || p in parts)
  {
    if parts != [] {
      var next := pm[parts[0] := CounterOf(pm, parts[0]) + 1];
      AllocateBound(parts[1..], next);
      assert parts == [parts[0]] + parts[1..];
    }
  }

  /** The counters of a running indexer. */
  class PartitionMap {
    var counters: Counters

    constructor (counters: Counters)
      ensures this.counters == counters
    {
      this.counters := counters;
    }

    /** `allocate_entid`; the caller has room for another counter value. */
    method AllocateEntid(partition: nat) returns (e: I64)
      requires partition < PARTITION_SPAN && CounterOf(counters, partition) < COUNTER_SPAN
      modifies this
      ensures e == MakeEntityId(partition, CounterOf(old(counters), partition))
      ensures counters == old(counters)[partition := CounterOf(old(counters), partition) + 1]
      ensures !Contains(old(counters), e) && Contains(counters, e) && Grows(old(counters), counters)
    {
      var counter := CounterOf(counters, partition);
      counters := counters[partition := counter + 1];
      e := MakeEntityId(partition, counter);
    }

    method SetTxCounter(txId: nat) returns (ok: bool)
      modifies this
      ensures ok <==> SetTx(old(counters), txId).Ok?
      ensures counters == if ok then SetTx(old(counters), txId).value else old(counters)
      ensures ok ==> forall e :: Contains(old(counters), e) ==> Contains(counters, e)
      ensures ok && txId < COUNTER_SPAN ==> Contains(counters, MakeEntityId(TX_PARTITION, txId))
    {
      var next := CounterOf(counters, TX_PARTITION);
      if txId < next { return false; }
      counters := counters[TX_PARTITION := txId + 1];
      ok := true;
    }

    /** Allocate one id per partition. */
    method AllocateEach(parts: seq<nat>) returns (r: Result<seq<I64>>)
      requires InRange(parts)
      modifies this
      ensures AllocateAll(parts, old(counters)) == if r.Ok? then Ok(Allocation(r.value, counters)) else Err(r.halt)
    {
      var ids: seq<I64> := [];
      ghost var start := counters;
      assert parts[0..] == parts;
      assert AllocateAll(parts, start).Ok? ==>
             [] + AllocateAll(parts, start).value.ids == AllocateAll(parts, start).value.ids;
      for i := 0 to |parts|
        invariant AllocateAll(parts, start) == Prepend(ids, AllocateAll(parts[i..], counters))
      {
        assert parts[i..][0] == parts[i] && parts[i..][1..] == parts[i + 1..];
        if CounterOf(counters, parts[i]) >= COUNTER_SPAN { return Err(true); }
        ghost var rest := AllocateAll(parts[i + 1..], counters[parts[i] := CounterOf(counters, parts[i]) + 1]);
        var e := AllocateEntid(parts[i]);
        assert rest.Ok? ==> ids + ([e] + rest.value.ids) == ids + [e] + rest.value.ids;
        ids := ids + [e];
      }
      assert ids + [] == ids;
      return Ok(ids);
    }
  }

  function Prepend(ids: seq<I64>, r: Result<Allocation>): Result<Allocation> {
    if r.Err? then r else Ok(Allocation(ids + r.value.ids, r.value.pm))
  }
}
