/** Batch lookups against the stored keys: owners of unique values, old values, live triples of entities. */
module Lookup {
  import opened Octets
  import opened Ordered
  import opened Values
  import opened Encode
  import opened Decode
  import opened Scan
  import opened Facts
  import opened Index
  import opened Store

  ghost predicate ValidValues(facts: set<Fact>) {
    forall f :: f in facts ==> Valid(f.v)
  }

  function Elems<T(==)>(s: seq<T>): set<T> { set x | x in s }

  // --- Unique lookups --------------------------------------------------------------------

  /** `prefixes` maps the prefix of each pair in `s` to that pair, and nothing else. */
  ghost predicate VaeTable(prefixes: map<Octets, (I64, DataType)>, s: set<(I64, DataType)>) {
    && (forall l :: l in s ==> VaePrefix(l.0, l.1) in prefixes)
    && (forall p :: p in prefixes ==> prefixes[p] in s && p == VaePrefix(prefixes[p].0, prefixes[p].1))
  }

  lemma VaeTableAligned(keys: seq<Octets>, facts: set<Fact>, unique: set<I64>, a: I64, v: DataType)
    requires RangeOf(keys, VAE, facts, unique)
    ensures Aligned(keys, VaePrefix(a, v))
  {
    forall i | 0 <= i < |keys| && VaePrefix(a, v) <= keys[i]
      ensures |VaePrefix(a, v)| + TX_EID_OP_SUFFIX <= |keys[i]|
    {
      var f := FactAt(keys, VAE, facts, unique, i);
      VaePrefixMeans(a, v, f);
    }
  }

  lemma VaeTableDisjoint(prefixes: map<Octets, (I64, DataType)>, s: set<(I64, DataType)>, sorted: seq<Octets>)
    requires VaeTable(prefixes, s) && sorted == SortedSeq(prefixes.Keys)
    ensures Disjoint(sorted)
  {
    forall i, j | 0 <= i < j < |sorted| ensures Less(sorted[i], sorted[j]) && PrefixFree(sorted[i], sorted[j]) {
      assert sorted[i] in sorted && sorted[j] in sorted;
      var l, m := prefixes[sorted[i]], prefixes[sorted[j]];
      LessAsymmetric(sorted[i], sorted[j]);
      VaePrefixesDisjoint(l.0, l.1, m.0, m.1);
      VaePrefixesDisjoint(m.0, m.1, l.0, l.1);
    }
  }

  /** The answers for the pairs in `s`: a live owner for exactly the pairs that have one. */
  ghost predicate OwnersOf(resolved: map<(I64, DataType), I64>, s: set<(I64, DataType)>, facts: set<Fact>,
                           unique: set<I64>)
  {
    && (forall l :: l in resolved ==> l in s && Live(facts, resolved[l], l.0, l.1))
    && (forall l, e: I64 :: l in s && l.0 in unique && Live(facts, e, l.0, l.1) ==> l in resolved)
  }

  /** `batch_lookup_unique_eids`. */
  method BatchLookupUniqueEids(db: set<Octets>, lookups: seq<(I64, DataType)>, ghost facts: set<Fact>,
                               ghost unique: set<I64>)
    returns (resolved: map<(I64, DataType), I64>)
    requires DbHolds(db, facts, unique) && ValidValues(facts)
    ensures OwnersOf(resolved, Elems(lookups), facts, unique)
  {
    hide *;
    var prefixes: map<Octets, (I64, DataType)> := map[];
    VaeTableStart();
    for i := 0 to |lookups|
      invariant VaeTable(prefixes, Elems(lookups[..i]))
    {
      var l := lookups[i];
      VaeTableStep(prefixes, lookups, i);
      prefixes := prefixes[VaePrefix(l.0, l.1) := l];
    }
    ghost var s := Elems(lookups);
    assert lookups[..|lookups|] == lookups;
    var sorted := SortKeys(prefixes.Keys);
    var keys := ScanIndex(db, VAE, facts, unique);
    VaeTableReady(prefixes, s, sorted, keys, facts, unique);
    var found := BatchFind(keys, sorted);
    var answers := ReadOwners(prefixes, sorted, found, keys, facts, unique);
    resolved := CollectOwners(prefixes, sorted, answers, facts, unique, s);
  }

  lemma VaeTableStart()
    ensures VaeTable(map[], Elems<(I64, DataType)>([]))
  {
  }

  lemma VaeTableStep(prefixes: map<Octets, (I64, DataType)>, lookups: seq<(I64, DataType)>, i: nat)
    requires i < |lookups| && VaeTable(prefixes, Elems(lookups[..i]))
    ensures VaeTable(prefixes[VaePrefix(lookups[i].0, lookups[i].1) := lookups[i]], Elems(lookups[..i + 1]))
  {
    hide VaePrefix;
    assert lookups[..i + 1] == lookups[..i] + [lookups[i]];
  }

  lemma VaeTableReady(prefixes: map<Octets, (I64, DataType)>, s: set<(I64, DataType)>, sorted: seq<Octets>,
                      keys: seq<Octets>,
                      facts: set<Fact>, unique: set<I64>)
    requires VaeTable(prefixes, s) && sorted == SortedSeq(prefixes.Keys) && RangeOf(keys, VAE, facts, unique)
    ensures Disjoint(sorted) && forall q :: q in sorted ==> Aligned(keys, q)
    ensures forall q :: q in sorted ==> q in prefixes && q == VaePrefix(prefixes[q].0, prefixes[q].1)
  {
    VaeTableDisjoint(prefixes, s, sorted);
    forall q | q in sorted ensures Aligned(keys, q) {
      VaeTableAligned(keys, facts, unique, prefixes[q].0, prefixes[q].1);
    }
  }

  /** `r` is a live owner of the pair, or there is none. */
  ghost predicate OwnerAnswer(facts: set<Fact>, unique: set<I64>, l: (I64, DataType), r: Option<I64>) {
    match r
    case Some(e) => Live(facts, e, l.0, l.1)
    case None => l.0 in unique ==> forall e: I64 :: !Live(facts, e, l.0, l.1)
  }

  method ReadOwners(prefixes: map<Octets, (I64, DataType)>, sorted: seq<Octets>, found: seq<Option<Octets>>,
                    ghost keys: seq<Octets>, ghost facts: set<Fact>, ghost unique: set<I64>)
    returns (answers: seq<Option<I64>>)
    requires forall q :: q in sorted ==> q in prefixes && q == VaePrefix(prefixes[q].0, prefixes[q].1)
    requires RangeOf(keys, VAE, facts, unique) && Ordinary(keys) && ValidValues(facts)
    requires |found| == |sorted| && forall i :: 0 <= i < |sorted| ==> FirstLive(keys, sorted[i], found[i])
    ensures |answers| == |sorted|
    ensures forall i :: 0 <= i < |sorted| ==> OwnerAnswer(facts, unique, prefixes[sorted[i]], answers[i])
  {
    hide *;
    answers := [];
    while |answers| < |sorted|
      invariant |answers| <= |sorted|
      invariant forall i :: 0 <= i < |answers| ==> OwnerAnswer(facts, unique, prefixes[sorted[i]], answers[i])
    {
      var q := sorted[|answers|];
      assert q in sorted;
      var r := ReadOwner(prefixes[q], found[|answers|], keys, facts, unique);
      answers := answers + [r];
    }
  }

  method CollectOwners(prefixes: map<Octets, (I64, DataType)>, sorted: seq<Octets>, answers: seq<Option<I64>>,
                       ghost facts: set<Fact>, ghost unique: set<I64>, ghost s: set<(I64, DataType)>)
    returns (resolved: map<(I64, DataType), I64>)
    requires VaeTable(prefixes, s) && sorted == SortedSeq(prefixes.Keys) && |answers| == |sorted|
    requires forall i :: 0 <= i < |sorted| ==> OwnerAnswer(facts, unique, prefixes[sorted[i]], answers[i])
    ensures OwnersOf(resolved, s, facts, unique)
  {
    hide *;
    resolved := map[];
    OwnersStart(prefixes, sorted, answers, facts, s);
    for i := 0 to |sorted|
      invariant OwnersUpTo(resolved, prefixes, sorted, answers, i, facts, s)
    {
      ghost var before := resolved;
      assert sorted[i] in sorted;
      if answers[i].Some? { resolved := resolved[prefixes[sorted[i]] := answers[i].value]; }
      OwnersStep(before, resolved, prefixes, sorted, answers, i, facts, unique, s);
    }
    OwnersDone(resolved, prefixes, sorted, answers, facts, unique, s);
  }

  /** The answers up to `i` are in the map. */
  ghost predicate OwnersUpTo(resolved: map<(I64, DataType), I64>, prefixes: map<Octets, (I64, DataType)>,
                             sorted: seq<Octets>,
                             answers: seq<Option<I64>>, i: nat, facts: set<Fact>, s: set<(I64, DataType)>)
  {
    && |answers| == |sorted| && i <= |sorted| && (forall q :: q in sorted ==> q in prefixes)
    && (forall l :: l in resolved ==> l in s && Live(facts, resolved[l], l.0, l.1))
    && (forall j :: 0 <= j < i && answers[j].Some? ==> sorted[j] in sorted && prefixes[sorted[j]] in resolved)
  }

  lemma OwnersStart(prefixes: map<Octets, (I64, DataType)>, sorted: seq<Octets>, answers: seq<Option<I64>>,
                    facts: set<Fact>, s: set<(I64, DataType)>)
    requires sorted == SortedSeq(prefixes.Keys) && |answers| == |sorted|
    ensures OwnersUpTo(map[], prefixes, sorted, answers, 0, facts, s)
  {
  }

  lemma OwnersStep(before: map<(I64, DataType), I64>, resolved: map<(I64, DataType), I64>, prefixes: map<Octets,
                   (I64, DataType)>,
                   sorted: seq<Octets>, answers: seq<Option<I64>>, i: nat, facts: set<Fact>, unique: set<I64>,
                     s: set<(I64, DataType)>)
    requires OwnersUpTo(before, prefixes, sorted, answers, i, facts, s) && i < |sorted| && VaeTable(prefixes, s)
    requires sorted[i] in prefixes && OwnerAnswer(facts, unique, prefixes[sorted[i]], answers[i])
    requires resolved == if answers[i].Some? then before[prefixes[sorted[i]] := answers[i].value] else before
    ensures OwnersUpTo(resolved, prefixes, sorted, answers, i + 1, facts, s)
  {
    hide Live, VaePrefix;
  }

  lemma OwnersDone(resolved: map<(I64, DataType), I64>, prefixes: map<Octets, (I64, DataType)>, sorted: seq<Octets>,
                   answers: seq<Option<I64>>, facts: set<Fact>, unique: set<I64>, s: set<(I64, DataType)>)
    requires VaeTable(prefixes, s) && sorted == SortedSeq(prefixes.Keys)
    requires OwnersUpTo(resolved, prefixes, sorted, answers, |sorted|, facts, s)
    requires forall i :: 0 <= i < |sorted| ==> OwnerAnswer(facts, unique, prefixes[sorted[i]], answers[i])
    ensures OwnersOf(resolved, s, facts, unique)
  {
    hide VaeTable, LiveAt;
    forall l, e: I64 | l in s && l.0 in unique && Live(facts, e, l.0, l.1) ensures l in resolved {
      VaeTableFinds(prefixes, s, sorted, l);
      var j :| 0 <= j < |sorted| && prefixes[sorted[j]] == l;
      assert OwnerAnswer(facts, unique, l, answers[j]);
    }
  }

  lemma VaeTableFinds(prefixes: map<Octets, (I64, DataType)>, s: set<(I64, DataType)>, sorted: seq<Octets>,
                      l: (I64, DataType))
    requires VaeTable(prefixes, s) && sorted == SortedSeq(prefixes.Keys) && l in s
    ensures exists j :: 0 <= j < |sorted| && prefixes[sorted[j]] == l
  {
    var p := VaePrefix(l.0, l.1);
    assert p in sorted;
    var j :| 0 <= j < |sorted| && sorted[j] == p;
    var m := prefixes[p];
    if m != l { VaePrefixesDisjoint(l.0, l.1, m.0, m.1); }
  }

  method ReadOwner(l: (I64, DataType), found: Option<Octets>, ghost keys: seq<Octets>, ghost facts: set<Fact>,
                   ghost unique: set<I64>)
    returns (r: Option<I64>)
    requires RangeOf(keys, VAE, facts, unique) && Ordinary(keys) && ValidValues(facts)
    requires FirstLive(keys, VaePrefix(l.0, l.1), found)
    ensures OwnerAnswer(facts, unique, l, r)
  {
    hide FirstLive, RangeOf, Enc, LiveAt;
    r := None;
    if found.Some? {
      ghost var f := UniqueFound(keys, facts, unique, l.0, l.1, found.value);
      PartsInvertWriter(VAE, f);
      var parts := KeyToParts(VAE, found.value);
      r := Some(parts.value.entity.i);
    } else {
      forall e: I64 | l.0 in unique ensures !Live(facts, e, l.0, l.1) {
        UniqueMissed(keys, facts, unique, l.0, l.1, e);
      }
    }
  }

  // --- Old values ------------------------------------------------------------------------

  ghost predicate EavTable(prefixes: map<Octets, (I64, I64)>, s: set<(I64, I64)>) {
    && (forall l :: l in s ==> EavPrefix(l.0, l.1) in prefixes)
    && (forall p :: p in prefixes ==> prefixes[p] in s && p == EavPrefix(prefixes[p].0, prefixes[p].1))
  }

  lemma EavTableAligned(keys: seq<Octets>, facts: set<Fact>, unique: set<I64>, e: I64, a: I64)
    requires RangeOf(keys, EAV, facts, unique)
    ensures Aligned(keys, EavPrefix(e, a))
  {
    forall i | 0 <= i < |keys| && EavPrefix(e, a) <= keys[i] ensures |EavPrefix(e, a)| + TX_EID_OP_SUFFIX <= |keys[i]| {
      var f := FactAt(keys, EAV, facts, unique, i);
      EavPrefixMeans(e, a, f);
    }
  }

  /** Prefixes of one length are disjoint as soon as they differ. */
  lemma SameLengthDisjoint(sorted: seq<Octets>, n: nat)
    requires Sorted(sorted) && forall q :: q in sorted ==> |q| == n
    ensures Disjoint(sorted)
  {
    forall i, j | 0 <= i < j < |sorted| ensures PrefixFree(sorted[i], sorted[j]) {
      assert sorted[i] in sorted && sorted[j] in sorted;
      LessAsymmetric(sorted[i], sorted[j]);
    }
  }

  /** A live value for exactly the wanted pairs that have one. */
  ghost predicate OldValuesOf(old_: map<(I64, I64), DataType>, s: set<(I64, I64)>, facts: set<Fact>) {
    && (forall l :: l in old_ ==> l in s && Live(facts, l.0, l.1, old_[l]))
    && (forall l, v :: l in s && Live(facts, l.0, l.1, v) ==> l in old_)
  }

  /** The old-value pass of `finalize_datoms_for_commit`. */
  method BatchOldValues(db: set<Octets>, wanted: set<(I64, I64)>, ghost facts: set<Fact>, ghost unique: set<I64>)
    returns (values: map<(I64, I64), DataType>)
    requires DbHolds(db, facts, unique) && ValidValues(facts)
    ensures OldValuesOf(values, wanted, facts)
  {
    hide *;
    var prefixes: map<Octets, (I64, I64)> := map[];
    var todo := wanted;
    EavTableStart(wanted);
    while todo != {}
      invariant todo <= wanted && EavTable(prefixes, wanted - todo)
      decreases |todo|
    {
      var l :| l in todo;
      ghost var done := wanted - todo;
      EavTableStep(prefixes, done, l);
      prefixes := prefixes[EavPrefix(l.0, l.1) := l];
      todo := todo - {l};
      assert wanted - todo == done + {l};
    }
    assert wanted - todo == wanted;
    var sorted := SortKeys(prefixes.Keys);
    var keys := ScanIndex(db, EAV, facts, unique);
    EavTableReady(prefixes, wanted, sorted, keys, facts, unique);
    var found := BatchFind(keys, sorted);
    var answers := ReadOldValues(prefixes, sorted, found, keys, facts, unique);
    values := CollectOldValues(prefixes, sorted, answers, facts, wanted);
  }

  lemma EavTableStart(s: set<(I64, I64)>)
    ensures EavTable(map[], s - s)
  {
  }

  lemma EavTableStep(prefixes: map<Octets, (I64, I64)>, s: set<(I64, I64)>, l: (I64, I64))
    requires EavTable(prefixes, s)
    ensures EavTable(prefixes[EavPrefix(l.0, l.1) := l], s + {l})
  {
    hide EavPrefix;
  }

  lemma EavTableReady(prefixes: map<Octets, (I64, I64)>, s: set<(I64, I64)>, sorted: seq<Octets>, keys: seq<Octets>,
                      facts: set<Fact>, unique: set<I64>)
    requires EavTable(prefixes, s) && sorted == SortedSeq(prefixes.Keys) && RangeOf(keys, EAV, facts, unique)
    ensures Disjoint(sorted) && forall q :: q in sorted ==> Aligned(keys, q)
    ensures forall q :: q in sorted ==> q in prefixes && q == EavPrefix(prefixes[q].0, prefixes[q].1)
  {
    SameLengthDisjoint(sorted, 18);
    forall q | q in sorted ensures Aligned(keys, q) {
      EavTableAligned(keys, facts, unique, prefixes[q].0, prefixes[q].1);
    }
  }

  ghost predicate OldAnswer(facts: set<Fact>, l: (I64, I64), r: Option<DataType>) {
    match r
    case Some(v) => Live(facts, l.0, l.1, v)
    case None => forall v :: !Live(facts, l.0, l.1, v)
  }

  method ReadOldValues(prefixes: map<Octets, (I64, I64)>, sorted: seq<Octets>, found: seq<Option<Octets>>,
                       ghost keys: seq<Octets>, ghost facts: set<Fact>, ghost unique: set<I64>)
    returns (answers: seq<Option<DataType>>)
    requires forall q :: q in sorted ==> q in prefixes && q == EavPrefix(prefixes[q].0, prefixes[q].1)
    requires RangeOf(keys, EAV, facts, unique) && Ordinary(keys) && ValidValues(facts)
    requires |found| == |sorted| && forall i :: 0 <= i < |sorted| ==> FirstLive(keys, sorted[i], found[i])
    ensures |answers| == |sorted|
    ensures forall i :: 0 <= i < |sorted| ==> OldAnswer(facts, prefixes[sorted[i]], answers[i])
  {
    hide *;
    answers := [];
    while |answers| < |sorted|
      invariant |answers| <= |sorted|
      invariant forall i :: 0 <= i < |answers| ==> OldAnswer(facts, prefixes[sorted[i]], answers[i])
    {
      var q := sorted[|answers|];
      assert q in sorted;
      var r := ReadOldValue(prefixes[q], found[|answers|], keys, facts, unique);
      answers := answers + [r];
    }
  }

  method CollectOldValues(prefixes: map<Octets, (I64, I64)>, sorted: seq<Octets>, answers: seq<Option<DataType>>,
                          ghost facts: set<Fact>, ghost s: set<(I64, I64)>)
    returns (values: map<(I64, I64), DataType>)
    requires EavTable(prefixes, s) && sorted == SortedSeq(prefixes.Keys) && |answers| == |sorted|
    requires forall i :: 0 <= i < |sorted| ==> OldAnswer(facts, prefixes[sorted[i]], answers[i])
    ensures OldValuesOf(values, s, facts)
  {
    hide *;
    values := map[];
    OldValuesStart(prefixes, sorted, answers, facts, s);
    for i := 0 to |sorted|
      invariant OldValuesUpTo(values, prefixes, sorted, answers, i, facts, s)
    {
      ghost var before := values;
      assert sorted[i] in sorted;
      if answers[i].Some? { values := values[prefixes[sorted[i]] := answers[i].value]; }
      OldValuesStep(before, values, prefixes, sorted, answers, i, facts, s);
    }
    OldValuesDone(values, prefixes, sorted, answers, facts, s);
  }

  ghost predicate OldValuesUpTo(values: map<(I64, I64), DataType>, prefixes: map<Octets, (I64, I64)>,
                                sorted: seq<Octets>,
                                answers: seq<Option<DataType>>, i: nat, facts: set<Fact>, s: set<(I64, I64)>)
  {
    && |answers| == |sorted| && i <= |sorted| && (forall q :: q in sorted ==> q in prefixes)
    && (forall l :: l in values ==> l in s && Live(facts, l.0, l.1, values[l]))
    && (forall j :: 0 <= j < i && answers[j].Some? ==> sorted[j] in sorted && prefixes[sorted[j]] in values)
  }

  lemma OldValuesStart(prefixes: map<Octets, (I64, I64)>, sorted: seq<Octets>, answers: seq<Option<DataType>>,
                       facts: set<Fact>, s: set<(I64, I64)>)
    requires sorted == SortedSeq(prefixes.Keys) && |answers| == |sorted|
    ensures OldValuesUpTo(map[], prefixes, sorted, answers, 0, facts, s)
  {
  }

  lemma OldValuesStep(before: map<(I64, I64), DataType>, values: map<(I64, I64), DataType>, prefixes: map<Octets,
                      (I64, I64)>,
                      sorted: seq<Octets>, answers: seq<Option<DataType>>, i: nat, facts: set<Fact>, s: set<(I64, I64)>)
    requires OldValuesUpTo(before, prefixes, sorted, answers, i, facts, s) && i < |sorted| && EavTable(prefixes, s)
    requires sorted[i] in prefixes && OldAnswer(facts, prefixes[sorted[i]], answers[i])
    requires values == if answers[i].Some? then before[prefixes[sorted[i]] := answers[i].value] else before
    ensures OldValuesUpTo(values, prefixes, sorted, answers, i + 1, facts, s)
  {
    hide Live, EavPrefix;
  }

  lemma OldValuesDone(values: map<(I64, I64), DataType>, prefixes: map<Octets, (I64, I64)>, sorted: seq<Octets>,
                      answers: seq<Option<DataType>>, facts: set<Fact>, s: set<(I64, I64)>)
    requires EavTable(prefixes, s) && sorted == SortedSeq(prefixes.Keys)
    requires OldValuesUpTo(values, prefixes, sorted, answers, |sorted|, facts, s)
    requires forall i :: 0 <= i < |sorted| ==> OldAnswer(facts, prefixes[sorted[i]], answers[i])
    ensures OldValuesOf(values, s, facts)
  {
    forall l, v | l in s && Live(facts, l.0, l.1, v) ensures l in values {
      EavTableFinds(prefixes, s, sorted, l);
      var j :| 0 <= j < |sorted| && prefixes[sorted[j]] == l;
      assert OldAnswer(facts, l, answers[j]);
    }
  }

  lemma EavTableFinds(prefixes: map<Octets, (I64, I64)>, s: set<(I64, I64)>, sorted: seq<Octets>, l: (I64, I64))
    requires EavTable(prefixes, s) && sorted == SortedSeq(prefixes.Keys) && l in s
    ensures exists j :: 0 <= j < |sorted| && prefixes[sorted[j]] == l
  {
    var p := EavPrefix(l.0, l.1);
    assert p in sorted;
    var j :| 0 <= j < |sorted| && sorted[j] == p;
    EavPrefixInjective(l.0, l.1, prefixes[p].0, prefixes[p].1);
  }

  method ReadOldValue(l: (I64, I64), found: Option<Octets>, ghost keys: seq<Octets>, ghost facts: set<Fact>,
                      ghost unique: set<I64>)
    returns (r: Option<DataType>)
    requires RangeOf(keys, EAV, facts, unique) && Ordinary(keys) && ValidValues(facts)
    requires FirstLive(keys, EavPrefix(l.0, l.1), found)
    ensures OldAnswer(facts, l, r)
  {
    hide FirstLive, RangeOf, Enc, LiveAt;
    r := None;
    if found.Some? {
      var key := found.value;
      ghost var f := OldValueFound(keys, facts, unique, l.0, l.1, key);
      ExtractorsAgree(EAV, 2, f);
      RoundTrip(f.v, []);
      assert Enc(f.v) + [] == Enc(f.v);
      r := Some(DecValue(key[18..|key| - TX_EID_OP_SUFFIX]).value);
    } else {
      forall v ensures !Live(facts, l.0, l.1, v) { OldValueMissed(keys, facts, unique, l.0, l.1, v); }
    }
  }

  // --- Live triples of entities ----------------------------------------------------------

  datatype Triple = Triple(e: I64, a: I64, v: DataType)

  ghost predicate AllDifferent(triples: seq<Triple>) {
    forall i, j :: 0 <= i < j < |triples| ==> triples[i] != triples[j]
  }

  /** `batch_lookup_active_entity_datoms`: exactly the live triples of the requested entities, each once. */
  method BatchActiveTriples(db: set<Octets>, entities: set<I64>, ghost facts: set<Fact>, ghost unique: set<I64>)
    returns (triples: seq<Triple>)
    requires DbHolds(db, facts, unique) && ValidValues(facts)
    ensures forall t: Triple :: t in triples <==> t.e in entities && Live(facts, t.e, t.a, t.v)
    ensures AllDifferent(triples)
  {
    var prefixes: set<Octets> := {};
    var todo := entities;
    while todo != {}
      invariant todo <= entities
      invariant forall p :: p in prefixes <==> exists e :: e in entities - todo && p == EntityPrefix(e)
      decreases |todo|
    {
      var e :| e in todo;
      prefixes, todo := prefixes + {EntityPrefix(e)}, todo - {e};
    }
    var sorted := SortKeys(prefixes);
    SameLengthDisjoint(sorted, 10);
    var keys := ScanIndex(db, EAV, facts, unique);
    forall q | q in sorted ensures Aligned(keys, q) {
      var e :| e in entities && q == EntityPrefix(e);
      EntityAligned(keys, facts, unique, e);
    }
    var live := BatchCollect(keys, sorted);
    forall k ensures k in live <==> IsLiveKey(facts, entities, k) {
      LiveKeysMean(keys, facts, unique, sorted, entities, k);
    }
    triples := ReadTriples(live, facts, entities);
  }

  lemma EntityAligned(keys: seq<Octets>, facts: set<Fact>, unique: set<I64>, e: I64)
    requires RangeOf(keys, EAV, facts, unique)
    ensures Aligned(keys, EntityPrefix(e))
  {
    forall i | 0 <= i < |keys| && EntityPrefix(e) <= keys[i] ensures |EntityPrefix(e)| + TX_EID_OP_SUFFIX <= |keys[i]| {
      var f := FactAt(keys, EAV, facts, unique, i);
      EntityPrefixMeans(e, f);
    }
  }

  ghost predicate LiveFact(facts: set<Fact>, f: Fact) {
    f in facts && f.op.Assert? && LiveAt(facts, f.e, f.a, f.v, f.tx)
  }

  ghost predicate IsLiveKey(facts: set<Fact>, entities: set<I64>, k: Octets) {
    exists f :: LiveFact(facts, f) && f.e in entities && k == Key(EAV, f)
  }

  lemma LiveKeysMean(keys: seq<Octets>, facts: set<Fact>, unique: set<I64>, sorted: seq<Octets>, entities: set<I64>,
                     k: Octets)
    requires RangeOf(keys, EAV, facts, unique) && Ordinary(keys)
    requires forall p :: p in sorted <==> exists e :: e in entities && p == EntityPrefix(e)
    ensures LiveUnderSome(keys, sorted, |sorted|, k) <==> IsLiveKey(facts, entities, k)
  {
    if LiveUnderSome(keys, sorted, |sorted|, k) {
      var j :| 0 <= j < |sorted| && LiveKey(keys, |keys|, sorted[j], k);
      assert sorted[j] in sorted;
      var e :| e in entities && sorted[j] == EntityPrefix(e);
      EntityScan(keys, facts, unique, e, k);
    }
    if IsLiveKey(facts, entities, k) { LiveKeyFound(keys, facts, unique, sorted, entities, k); }
  }

  lemma LiveKeyFound(keys: seq<Octets>, facts: set<Fact>, unique: set<I64>, sorted: seq<Octets>, entities: set<I64>,
                     k: Octets)
    requires RangeOf(keys, EAV, facts, unique) && Ordinary(keys) && IsLiveKey(facts, entities, k)
    requires forall e :: e in entities ==> EntityPrefix(e) in sorted
    ensures LiveUnderSome(keys, sorted, |sorted|, k)
  {
    hide Key, RangeOf, Ordinary, LiveKey, EntityPrefix, LiveAt;
    var f :| LiveFact(facts, f) && f.e in entities && k == Key(EAV, f);
    EntityScan(keys, facts, unique, f.e, k);
    var j :| 0 <= j < |sorted| && sorted[j] == EntityPrefix(f.e);
  }

  method ReadTriples(live: seq<Octets>, ghost facts: set<Fact>, ghost entities: set<I64>) returns (triples: seq<Triple>)
    requires ValidValues(facts) && Sorted(live) && forall k :: k in live <==> IsLiveKey(facts, entities, k)
    ensures forall t: Triple :: t in triples <==> t.e in entities && Live(facts, t.e, t.a, t.v)
    ensures AllDifferent(triples)
  {
    hide *;
    triples := [];
    for i := 0 to |live|
      invariant |triples| == i
      invariant forall j :: 0 <= j < i ==> SpelledBy(facts, entities, triples[j], live[j])
    {
      assert live[i] in live;
      var t := ReadTriple(live[i], facts, entities);
      triples := triples + [t];
    }
    TriplesComplete(live, facts, entities, triples);
    TriplesDiffer(live, facts, entities, triples);
  }

  /** A live triple has one live key, so different keys spell different triples. */
  lemma TriplesDiffer(live: seq<Octets>, facts: set<Fact>, entities: set<I64>, triples: seq<Triple>)
    requires Sorted(live)
    requires |triples| == |live| && forall j :: 0 <= j < |live| ==> SpelledBy(facts, entities, triples[j], live[j])
    ensures AllDifferent(triples)
  {
    hide *;
    forall i, j | 0 <= i < j < |triples| ensures triples[i] != triples[j] {
      KeysDiffer(live, i, j);
      if triples[i] == triples[j] { OneKeyEach(facts, entities, triples[i], live[i], live[j]); }
    }
    Different(triples);
  }

  lemma KeysDiffer(keys: seq<Octets>, i: nat, j: nat)
    requires Sorted(keys) && i < j < |keys|
    ensures keys[i] != keys[j]
  {
    LessAsymmetric(keys[i], keys[j]);
  }

  lemma OneKeyEach(facts: set<Fact>, entities: set<I64>, t: Triple, k: Octets, l: Octets)
    requires SpelledBy(facts, entities, t, k) && SpelledBy(facts, entities, t, l)
    ensures k == l
  {
    hide Key;
  }

  lemma Different(triples: seq<Triple>)
    requires forall i, j :: 0 <= i < j < |triples| ==> triples[i] != triples[j]
    ensures AllDifferent(triples)
  {
  }

  lemma TriplesComplete(live: seq<Octets>, facts: set<Fact>, entities: set<I64>, triples: seq<Triple>)
    requires forall k :: k in live <==> IsLiveKey(facts, entities, k)
    requires |triples| == |live| && forall j :: 0 <= j < |live| ==> SpelledBy(facts, entities, triples[j], live[j])
    ensures forall t: Triple :: t in triples <==> t.e in entities && Live(facts, t.e, t.a, t.v)
  {
    hide Key, IsLiveKey;
    forall t: Triple ensures t in triples <==> t.e in entities && Live(facts, t.e, t.a, t.v) {
      if t in triples {
        var j :| 0 <= j < |live| && triples[j] == t;
        assert SpelledBy(facts, entities, t, live[j]);
      }
      if t.e in entities && Live(facts, t.e, t.a, t.v) { TripleListed(live, facts, entities, triples, t); }
    }
  }

  /** `k` is the live key of triple `t`. */
  ghost predicate SpelledBy(facts: set<Fact>, entities: set<I64>, t: Triple, k: Octets) {
    exists f :: LiveFact(facts, f) && f.e in entities && k == Key(EAV, f) && t == Triple(f.e, f.a, f.v)
  }

  lemma TripleListed(live: seq<Octets>, facts: set<Fact>, entities: set<I64>, triples: seq<Triple>, t: Triple)
    requires forall k :: k in live <==> IsLiveKey(facts, entities, k)
    requires |triples| == |live| && forall j :: 0 <= j < |live| ==> SpelledBy(facts, entities, triples[j], live[j])
    requires t.e in entities && Live(facts, t.e, t.a, t.v)
    ensures t in triples
  {
    var tx: I64 :| LiveAt(facts, t.e, t.a, t.v, tx);
    var f := Fact(t.e, t.a, t.v, tx, Assert);
    assert LiveFact(facts, f);
    assert Key(EAV, f) in live;
    var j :| 0 <= j < |live| && live[j] == Key(EAV, f);
    var g :| LiveFact(facts, g) && live[j] == Key(EAV, g) && triples[j] == Triple(g.e, g.a, g.v);
    KeyInjective(EAV, f, g);
  }

  method ReadTriple(key: Octets, ghost facts: set<Fact>, ghost entities: set<I64>) returns (t: Triple)
    requires ValidValues(facts) && IsLiveKey(facts, entities, key)
    ensures SpelledBy(facts, entities, t, key)
  {
    ghost var f :| LiveFact(facts, f) && f.e in entities && key == Key(EAV, f);
    PartsInvertWriter(EAV, f);
    var parts := KeyToParts(EAV, key);
    t := Triple(parts.value.entity.i, parts.value.attribute, parts.value.value);
  }
}
