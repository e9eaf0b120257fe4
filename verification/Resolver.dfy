/** The loops of tempid resolution, over the stored keys and the mutable counters. */
module Resolver {
  import opened Octets
  import opened Values
  import opened Facts
  import opened Model
  import opened Store
  import opened Lookup
  import opened Upsert
  import opened Evolution
  import opened Labels
  import opened Partition
  import opened Tempids

  // --- Lookups of one generation ---------------------------------------------------------

  /** Every entity found for a tempid. */
  ghost predicate Candidates(cands: map<TempId, set<I64>>, es: seq<UpsertE>, facts: set<Fact>) {
    && (forall t :: t in cands ==> cands[t] != {})
    && (forall t, e: I64 :: IsCandidate(cands, t, e) <==> Found(es, facts, t, e))
  }

  ghost predicate IsCandidate(cands: map<TempId, set<I64>>, t: TempId, e: I64) {
    t in cands && e in cands[t]
  }

  ghost predicate OneOwnerAll(facts: set<Fact>, unique: set<I64>) {
    forall a :: a in unique ==> OneOwner(facts, a)
  }

  ghost predicate LooksUpUnique(es: seq<UpsertE>, unique: set<I64>) {
    forall u :: u in es ==> u.a in unique
  }

  function Lookups(es: seq<UpsertE>): (r: seq<(I64, DataType)>)
    ensures |r| == |es| && forall i :: 0 <= i < |es| ==> r[i] == (es[i].a, es[i].v)
  {
    seq(|es|, i requires 0 <= i < |es| => (es[i].a, es[i].v))
  }

  /** With one owner per value, the answer of the batch is the hit. */
  lemma AnswerIsHit(resolved: map<(I64, DataType), I64>, s: set<(I64, DataType)>, facts: set<Fact>, unique: set<I64>,
                    l: (I64, DataType))
    requires OwnersOf(resolved, s, facts, unique) && OneOwnerAll(facts, unique) && l in s && l.0 in unique &&
             Reflexive(l.1)
    ensures Hit(facts, l.0, l.1) == if l in resolved then Some(resolved[l]) else None
  {
    hide Live;
    assert OneOwner(facts, l.0);
  }

  lemma FoundAppend(es: seq<UpsertE>, i: nat, facts: set<Fact>, t: TempId, e: I64)
    requires i < |es|
    ensures Found(es[..i + 1], facts, t, e) <==>
            Found(es[..i], facts, t, e) || (es[i].t == t && Hit(facts, es[i].a, es[i].v) == Some(e))
  {
    hide Hit;
    assert es[..i + 1] == es[..i] + [es[i]];
  }

  lemma CandidatesStep(cands: map<TempId, set<I64>>, next: map<TempId, set<I64>>, es: seq<UpsertE>, i: nat,
                       facts: set<Fact>)
    requires i < |es| && Candidates(cands, es[..i], facts)
    requires var hit := Hit(facts, es[i].a, es[i].v);
             next == if hit.None? then cands
                     else cands[es[i].t := (if es[i].t in cands then cands[es[i].t] else {}) + {hit.value}]
    ensures Candidates(next, es[..i + 1], facts)
  {
    hide Hit, Found;
    var hit := Hit(facts, es[i].a, es[i].v);
    forall t | t in next ensures next[t] != {} {
      if hit.Some? && t == es[i].t { assert hit.value in next[t]; } else { assert next[t] == cands[t]; }
    }
    forall t, e: I64 ensures IsCandidate(next, t, e) <==> Found(es[..i + 1], facts, t, e) {
      FoundAppend(es, i, facts, t, e);
      assert IsCandidate(cands, t, e) <==> Found(es[..i], facts, t, e);
    }
  }

  /** A failing fold has seen two entities for one tempid. */
  lemma {:induction false} ResolveFails(es: seq<UpsertE>, facts: set<Fact>, acc: TempMap)
    returns (t: TempId, d: I64, e: I64)
    requires Resolve(es, facts, acc).Err?
    ensures d != e && Found(es, facts, t, e) && (Found(es, facts, t, d) || (t in acc && acc[t] == d))
    ensures Resolve(es, facts, acc) == Err(false)
  {
    hide Hit;
    var hit := Hit(facts, es[0].a, es[0].v);
    assert es[0] in es;
    if hit.Some? && es[0].t in acc && acc[es[0].t] != hit.value {
      t, d, e := es[0].t, acc[es[0].t], hit.value;
    } else {
      var acc' := if hit.None? then acc else acc[es[0].t := hit.value];
      t, d, e := ResolveFails(es[1..], facts, acc');
      FoundLater(es, facts, t, e);
      if Found(es[1..], facts, t, d) { FoundLater(es, facts, t, d); }
    }
  }

  lemma CandidatesDecide(cands: map<TempId, set<I64>>, es: seq<UpsertE>, facts: set<Fact>)
    requires Candidates(cands, es, facts)
    ensures Resolve(es, facts, map[]).Ok? <==> forall t :: t in cands ==> |cands[t]| == 1
    ensures Resolve(es, facts, map[]).Err? ==> !Resolve(es, facts, map[]).halt
  {
    hide Hit, Resolve;
    if Resolve(es, facts, map[]).Ok? {
      ResolveMeans(es, facts, map[]);
      var m := Resolve(es, facts, map[]).value;
      forall t | t in cands ensures |cands[t]| == 1 {
        forall e | e in cands[t] ensures t in m && e == m[t] {
          assert IsCandidate(cands, t, e);
          FoundBinds(es, facts, m, t, e);
        }
        var e :| e in cands[t];
        assert cands[t] == {e};
      }
    } else {
      var t, d, e := ResolveFails(es, facts, map[]);
      assert IsCandidate(cands, t, d) && IsCandidate(cands, t, e);
      if |cands[t]| == 1 { OneElement(cands[t], d, e); }
    }
  }

  lemma FoundBinds(es: seq<UpsertE>, facts: set<Fact>, m: TempMap, t: TempId, e: I64)
    requires Found(es, facts, t, e)
    requires forall u :: u in es && Hit(facts, u.a, u.v).Some? ==> u.t in m && m[u.t] == Hit(facts, u.a, u.v).value
    ensures t in m && m[t] == e
  {
    hide Hit;
    var u :| u in es && u.t == t && Hit(facts, u.a, u.v) == Some(e);
  }

  lemma OneElement<T>(s: set<T>, x: T, y: T)
    requires |s| == 1 && x in s && y in s
    ensures x == y
  {
    assert |s - {x}| == 0;
  }

  lemma CandidatesBind(cands: map<TempId, set<I64>>, es: seq<UpsertE>, facts: set<Fact>, m: TempMap)
    requires Candidates(cands, es, facts) && Resolve(es, facts, map[]).Ok?
    requires m.Keys == cands.Keys && forall t :: t in m ==> m[t] in cands[t]
    ensures Resolve(es, facts, map[]).value == m
  {
    hide Hit, Resolve, Found;
    ResolveMeans(es, facts, map[]);
    var r := Resolve(es, facts, map[]).value;
    forall t | t in m ensures t in r && r[t] == m[t] {
      assert IsCandidate(cands, t, m[t]);
      FoundBinds(es, facts, r, t, m[t]);
    }
    forall t | t in r ensures t in m { assert Found(es, facts, t, r[t]); }
  }

  /** `resolve_temp_id_avs`: collect every entity found per tempid; more than one is a conflict. */
  method ResolveTempIdAvs(es: seq<UpsertE>, db: set<Octets>, ghost facts: set<Fact>, ghost unique: set<I64>)
    returns (r: Result<TempMap>)
    requires DbHolds(db, facts, unique) && ValidValues(facts) && OneOwnerAll(facts, unique) && LooksUpUnique(es, unique)
    ensures r == Resolve(es, facts, map[])
  {
    hide *;
    var lookups := Lookups(es);
    var resolved := BatchLookupUniqueEids(db, lookups, facts, unique);
    var cands: map<TempId, set<I64>> := map[];
    CandidatesStart(es, facts);
    for i := 0 to |es|
      invariant Candidates(cands, es[..i], facts)
    {
      var l := lookups[i];
      ghost var before := cands;
      NextLookup(es, i, resolved, facts, unique);
      if Reflexive(l.1) && l in resolved {
        var seen := if es[i].t in cands then cands[es[i].t] else {};
        cands := cands[es[i].t := seen + {resolved[l]}];
      }
      CandidatesStep(before, cands, es, i, facts);
    }
    assert es[..|es|] == es;
    r := Bind(cands, es, facts);
  }

  lemma CandidatesStart(es: seq<UpsertE>, facts: set<Fact>)
    ensures Candidates(map[], es[..0], facts)
  {
  }

  lemma NextLookup(es: seq<UpsertE>, i: nat, resolved: map<(I64, DataType), I64>, facts: set<Fact>, unique: set<I64>)
    requires i < |es| && OwnersOf(resolved, Elems(Lookups(es)), facts, unique)
    requires OneOwnerAll(facts, unique) && LooksUpUnique(es, unique)
    ensures var l := Lookups(es)[i];
            Hit(facts, es[i].a, es[i].v) == if Reflexive(l.1) && l in resolved then Some(resolved[l]) else None
  {
    var l := Lookups(es)[i];
    assert es[i] in es && l in Elems(Lookups(es));
    if Reflexive(l.1) { AnswerIsHit(resolved, Elems(Lookups(es)), facts, unique, l); }
  }

  /** The second pass: one candidate binds, several are a conflict. */
  method Bind(cands: map<TempId, set<I64>>, ghost es: seq<UpsertE>, ghost facts: set<Fact>) returns (r: Result<TempMap>)
    requires Candidates(cands, es, facts)
    ensures r == Resolve(es, facts, map[])
  {
    hide *;
    CandidatesDecide(cands, es, facts);
    CandidatesNonEmpty(cands, es, facts);
    var m: TempMap := map[];
    var conflicts: set<TempId> := {};
    var todo := cands.Keys;
    SortingStart(cands);
    while todo != {}
      invariant todo <= cands.Keys && Sorting(cands, m, conflicts, todo)
      decreases |todo|
    {
      var t :| t in todo;
      SortingStep(cands, m, conflicts, todo, t);
      todo := todo - {t};
      if |cands[t]| == 1 {
        var e :| e in cands[t];
        m := m[t := e];
      } else {
        conflicts := conflicts + {t};
      }
    }
    SortingDone(cands, m, conflicts);
    if conflicts != {} { return Err(false); }
    CandidatesBind(cands, es, facts, m);
    return Ok(m);
  }

  /** The tempids done so far are bound or in conflict. */
  ghost predicate Sorting(cands: map<TempId, set<I64>>, m: TempMap, conflicts: set<TempId>, todo: set<TempId>) {
    && m.Keys + conflicts == cands.Keys - todo
    && (forall t :: t in m ==> m[t] in cands[t] && |cands[t]| == 1)
    && (forall t :: t in conflicts ==> |cands[t]| != 1)
  }

  lemma SortingStart(cands: map<TempId, set<I64>>)
    ensures Sorting(cands, map[], {}, cands.Keys)
  {
  }

  lemma SortingStep(cands: map<TempId, set<I64>>, m: TempMap, conflicts: set<TempId>, todo: set<TempId>, t: TempId)
    requires Sorting(cands, m, conflicts, todo) && t in todo && t in cands
    ensures |cands[t]| == 1 ==> forall e :: e in cands[t] ==> Sorting(cands, m[t := e], conflicts, todo - {t})
    ensures |cands[t]| != 1 ==> Sorting(cands, m, conflicts + {t}, todo - {t})
  {
    assert m.Keys + conflicts + {t} == cands.Keys - (todo - {t});
  }

  lemma SortingDone(cands: map<TempId, set<I64>>, m: TempMap, conflicts: set<TempId>)
    requires Sorting(cands, m, conflicts, {})
    ensures conflicts == {} <==> forall t :: t in cands ==> |cands[t]| == 1
    ensures conflicts == {} ==> m.Keys == cands.Keys && forall t :: t in m ==> m[t] in cands[t]
  {
    assert m.Keys + conflicts == cands.Keys;
    if conflicts != {} {
      var t :| t in conflicts;
      assert t in cands && |cands[t]| != 1;
    }
  }

  lemma CandidatesNonEmpty(cands: map<TempId, set<I64>>, es: seq<UpsertE>, facts: set<Fact>)
    requires Candidates(cands, es, facts)
    ensures forall t :: t in cands ==> cands[t] != {}
  {
  }

  /** `record_resolutions`: insert one by one, noting disagreements. */
  method RecordResolutions(r: TempMap, m: TempMap) returns (out: Result<TempMap>)
    ensures out == Record(r, m)
  {
    var bound := r;
    var conflicts: set<TempId> := {};
    var todo := m.Keys;
    while todo != {}
      invariant todo <= m.Keys && Recording(r, m, bound, conflicts, todo)
      decreases |todo|
    {
      hide *;
      var t :| t in todo;
      RecordingStep(r, m, bound, conflicts, todo, t);
      if t in bound && bound[t] != m[t] { conflicts := conflicts + {t}; }
      bound := bound[t := m[t]];
      todo := todo - {t};
    }
    if conflicts != {} {
      ghost var t :| t in conflicts;
      return Err(false);
    }
    assert bound == r + m;
    return Ok(bound);
  }

  /** What has been inserted, and which tempids disagreed. */
  ghost predicate Recording(r: TempMap, m: TempMap, bound: TempMap, conflicts: set<TempId>, todo: set<TempId>) {
    && bound.Keys == r.Keys + (m.Keys - todo)
    && (forall t :: t in bound ==> bound[t] == if t in m && t !in todo then m[t] else r[t])
    && (forall t :: t in conflicts <==> t in m && t !in todo && t in r && r[t] != m[t])
  }

  lemma RecordingStep(r: TempMap, m: TempMap, bound: TempMap, conflicts: set<TempId>, todo: set<TempId>, t: TempId)
    requires Recording(r, m, bound, conflicts, todo) && t in todo && t in m
    ensures Recording(r, m, bound[t := m[t]],
            if t in bound && bound[t] != m[t] then conflicts + {t} else conflicts, todo - {t})
  {
  }

  // --- Partitions ------------------------------------------------------------------------

  /** A partition for exactly the tempids in entity position; `:db/ident` always wins. */
  ghost predicate Inferred(out: map<TempId, nat>, datoms: seq<TDatom>) {
    forall t ::
      && (t in out <==> exists d :: d in datoms && d.e == Temp(t))
      && (t in out ==> out[t] == if NamesIdent(datoms, t) then DB_PARTITION else USER_PARTITION)
  }

  lemma InferStep(out: map<TempId, nat>, datoms: seq<TDatom>, i: nat, t: TempId)
    requires i < |datoms| && Inferred(out, datoms[..i])
    ensures var d := datoms[i];
            var next := if !d.e.Temp? then out
                        else if d.op == Assert && d.a == KW_IDENT then out[d.e.t := DB_PARTITION]
                        else if d.e.t in out then out else out[d.e.t := USER_PARTITION];
            && (t in next <==> exists d :: d in datoms[..i + 1] && d.e == Temp(t))
            && (t in next ==> next[t] == if NamesIdent(datoms[..i + 1], t) then DB_PARTITION else USER_PARTITION)
  {
    assert datoms[..i + 1] == datoms[..i] + [datoms[i]];
    assert NamesIdent(datoms[..i + 1], t) <==>
      NamesIdent(datoms[..i], t) || (datoms[i].e == Temp(t) && datoms[i].op.Assert? && datoms[i].a == KW_IDENT);
    assert (exists d :: d in datoms[..i + 1] && d.e == Temp(t)) <==>
      (exists d :: d in datoms[..i] && d.e == Temp(t)) || datoms[i].e == Temp(t);
    if NamesIdent(datoms[..i], t) {
      assert exists d :: d in datoms[..i] && d.e == Temp(t);
    }
  }

  method InferTempidPartitions(datoms: seq<TDatom>) returns (out: map<TempId, nat>)
    ensures Inferred(out, datoms)
  {
    out := map[];
    assert forall t :: !NamesIdent(datoms[..0], t);
    hide NamesIdent;
    for i := 0 to |datoms|
      invariant Inferred(out, datoms[..i])
    {
      var d := datoms[i];
      ghost var before := out;
      if d.e.Temp? {
        if d.op == Assert && d.a == KW_IDENT {
          out := out[d.e.t := DB_PARTITION];
        } else if d.e.t !in out {
          out := out[d.e.t := USER_PARTITION];
        }
      }
      forall t
        ensures t in out <==> exists d :: d in datoms[..i + 1] && d.e == Temp(t)
        ensures t in out ==> out[t] == if NamesIdent(datoms[..i + 1], t) then DB_PARTITION else USER_PARTITION
      {
        InferStep(before, datoms, i, t);
      }
    }
    assert datoms[..|datoms|] == datoms;
  }

  /** One more than the greatest label. */
  method CountLabels(labels: map<TempId, nat>, ghost tempids: set<TempId>, ghost edges: Edges) returns (n: nat)
    requires IsLabelling(labels, tempids, edges)
    ensures n == LabelCount(labels)
  {
    n := 0;
    var todo := labels.Keys;
    while todo != {}
      invariant todo <= labels.Keys
      invariant forall t :: t in labels.Keys - todo ==> labels[t] < n
      invariant n == 0 || Used(labels, n - 1)
      decreases |todo|
    {
      var t :| t in todo;
      if n <= labels[t] { n := labels[t] + 1; }
      todo := todo - {t};
    }
    LabellingDense(labels, tempids, edges);
    CountIs(labels, n);
  }

  lemma CountIs(labels: map<TempId, nat>, n: nat)
    requires exists k: nat :: Dense(labels, k)
    requires (forall t :: t in labels ==> labels[t] < n) && (n == 0 || Used(labels, n - 1))
    ensures n == LabelCount(labels)
  {
    var k := LabelCount(labels);
    assert Dense(labels, k);
    assert n < k ==> Used(labels, n);
  }

  /** The labels seen so far have their class's partition, as far as seen. */
  ghost predicate Partitioned(parts: seq<nat>, datoms: seq<TDatom>, labels: map<TempId, nat>, todo: set<TempId>) {
    forall k: nat :: k < |parts| ==>
      parts[k] == if SeenIdent(datoms, labels, todo, k) then DB_PARTITION else USER_PARTITION
  }

  ghost predicate SeenIdent(datoms: seq<TDatom>, labels: map<TempId, nat>, todo: set<TempId>, k: nat) {
    exists t :: t in labels && t !in todo && labels[t] == k && NamesIdent(datoms, t)
  }

  lemma PartitionedStep(parts: seq<nat>, inferred: map<TempId, nat>, datoms: seq<TDatom>, labels: map<TempId, nat>,
                        todo: set<TempId>, t: TempId)
    requires Inferred(inferred, datoms) && Partitioned(parts, datoms, labels, todo) && t in todo && t in labels &&
             labels[t] < |parts|
    ensures var l := labels[t];
            Partitioned(if t in inferred then parts[l := Dominant(parts[l], inferred[t])]
              else parts, datoms, labels, todo - {t})
  {
    var l := labels[t];
    var next := if t in inferred then parts[l := Dominant(parts[l], inferred[t])] else parts;
    forall k: nat | k < |parts|
      ensures next[k] == if SeenIdent(datoms, labels, todo - {t}, k) then DB_PARTITION else USER_PARTITION
    {
      SeenOne(datoms, labels, todo, t, k);
      NamesMeansInferred(inferred, datoms, t);
    }
  }

  lemma SeenOne(datoms: seq<TDatom>, labels: map<TempId, nat>, todo: set<TempId>, t: TempId, k: nat)
    requires t in todo && t in labels
    ensures SeenIdent(datoms, labels, todo - {t}, k) <==>
            SeenIdent(datoms, labels, todo, k) || (labels[t] == k && NamesIdent(datoms, t))
  {
    hide NamesIdent;
    if SeenIdent(datoms, labels, todo, k) {
      var u :| u in labels && u !in todo && labels[u] == k && NamesIdent(datoms, u);
      assert u !in todo - {t};
    }
  }

  lemma NamesMeansInferred(inferred: map<TempId, nat>, datoms: seq<TDatom>, t: TempId)
    requires Inferred(inferred, datoms)
    ensures NamesIdent(datoms, t) ==> t in inferred
    ensures t in inferred ==> inferred[t] == if NamesIdent(datoms, t) then DB_PARTITION else USER_PARTITION
  {
    if NamesIdent(datoms, t) {
      var d :| d in datoms && d.e == Temp(t) && d.op.Assert? && d.a == KW_IDENT;
    }
  }

  lemma PartitionedDone(parts: seq<nat>, datoms: seq<TDatom>, labels: map<TempId, nat>)
    requires Partitioned(parts, datoms, labels, {}) && |parts| == LabelCount(labels)
    ensures parts == ClassPartitions(datoms, labels)
  {
    hide NamesIdent;
    forall k: nat | k < |parts| ensures SeenIdent(datoms, labels, {}, k) <==> ClassNamesIdent(datoms, labels, k) {
      if SeenIdent(datoms, labels, {}, k) {
        var t :| t in labels && t !in {} && labels[t] == k && NamesIdent(datoms, t);
      }
      if ClassNamesIdent(datoms, labels, k) {
        var t :| t in labels && labels[t] == k && NamesIdent(datoms, t);
        assert t !in {};
      }
    }
  }

  method AllocationPartitions(inferred: map<TempId, nat>, labels: map<TempId, nat>,
                              ghost datoms: seq<TDatom>, ghost tempids: set<TempId>, ghost edges: Edges)
    returns (parts: seq<nat>)
    requires Inferred(inferred, datoms) && IsLabelling(labels, tempids, edges)
    ensures parts == ClassPartitions(datoms, labels)
  {
    hide *;
    var n := CountLabels(labels, tempids, edges);
    LabelsInRange(labels, tempids, edges);
    parts := seq(n, _ => USER_PARTITION);
    var todo := labels.Keys;
    PartitionedStart(parts, datoms, labels);
    while todo != {}
      invariant todo <= labels.Keys && |parts| == n && Partitioned(parts, datoms, labels, todo)
      decreases |todo|
    {
      var t :| t in todo;
      PartitionedStep(parts, inferred, datoms, labels, todo, t);
      if t in inferred {
        parts := parts[labels[t] := Dominant(parts[labels[t]], inferred[t])];
      }
      todo := todo - {t};
    }
    PartitionedDone(parts, datoms, labels);
  }

  lemma PartitionedStart(parts: seq<nat>, datoms: seq<TDatom>, labels: map<TempId, nat>)
    requires forall k :: 0 <= k < |parts| ==> parts[k] == USER_PARTITION
    ensures Partitioned(parts, datoms, labels, labels.Keys)
  {
  }

  lemma LabelsInRange(labels: map<TempId, nat>, tempids: set<TempId>, edges: Edges)
    requires IsLabelling(labels, tempids, edges)
    ensures forall t :: t in labels ==> labels[t] < LabelCount(labels)
  {
    LabellingDense(labels, tempids, edges);
  }

  // --- Labels of what is left ------------------------------------------------------------

  type IdentityKey = (I64, ValueT)

  predicate FindsItself(v: ValueT) { v.Data? ==> Reflexive(v.v) }

  /** `d` asserts the identity `k` for a tempid. */
  predicate AssertsKey(d: TDatom, schema: Schema, k: IdentityKey) {
    AssertsIdentity(d, schema) && GetAttribute(schema, d.a).value.id == k.0 && d.v == k.1
  }

  ghost predicate HasKey(ds: seq<TDatom>, schema: Schema, k: IdentityKey, t: TempId) {
    exists d :: d in ds && AssertsKey(d, schema, k) && d.e == Temp(t)
  }

  /** One group per identity that equals itself, and a group of its own for every other assertion. */
  ghost predicate Grouped(groups: map<IdentityKey, Group>, lone: seq<Group>, ds: seq<TDatom>, schema: Schema) {
    && (forall k :: k in groups ==> FindsItself(k.1))
    && (forall k, t :: InGroup(groups, k, t) <==> FindsItself(k.1) && HasKey(ds, schema, k, t))
    && (forall g :: g in lone ==> exists t :: g == [t] && t in EntityTempIds(ds))
  }

  ghost predicate InGroup(groups: map<IdentityKey, Group>, k: IdentityKey, t: TempId) {
    k in groups && t in groups[k]
  }

  lemma HasKeyAppend(ds: seq<TDatom>, i: nat, schema: Schema, k: IdentityKey, t: TempId)
    requires i < |ds|
    ensures HasKey(ds[..i + 1], schema, k, t) <==>
            HasKey(ds[..i], schema, k, t) || (AssertsKey(ds[i], schema, k) && ds[i].e == Temp(t))
  {
    hide AssertsKey;
    assert ds[..i + 1] == ds[..i] + [ds[i]];
  }

  lemma EntitiesAppend(ds: seq<TDatom>, i: nat)
    requires i < |ds|
    ensures EntityTempIds(ds[..i + 1]) == EntityTempIds(ds[..i]) +
            if ds[i].op.Assert? && ds[i].e.Temp? then {ds[i].e.t} else {}
  {
    assert ds[..i + 1] == ds[..i] + [ds[i]];
  }

  lemma GroupedSkip(groups: map<IdentityKey, Group>, lone: seq<Group>, ds: seq<TDatom>, i: nat, schema: Schema)
    requires i < |ds| && Grouped(groups, lone, ds[..i], schema) && !AssertsIdentity(ds[i], schema)
    ensures Grouped(groups, lone, ds[..i + 1], schema)
  {
    hide HasKey, EntityTempIds;
    EntitiesAppend(ds, i);
    forall k, t ensures InGroup(groups, k, t) <==> FindsItself(k.1) && HasKey(ds[..i + 1], schema, k, t) {
      HasKeyAppend(ds, i, schema, k, t);
    }
  }

  lemma GroupedPush(groups: map<IdentityKey, Group>, lone: seq<Group>, ds: seq<TDatom>, i: nat, schema: Schema,
                    key: IdentityKey)
    requires i < |ds| && Grouped(groups, lone, ds[..i], schema) && AssertsKey(ds[i], schema, key) && FindsItself(key.1)
    ensures Grouped(groups[key := (if key in groups then groups[key] else []) + [ds[i].e.t]], lone, ds[..i + 1], schema)
  {
    hide HasKey, EntityTempIds;
    var next := groups[key := (if key in groups then groups[key] else []) + [ds[i].e.t]];
    EntitiesAppend(ds, i);
    forall k, t ensures InGroup(next, k, t) <==> FindsItself(k.1) && HasKey(ds[..i + 1], schema, k, t) {
      HasKeyAppend(ds, i, schema, k, t);
      assert InGroup(groups, k, t) <==> FindsItself(k.1) && HasKey(ds[..i], schema, k, t);
    }
  }

  lemma GroupedLone(groups: map<IdentityKey, Group>, lone: seq<Group>, ds: seq<TDatom>, i: nat, schema: Schema,
                    key: IdentityKey)
    requires i < |ds| && Grouped(groups, lone, ds[..i], schema) && AssertsKey(ds[i], schema, key) && !FindsItself(key.1)
    ensures Grouped(groups, lone + [[ds[i].e.t]], ds[..i + 1], schema)
  {
    hide HasKey, EntityTempIds;
    EntitiesAppend(ds, i);
    forall k, t ensures InGroup(groups, k, t) <==> FindsItself(k.1) && HasKey(ds[..i + 1], schema, k, t) {
      HasKeyAppend(ds, i, schema, k, t);
    }
    var t := ds[i].e.t;
    assert [t] == [ds[i].e.t];
  }

  /** All groups of the table, in some order. */
  ghost predicate Listed(all: seq<Group>, groups: map<IdentityKey, Group>, lone: seq<Group>) {
    forall g :: g in all <==> g in lone || exists k :: k in groups && groups[k] == g
  }

  lemma CliqueWithin(all: seq<Group>, groups: map<IdentityKey, Group>, lone: seq<Group>, ds: seq<TDatom>,
                     schema: Schema, x: TempId, y: TempId)
    requires Grouped(groups, lone, ds, schema) && Listed(all, groups, lone) && Adjacent(Clique(all), x, y)
    ensures Joined(IdentityEdges(ds, schema), x, y)
  {
    var g :| g in all && x in g && y in g;
    if g in lone {
      JoinedSelf(IdentityEdges(ds, schema), x);
    } else {
      var k :| k in groups && groups[k] == g;
      assert InGroup(groups, k, x) && InGroup(groups, k, y);
      var d :| d in ds && AssertsKey(d, schema, k) && d.e == Temp(x);
      var f :| f in ds && AssertsKey(f, schema, k) && f.e == Temp(y);
      assert SharesIdentity(d, f, schema);
      JoinedEdge(IdentityEdges(ds, schema), x, y);
    }
  }

  lemma EdgesWithin(all: seq<Group>, groups: map<IdentityKey, Group>, lone: seq<Group>, ds: seq<TDatom>, schema: Schema,
                    x: TempId, y: TempId)
    requires Grouped(groups, lone, ds, schema) && Listed(all, groups, lone) && (x, y) in IdentityEdges(ds, schema)
    ensures (x, y) in Clique(all)
  {
    var d, f :| d in ds && f in ds && SharesIdentity(d, f, schema) && (x, y) == (d.e.t, f.e.t);
    var k := (GetAttribute(schema, d.a).value.id, d.v);
    assert HasKey(ds, schema, k, x) && HasKey(ds, schema, k, y);
    assert InGroup(groups, k, x) && InGroup(groups, k, y);
    assert groups[k] in all;
  }

  lemma SameClasses(all: seq<Group>, groups: map<IdentityKey, Group>, lone: seq<Group>, ds: seq<TDatom>, schema: Schema)
    requires Grouped(groups, lone, ds, schema) && Listed(all, groups, lone)
    ensures Labelling(EntityTempIds(ds), Clique(all)) == LabelsOf(ds, schema)
  {
    hide Labelling, Grouped, Listed, IdentityEdges, Clique;
    var edges, clique, tempids := IdentityEdges(ds, schema), Clique(all), EntityTempIds(ds);
    forall x, y | Adjacent(clique, x, y)
      ensures Joined(edges, x, y)
    {
      CliqueWithin(all, groups, lone, ds, schema, x, y);
    }
    forall p | p in edges ensures p in clique { EdgesWithin(all, groups, lone, ds, schema, p.0, p.1); }
    SameLabels(tempids, clique, edges);
  }

  lemma SameLabels(tempids: set<TempId>, clique: Edges, edges: Edges)
    requires edges <= clique && forall x, y :: Adjacent(clique, x, y) ==> Joined(edges, x, y)
    ensures Labelling(tempids, clique) == Labelling(tempids, edges)
  {
    hide Labelling;
    LabellingHolds(tempids, clique);
    LabellingHolds(tempids, edges);
    forall t, u ensures Joined(clique, t, u) <==> Joined(edges, t, u) {
      if Joined(clique, t, u) { JoinedWithin(clique, edges, t, u); }
      if Joined(edges, t, u) { JoinedMonotone(edges, clique, t, u); }
    }
    hide Joined;
    LabellingUnique(Labelling(tempids, clique), Labelling(tempids, edges), tempids, edges);
  }

  /** The state of the scan over the first `i` allocations. */
  ghost predicate Scanned(tempids: set<TempId>, refs: set<TempId>, ds: seq<TDatom>, i: nat, schema: Schema) {
    && i <= |ds| && tempids == EntityTempIds(ds[..i])
    && (forall t :: t in refs <==> ValueRef(ds[..i], t))
    && (forall j :: 0 <= j < i ==> Acceptable(ds[j], schema))
  }

  ghost predicate ValueRef(ds: seq<TDatom>, t: TempId) {
    exists d :: d in ds && d.op.Assert? && d.v == TempRef(t)
  }

  predicate Acceptable(d: TDatom, schema: Schema) {
    !Dangling(d) && (d.op.Assert? ==> GetAttribute(schema, d.a).Some?)
  }

  lemma ScannedStep(tempids: set<TempId>, refs: set<TempId>, ds: seq<TDatom>, i: nat, schema: Schema)
    requires i < |ds| && Scanned(tempids, refs, ds, i, schema) && Acceptable(ds[i], schema)
    ensures var d := ds[i];
            Scanned(if d.op.Assert? && d.e.Temp? then tempids + {d.e.t} else tempids,
                    if d.op.Assert? && d.v.TempRef? then refs + {d.v.t} else refs, ds, i + 1, schema)
  {
    hide EntityTempIds, Acceptable;
    EntitiesAppend(ds, i);
    assert ds[..i + 1] == ds[..i] + [ds[i]];
  }

  lemma ScannedDone(tempids: set<TempId>, refs: set<TempId>, ds: seq<TDatom>, schema: Schema)
    requires Scanned(tempids, refs, ds, |ds|, schema)
    ensures tempids == EntityTempIds(ds) && (Allocatable(ds, schema) <==> refs <= tempids)
  {
    assert ds[..|ds|] == ds;
    if Allocatable(ds, schema) {
      forall t | t in refs ensures t in tempids { assert ValueRef(ds, t); }
    }
    if refs <= tempids {
      forall d | d in ds && d.op.Assert? && d.v.TempRef? ensures d.v.t in tempids { assert ValueRef(ds, d.v.t); }
    }
  }

  lemma Unacceptable(ds: seq<TDatom>, i: nat, schema: Schema)
    requires i < |ds| && !Acceptable(ds[i], schema)
    ensures !Allocatable(ds, schema)
  {
    assert ds[i] in ds;
  }

  lemma ScanStart(ds: seq<TDatom>, schema: Schema)
    ensures Scanned({}, {}, ds, 0, schema) && Grouped(map[], [], ds[..0], schema)
  {
  }

  lemma GroupsWithin(all: seq<Group>, groups: map<IdentityKey, Group>, lone: seq<Group>, ds: seq<TDatom>,
                     schema: Schema)
    requires Grouped(groups, lone, ds, schema) && Listed(all, groups, lone)
    ensures forall g, t :: g in all && t in g ==> t in EntityTempIds(ds)
  {
    forall g, t | g in all && t in g ensures t in EntityTempIds(ds) {
      if g !in lone {
        var k :| k in groups && groups[k] == g;
        assert InGroup(groups, k, t);
        var d :| d in ds && AssertsKey(d, schema, k) && d.e == Temp(t);
      }
    }
  }

  /** Where one assertion of an identity goes. */
  method AddToGroup(groups: map<IdentityKey, Group>, lone: seq<Group>, ds: seq<TDatom>, i: nat, schema: Schema)
    returns (groups': map<IdentityKey, Group>, lone': seq<Group>)
    requires i < |ds| && Grouped(groups, lone, ds[..i], schema) && Acceptable(ds[i], schema)
    ensures Grouped(groups', lone', ds[..i + 1], schema)
  {
    hide Grouped;
    groups', lone' := groups, lone;
    var d := ds[i];
    if AssertsIdentity(d, schema) {
      var key := (GetAttribute(schema, d.a).value.id, d.v);
      if FindsItself(d.v) {
        GroupedPush(groups, lone, ds, i, schema, key);
        groups' := groups[key := (if key in groups then groups[key] else []) + [d.e.t]];
      } else {
        GroupedLone(groups, lone, ds, i, schema, key);
        lone' := lone + [[d.e.t]];
      }
    } else {
      GroupedSkip(groups, lone, ds, i, schema);
    }
  }

  method ListGroups(groups: map<IdentityKey, Group>, lone: seq<Group>) returns (all: seq<Group>)
    ensures Listed(all, groups, lone)
  {
    all := lone;
    var todo := groups.Keys;
    while todo != {}
      invariant todo <= groups.Keys
      invariant forall g :: g in all <==> g in lone || exists k :: k in groups && k !in todo && groups[k] == g
      decreases |todo|
    {
      var k :| k in todo;
      all := all + [groups[k]];
      todo := todo - {k};
    }
  }

  /** `temp_ids_in_allocations`. */
  method TempIdsInAllocations(ds: seq<TDatom>, schema: Schema) returns (r: Result<map<TempId, nat>>)
    ensures r == if Allocatable(ds, schema) then Ok(LabelsOf(ds, schema)) else Err(false)
  {
    hide *;
    var tempids: set<TempId>, refs: set<TempId> := {}, {};
    var groups: map<IdentityKey, Group>, lone: seq<Group> := map[], [];
    ScanStart(ds, schema);
    for i := 0 to |ds|
      invariant Scanned(tempids, refs, ds, i, schema) && Grouped(groups, lone, ds[..i], schema)
    {
      var d := ds[i];
      if !Acceptable(d, schema) {
        Unacceptable(ds, i, schema);
        return Err(false);
      }
      ScannedStep(tempids, refs, ds, i, schema);
      if d.op.Assert? && d.e.Temp? { tempids := tempids + {d.e.t}; }
      if d.op.Assert? && d.v.TempRef? { refs := refs + {d.v.t}; }
      groups, lone := AddToGroup(groups, lone, ds, i, schema);
    }
    assert ds[..|ds|] == ds;
    ScannedDone(tempids, refs, ds, schema);
    if !(refs <= tempids) { return Err(false); }
    var all := ListGroups(groups, lone);
    GroupsWithin(all, groups, lone, ds, schema);
    var labels := LabelTempids(tempids, all);
    SameClasses(all, groups, lone, ds, schema);
    return Ok(labels);
  }

  // --- The loop --------------------------------------------------------------------------

  /** Upserts carry unique attributes only. */
  ghost predicate UpsertsUnique(g: Generation, unique: set<I64>) {
    LooksUpUnique(g.es, unique) && forall u :: u in g.evs ==> u.a in unique
  }

  lemma {:induction false} SplitUnique(ds: seq<TDatom>, schema: Schema, s: Split)
    requires SplitAll(ds, schema, s).Ok? && UpsertsUnique(s.gen, UniqueAttrs(schema))
    ensures UpsertsUnique(SplitAll(ds, schema, s).value.gen, UniqueAttrs(schema))
  {
    if ds != [] {
      var n := Classify(ds[0], schema, s).value;
      SplitUnique(ds[1..], schema, n);
    }
  }

  lemma {:induction false} FoldEVUnique(us: seq<UpsertEV>, m: TempMap, r: TempMap, schema: Schema, next: Generation,
                                        unique: set<I64>)
    requires FoldEV(us, m, r, schema, next).Ok? && UpsertsUnique(next, unique) && forall u :: u in us ==> u.a in unique
    ensures UpsertsUnique(FoldEV(us, m, r, schema, next).value, unique)
  {
    if us != [] {
      var n := StepEV(us[0], m, r, schema, next).value;
      assert us[0] in us;
      assert forall u :: u in us[1..] ==> u in us;
      FoldEVUnique(us[1..], m, r, schema, n, unique);
    }
  }

  lemma StepUnique(g: Generation, m: TempMap, r: TempMap, schema: Schema, unique: set<I64>)
    requires Extends(r, m) && EvolveOneStep(g, m, r, schema).Ok? && UpsertsUnique(g, unique)
    ensures UpsertsUnique(EvolveOneStep(g, m, r, schema).value, unique)
  {
    hide FoldE, FoldEV, FoldAlloc;
    var start := EMPTY.(resolved := g.resolved);
    StepUnfolds(g, m, r, schema);
    var afterE := FoldE(g.es, m, r, schema, start).value;
    CleanFoldE(g.es, m, r, schema, start);
    FoldEVUnique(g.evs, m, r, schema, afterE, unique);
    CleanFoldAlloc2(g.allocs, r + m, FoldEV(g.evs, m, r, schema, afterE).value);
  }

  lemma {:induction false} CleanFoldAlloc2(ds: seq<TDatom>, m: TempMap, next: Generation)
    ensures var out := FoldAlloc(ds, m, next);
            out.es == next.es && out.evs == next.evs
  {
    if ds != [] { CleanFoldAlloc2(ds[1..], m, StepAlloc(ds[0], m, next)); }
  }

  /** Two points of one run: same end, or same failure. */
  ghost predicate SameOutcome(g: Generation, r: TempMap, g': Generation, r': TempMap, schema: Schema, facts: set<Fact>)
  {
    var a, b := EvolveAll(g, r, schema, facts), EvolveAll(g', r', schema, facts);
    if a.Ok? then b.Ok? && a.value.gen == b.value.gen && a.value.bound == b.value.bound else b == Err(a.halt)
  }

  lemma EvolveUnfolds(g: Generation, r: TempMap, schema: Schema, facts: set<Fact>)
    requires g.es != []
    ensures var out, m := EvolveAll(g, r, schema, facts), Resolve(g.es, facts, map[]);
            && (m.Err? ==> out == Err(m.halt))
            && (m.Ok? ==>
                  var r' := Record(r, m.value);
                  && (r'.Err? ==> out == Err(r'.halt))
                  && (r'.Ok? ==>
                        var g' := EvolveOneStep(g, m.value, r'.value, schema);
                        if g'.Err? then out == Err(g'.halt) else SameOutcome(g, r, g'.value, r'.value, schema, facts)))
  {
    hide Resolve, Record, EvolveOneStep;
  }

  lemma SameOutcomeTrans(g: Generation, r: TempMap, g': Generation, r': TempMap, g'': Generation, r'': TempMap,
                         schema: Schema, facts: set<Fact>)
    requires SameOutcome(g, r, g', r', schema, facts) && SameOutcome(g', r', g'', r'', schema, facts)
    ensures SameOutcome(g, r, g'', r'', schema, facts)
  {
    hide EvolveAll;
  }

  lemma SameOutcomeErr(g: Generation, r: TempMap, g': Generation, r': TempMap, schema: Schema, facts: set<Fact>)
    requires SameOutcome(g, r, g', r', schema, facts)
    ensures EvolveAll(g', r', schema, facts).Err? ==> EvolveAll(g, r, schema, facts) == EvolveAll(g', r', schema, facts)
  {
    hide EvolveAll;
  }

  lemma SameOutcomeSelf(g: Generation, r: TempMap, schema: Schema, facts: set<Fact>)
    ensures SameOutcome(g, r, g, r, schema, facts)
  {
    hide EvolveAll;
  }

  lemma EvolveDone(g: Generation, r: TempMap, g': Generation, r': TempMap, schema: Schema, facts: set<Fact>)
    requires SameOutcome(g, r, g', r', schema, facts) && g'.es == []
    ensures var out := EvolveAll(g, r, schema, facts);
            out.Ok? && out.value.gen == g' && out.value.bound == r'
  {
  }

  lemma UniqueLookups(g: Generation, unique: set<I64>)
    requires UpsertsUnique(g, unique)
    ensures LooksUpUnique(g.es, unique)
  {
  }

  /** The loop of `resolve_tempids`: look up, record, evolve. */
  method EvolveLoop(start: Generation, schema: Schema, db: set<Octets>, ghost facts: set<Fact>)
    returns (r: Result<Generation>, bound: TempMap)
    requires DbHolds(db, facts, UniqueAttrs(schema)) && ValidValues(facts)
    requires OneOwnerAll(facts, UniqueAttrs(schema)) && UpsertsUnique(start, UniqueAttrs(schema))
    ensures r.Ok? <==> EvolveAll(start, map[], schema, facts).Ok?
    ensures r.Ok? ==>
              r.value == EvolveAll(start, map[], schema, facts).value.gen &&
              bound == EvolveAll(start, map[], schema, facts).value.bound
    ensures r.Err? ==> r.halt == EvolveAll(start, map[], schema, facts).halt
  {
    hide *;
    var g := start;
    bound := map[];
    SameOutcomeSelf(g, bound, schema, facts);
    while g.es != []
      invariant SameOutcome(start, map[], g, bound, schema, facts) && UpsertsUnique(g, UniqueAttrs(schema))
      decreases 2 * |g.evs| + |g.es|
    {
      EvolveUnfolds(g, bound, schema, facts);
      SameOutcomeErr(start, map[], g, bound, schema, facts);
      UniqueLookups(g, UniqueAttrs(schema));
      var m := ResolveTempIdAvs(g.es, db, facts, UniqueAttrs(schema));
      if m.Err? { r := Err(m.halt); return; }
      var next := RecordResolutions(bound, m.value);
      if next.Err? { r := Err(next.halt); return; }
      var g' := Evolve(g, m.value, next.value, schema);
      if g'.Err? { r := Err(g'.halt); return; }
      RecordExtends(bound, m.value);
      StepShape(g, m.value, next.value, schema);
      StepUnique(g, m.value, next.value, schema, UniqueAttrs(schema));
      SameOutcomeTrans(start, map[], g, bound, g'.value, next.value, schema, facts);
      g, bound := g'.value, next.value;
    }
    EvolveDone(start, map[], g, bound, schema, facts);
    r := Ok(g);
  }

  /** `allocate_unresolved_upserts`. */
  method AllocateUnresolved(g: Generation, schema: Schema) returns (r: Result<seq<TDatom>>)
    ensures r == Drain(g, schema)
  {
    var allocs := g.allocs;
    assert AsEVs(schema, g.evs[..0]) == [];
    for i := 0 to |g.evs|
      invariant allocs == g.allocs + AsEVs(schema, g.evs[..i])
      invariant forall j :: 0 <= j < i ==> g.evs[j].a in schema.entids
    {
      var u := g.evs[i];
      if u.a !in schema.entids {
        assert u in g.evs;
        return Err(false);
      }
      allocs := allocs + [TDatom(Temp(u.t1), schema.entids[u.a], TempRef(u.t2), Assert)];
      assert g.evs[..i + 1] == g.evs[..i] + [u];
      AsEVsAppend(schema, g.evs[..i], u);
    }
    assert g.evs[..|g.evs|] == g.evs;
    return Ok(allocs);
  }

  method AssignLabels(labels: map<TempId, nat>, ids: seq<I64>) returns (m: TempMap)
    requires forall t :: t in labels ==> labels[t] < |ids|
    ensures m == Assign(labels, ids)
  {
    m := map[];
    var todo := labels.Keys;
    while todo != {}
      invariant todo <= labels.Keys && m.Keys == labels.Keys - todo
      invariant forall t :: t in m ==> m[t] == ids[labels[t]]
      decreases |todo|
    {
      var t :| t in todo;
      m := m[t := ids[labels[t]]];
      todo := todo - {t};
    }
  }

  function Following(out: seq<Datom>, r: Result<seq<Datom>>): Result<seq<Datom>> {
    if r.Err? then r else Ok(out + r.value)
  }

  /** `into_final_populations`, the allocated part. */
  method SubstituteAll(ds: seq<TDatom>, m: TempMap) returns (r: Result<seq<Datom>>)
    ensures r == Finals(ds, m)
  {
    var out: seq<Datom> := [];
    assert ds[0..] == ds;
    assert Finals(ds, m).Ok? ==> [] + Finals(ds, m).value == Finals(ds, m).value;
    for i := 0 to |ds|
      invariant Finals(ds, m) == Following(out, Finals(ds[i..], m))
    {
      assert ds[i..][0] == ds[i] && ds[i..][1..] == ds[i + 1..];
      var s := Substitute(ds[i], m);
      if !Concrete(s) { return Err(false); }
      ghost var rest := Finals(ds[i + 1..], m);
      assert rest.Ok? ==> out + ([ToDatom(s)] + rest.value) == out + [ToDatom(s)] + rest.value;
      out := out + [ToDatom(s)];
    }
    assert out + [] == out;
    return Ok(out);
  }

  /** What the method promises relative to the specification. */
  ghost predicate Agrees(r: Result<seq<Datom>>, counters: Counters, spec: Result<Resolution>) {
    if spec.Ok? then r == Ok(spec.value.datoms) && counters == spec.value.pm else r == Err(spec.halt)
  }

  /** `resolve_tempids`. */
  method ResolveDatoms(datoms: seq<TDatom>, schema: Schema, db: set<Octets>, pm: PartitionMap, ghost facts: set<Fact>)
    returns (r: Result<seq<Datom>>)
    requires DbHolds(db, facts, UniqueAttrs(schema)) && ValidValues(facts) && OneOwnerAll(facts, UniqueAttrs(schema))
    modifies pm
    ensures Agrees(r, pm.counters, ResolveTempids(datoms, schema, facts, old(pm.counters)))
  {
    hide SplitAll, EvolveAll, Drain, Allocatable, AllocateAll, Finals, LabelCount, Labelling, ResolveTempids, DbHolds,
         ValidValues, OneOwnerAll, UpsertsUnique, UniqueAttrs, Assign, IdentityEdges, EntityTempIds, LabelsOf,
         IsLabelling, Dense, Inferred;
    StageFailures(datoms, schema, facts, pm.counters);
    var inferred := InferTempidPartitions(datoms);
    var split := From(datoms, schema);
    if split.Err? { return Err(split.halt); }
    EmptyUnique(UniqueAttrs(schema));
    SplitUnique(datoms, schema, Split(EMPTY, []));
    var gen, bound := EvolveLoop(split.value.gen, schema, db, facts);
    if gen.Err? { return Err(gen.halt); }
    var allocs := AllocateUnresolved(gen.value, schema);
    if allocs.Err? { return Err(allocs.halt); }
    var labels := TempIdsInAllocations(allocs.value, schema);
    if labels.Err? { return Err(labels.halt); }
    LabelsUnfold(allocs.value, schema);
    ghost var tempids, edges := EntityTempIds(allocs.value), IdentityEdges(allocs.value, schema);
    LabelsDense(tempids, edges);
    var parts := AllocationPartitions(inferred, labels.value, datoms, tempids, edges);
    var ids := pm.AllocateEach(parts);
    if ids.Err? { return Err(ids.halt); }
    LabelsInRange(labels.value, tempids, edges);
    AllocateGrows(parts, old(pm.counters));
    var given := AssignLabels(labels.value, ids.value);
    var finals := SubstituteAll(allocs.value, given);
    if finals.Err? { return Err(finals.halt); }
    return Ok(gen.value.upserted + gen.value.resolved + finals.value + split.value.inert);
  }

  lemma EmptyUnique(unique: set<I64>)
    ensures UpsertsUnique(Split(EMPTY, []).gen, unique)
  {
  }

  /** The stages in order, each with its failure. */
  lemma StageFailures(datoms: seq<TDatom>, schema: Schema, facts: set<Fact>, pm: Counters)
    ensures var out, split := ResolveTempids(datoms, schema, facts, pm), SplitAll(datoms, schema, Split(EMPTY, []));
            && (split.Err? ==> out == Err(split.halt))
            && (split.Ok? ==>
                  var ev := EvolveAll(split.value.gen, map[], schema, facts);
                  && (ev.Err? ==> out == Err(ev.halt))
                  && (ev.Ok? ==>
                        var allocs := Drain(ev.value.gen, schema);
                        && (allocs.Err? ==> out == Err(allocs.halt))
                        && (allocs.Ok? ==> AllocationStage(datoms, schema, pm, out, split.value, ev.value,
                           allocs.value))))
  {
    hide SplitAll, EvolveAll, Drain, Allocatable, AllocateAll, Finals, LabelCount, Labelling;
  }

  ghost predicate AllocationStage(datoms: seq<TDatom>, schema: Schema, pm: Counters, out: Result<Resolution>,
                                  split: Split, ev: Evolved, allocs: seq<TDatom>)
  {
    if !Allocatable(allocs, schema) then out == Err(false)
    else
      var parts := ClassPartitions(datoms, LabelsOf(allocs, schema));
      var alloc := AllocateAll(parts, pm);
      if alloc.Err? then out == Err(alloc.halt)
      else
        var finals := Finals(allocs, Assign(LabelsOf(allocs, schema), alloc.value.ids));
        if finals.Err? then out == Err(finals.halt)
        else
          out.Ok? && out.value.pm == alloc.value.pm &&
          out.value.datoms == ev.gen.upserted + ev.gen.resolved + finals.value + split.inert
  }
}
