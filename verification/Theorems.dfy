/** What holds in every state a fresh database can reach. */
module Theorems {
  import opened Octets
  import opened Values
  import opened Facts
  import opened Model
  import opened Partition
  import opened Transact
  import opened Invariant
  import opened Sources
  import opened Preserve
  import opened Runs
  import opened Bootstrap
  import opened Recovery
  import opened Reload

  /** `states` is a run of a fresh database. */
  ghost predicate FreshRun(states: seq<State>, events: seq<Event>) {
    IsRun(states, events) && states[0] == BOOT
  }

  lemma ReachedInv(states: seq<State>, events: seq<Event>, i: nat)
    requires FreshRun(states, events) && i < |states|
    ensures Inv(states[i])
  {
    hide IsRun, Inv, BOOT;
    Reachable(states, events, i);
  }

  /** Cardinality one: an entity never has two live values of a single-valued attribute. */
  lemma OneLiveValue(states: seq<State>, events: seq<Event>, i: nat, e: I64, a: I64, v: DataType, w: DataType)
    requires FreshRun(states, events) && i < |states| && a in states[i].schema.attrs &&
             !states[i].schema.attrs[a].multival
    requires Live(states[i].facts, e, a, v) && Live(states[i].facts, e, a, w)
    ensures v == w
  {
    hide FreshRun, Inv, Live;
    ReachedInv(states, events, i);
    InvParts(states[i]);
    assert OneValue(states[i].facts, a);
  }

  /** Uniqueness: a value that equals itself never has two live owners. */
  lemma OneLiveOwner(states: seq<State>, events: seq<Event>, i: nat, a: I64, v: DataType, d: I64, e: I64)
    requires FreshRun(states, events) && i < |states| && a in UniqueAttrs(states[i].schema) && Reflexive(v)
    requires Live(states[i].facts, d, a, v) && Live(states[i].facts, e, a, v)
    ensures d == e
  {
    hide FreshRun, Inv, Live, Reflexive;
    ReachedInv(states, events, i);
    InvParts(states[i]);
    assert OneOwner(states[i].facts, a);
  }

  /** Every stored entity and every stored reference has been allocated. */
  lemma StoredIdsAllocated(states: seq<State>, events: seq<Event>, i: nat, f: Fact)
    requires FreshRun(states, events) && i < |states| && f in states[i].facts
    ensures var s := states[i];
            && Contains(s.pm, f.e) && f.a in s.schema.attrs
            && (s.schema.attrs[f.a].valueType.VtRef? ==> f.v.Long? && Contains(s.pm, f.v.i))
  {
    hide FreshRun, Inv, Contains, Valid;
    ReachedInv(states, events, i);
    InvParts(states[i]);
    assert TypedFact(f, states[i].schema) && ReferencedFact(f, states[i].schema, states[i].pm);
  }

  predicate Written(v: Event) { v.out.Committed? || v.out.Aborted? }

  lemma RunStepAdvances(states: seq<State>, events: seq<Event>, i: nat)
    requires FreshRun(states, events) && i < |events|
    ensures i + 1 < |states|
    ensures Written(events[i]) ==> states[i].latest.txId < events[i].key.txId && states[i + 1].latest == events[i].key
    ensures states[i].latest.txId <= states[i + 1].latest.txId && states[i].facts <= states[i + 1].facts
  {
    hide Inv, Step, BOOT, ValidOps, Before;
    var v := events[i];
    ReachedInv(states, events, i);
    RunAt(states, events, i);
    StepAdvances(states[i], states[i + 1], v.key, v.ops, v.rets, v.error, v.out);
  }

  lemma {:induction false} LatestGrows(states: seq<State>, events: seq<Event>, i: nat, j: nat)
    requires FreshRun(states, events) && i <= j < |states|
    ensures states[i].latest.txId <= states[j].latest.txId && states[i].facts <= states[j].facts
    decreases j
  {
    hide FreshRun;
    if i < j {
      RunLength(states, events);
      LatestGrows(states, events, i, j - 1);
      RunStepAdvances(states, events, j - 1);
    }
  }

  lemma RunLength(states: seq<State>, events: seq<Event>)
    requires FreshRun(states, events)
    ensures |states| == |events| + 1
  {
    hide StepOf, ValidOps, BOOT;
  }

  /** Ids of written transactions strictly increase along a run, and nothing stored is ever removed. */
  lemma TxIdsIncrease(states: seq<State>, events: seq<Event>, i: nat, j: nat)
    requires FreshRun(states, events) && i < j < |events| && Written(events[i]) && Written(events[j])
    ensures events[i].key.txId < events[j].key.txId && states[i].facts <= states[j].facts
  {
    hide FreshRun;
    RunLength(states, events);
    RunStepAdvances(states, events, i);
    RunStepAdvances(states, events, j);
    LatestGrows(states, events, i + 1, j);
  }

  /**
   * A restart in any reached state: the scanned counters and the latest transaction are those of
   * memory exactly if no counter has passed the band of the partition prefixes.
   */
  lemma RestartAgrees(states: seq<State>, events: seq<Event>, i: nat, pm: Counters, latest: Option<TxKey>)
    requires FreshRun(states, events) && i < |states|
    requires Scanned(states[i].facts, pm) && LatestFound(states[i].facts, latest)
    ensures pm == states[i].pm <==> forall p :: p in states[i].pm ==> states[i].pm[p] <= BAND
    ensures latest == Some(states[i].latest) <==> CounterOf(states[i].pm, TX_PARTITION) <= BAND
  {
    hide FreshRun, Inv, Scanned, LatestFound;
    ReachedInv(states, events, i);
    CountersRecovered(states[i], pm);
    LatestRecovered(states[i], latest);
  }

  /** The schema in memory and the schema rebuilt from storage answer every attribute name alike. */
  lemma SchemaAgrees(states: seq<State>, events: seq<Event>, i: nat, rows: Rows, schema: Schema, k: Keyword)
    requires FreshRun(states, events) && i < |states| && Answers(rows, states[i].facts) && Spelled(rows, schema)
    ensures Inverse(states[i].schema) && Inverse(schema)
    ensures schema.idents == states[i].schema.idents && schema.entids == states[i].schema.entids
    ensures GetAttribute(schema, k) == GetAttribute(states[i].schema, k)
  {
    hide FreshRun, Inv, Answers, Spelled, GetAttribute;
    ReachedInv(states, events, i);
    InvInverse(states[i]);
    SchemaReloaded(states[i], rows, schema);
  }

  /**
   * `load_schema_from_indices` in any reached state, from the answers of its queries: the schema it
   * builds has the ident tables of memory and answers every attribute name alike.
   */
  method ReloadSchema(rows: Rows, ghost states: seq<State>, ghost events: seq<Event>, ghost i: nat)
    returns (schema: Schema)
    requires FreshRun(states, events) && i < |states| && Answers(rows, states[i].facts)
    ensures schema.idents == states[i].schema.idents && schema.entids == states[i].schema.entids
    ensures forall k :: GetAttribute(schema, k) == GetAttribute(states[i].schema, k)
  {
    hide *;
    ReachedInv(states, events, i);
    RowsWellFormed(states[i], rows);
    schema := BuildSchema(rows);
    SchemaReloaded(states[i], rows, schema);
  }

  /** A run goes on with any step from its last state. */
  lemma OneMoreStep(states: seq<State>, events: seq<Event>, s': State, v: Event)
    requires FreshRun(states, events) && ValidOps(v.ops) && StepOf(states[|states| - 1], s', v)
    ensures FreshRun(states + [s'], events + [v])
  {
    hide IsRun, StepOf, ValidOps, BOOT;
    RunExtends(states, events, s', v);
  }
}
