/** A transaction a restart does not find. */
module Forgotten {
  import opened Octets
  import opened Values
  import opened Facts
  import opened Model
  import opened Partition
  import opened SchemaRules
  import opened Transact
  import opened Invariant
  import opened Runs
  import opened Bootstrap
  import opened Recovery
  import opened Theorems
  import opened Asserting
  import opened FreshRuns

  /** No entity of these facts lies under a partition prefix. */
  ghost predicate OutOfBand(facts: set<Fact>) {
    forall f, p: nat :: f in facts && p <= USER_PARTITION ==> !InBand(p, f.e)
  }

  lemma TopUnmoved(facts: set<Fact>, added: set<Fact>, e: I64)
    requires OutOfBand(added)
    ensures TopTx(facts + added, e) <==> TopTx(facts, e)
    ensures InBand(TX_PARTITION, e) ==> forall st: I64 :: HasTime(facts + added, e, st) <==> HasTime(facts, e, st)
  {
    hide InBand;
  }

  /** A scan for the latest transaction does not see them. */
  lemma LatestUnmoved(facts: set<Fact>, added: set<Fact>, r: Option<TxKey>)
    requires OutOfBand(added) && LatestFound(facts + added, r)
    ensures LatestFound(facts, r)
  {
    hide InBand, HasTime, OutOfBand;
    forall e: I64 ensures TopTx(facts + added, e) <==> TopTx(facts, e) { TopUnmoved(facts, added, e); }
    forall e: I64, st: I64 | TopTx(facts, e) ensures HasTime(facts + added, e, st) <==> HasTime(facts, e, st) {
      TopUnmoved(facts, added, e);
    }
    hide TopTx;
  }

  lemma CounterUnmoved(facts: set<Fact>, added: set<Fact>, p: nat, n: nat)
    requires OutOfBand(added) && p <= USER_PARTITION && TopCounter(facts + added, p, n)
    ensures TopCounter(facts, p, n)
  {
    if n > 0 {
      var f :| f in facts + added && f.e == p * COUNTER_SPAN + n - 1;
      assert InBand(p, f.e);
      assert f in facts;
    }
  }

  /** Nor does the scan for the counters. */
  lemma ScanUnmoved(facts: set<Fact>, added: set<Fact>, pm: Counters)
    requires OutOfBand(added) && Scanned(facts + added, pm)
    ensures Scanned(facts, pm)
  {
    hide TopCounter, OutOfBand;
    CounterUnmoved(facts, added, TX_PARTITION, pm[TX_PARTITION]);
    CounterUnmoved(facts, added, USER_PARTITION, pm[USER_PARTITION]);
    var n: nat :| TopCounter(facts + added, DB_PARTITION, n) &&
      pm[DB_PARTITION] == if n < DB_FLOOR then DB_FLOOR else n;
    CounterUnmoved(facts, added, DB_PARTITION, n);
  }

  const FAR: TxKey := TxKey(BAND, 0)

  lemma FarFacts(schema: Schema)
    ensures OutOfBand(FactsOf(Elements(WithTx([], FAR)), schema, TxEid(FAR.txId)))
  {
  }

  /** The empty transaction is fit to commit in every state. */
  lemma NothingFits(s: State)
    ensures Fits(s, []) && Claimable(s, []) && Unset(s, []) && !ChangesSchema([])
  {
  }

  lemma FarIs()
    ensures FAR.txId == BAND && 0 < BAND < COUNTER_SPAN
  {
  }

  /**
   * One committed transaction with the id 2^40 after the bootstrap: every restart then comes up with
   * the counters and the latest transaction of the bootstrap.
   */
  lemma RestartForgets() returns (states: seq<State>, events: seq<Event>)
    ensures FreshRun(states, events) && |states| == 2 && states[1].latest.txId == BAND
    ensures forall latest ::
            LatestFound(states[1].facts, latest) ==> latest == Some(BOOT.latest) && latest != Some(states[1].latest)
    ensures forall pm :: Scanned(states[1].facts, pm) ==> pm == BOOT.pm && pm != states[1].pm
  {
    hide *;
    StartRun();
    FarIs();
    Upcoming(BOOT, FAR);
    NothingFits(BOOT);
    var s := Asserted(BOOT, FAR, [], []);
    var v := Event(FAR, OpsOf([]), [], [], Committed);
    StepOfIs(BOOT, s, v);
    OneMoreStep([BOOT], [], s, v);
    states, events := [BOOT] + [s], [] + [v];
    var added := FactsOf(Elements(WithTx([], FAR)), BOOT.schema, TxEid(FAR.txId));
    FarFacts(BOOT.schema);
    BootParts();
    CountersDiffer(s);
    forall latest | LatestFound(s.facts, latest) ensures latest == Some(BOOT.latest) && latest != Some(s.latest) {
      LatestUnmoved(BOOT.facts, added, latest);
      LatestRecovered(BOOT, latest);
      BootBand();
    }
    forall pm | Scanned(s.facts, pm) ensures pm == BOOT.pm && pm != s.pm {
      ScanUnmoved(BOOT.facts, added, pm);
      CountersRecovered(BOOT, pm);
      BootBand();
    }
  }

  lemma StepOfIs(s: State, s': State, v: Event)
    requires Step(s, s', v.key, v.ops, v.rets, v.error, v.out)
    ensures StepOf(s, s', v)
  {
    hide Step;
  }

  lemma BootBand()
    ensures CounterOf(BOOT.pm, TX_PARTITION) <= BAND && forall p :: p in BOOT.pm ==> BOOT.pm[p] <= BAND
  {
    hide *;
    BootParts();
    FreshBand(BOOT.pm);
  }

  lemma FreshBand(pm: Counters)
    requires pm == map[DB_PARTITION := DB_FLOOR, TX_PARTITION := 1, USER_PARTITION := 0]
    ensures CounterOf(pm, TX_PARTITION) <= BAND && forall p :: p in pm ==> pm[p] <= BAND
  {
  }

  lemma CountersDiffer(s: State)
    requires s.latest.txId == BAND && SetTx(BOOT.pm, BAND) == Ok(s.pm)
    ensures s.pm != BOOT.pm && s.latest != BOOT.latest
  {
    hide BOOT_SCHEMA, SCHEMA_FACTS, TX_FACTS;
  }
}
