/** Building runs of a fresh database, transaction by transaction. */
module FreshRuns {
  import opened Octets
  import opened Values
  import opened Facts
  import opened Model
  import opened Partition
  import opened SchemaRules
  import opened Transact
  import opened Invariant
  import opened Sources
  import opened Preserve
  import opened Runs
  import opened Bootstrap
  import opened Theorems
  import opened Asserting
  import opened Installing

  // --- The start -------------------------------------------------------------------------

  lemma StartRun()
    ensures FreshRun([BOOT], []) && Inv(BOOT) && BOOT.latest.txId == 0
  {
    hide *;
    BootHolds();
    BootParts();
    FirstKey();
    AloneIsRun(BOOT);
    StartsFresh();
  }

  lemma FirstKey()
    ensures BOOT_KEY.txId == 0
  {
  }

  lemma AloneIsRun(s: State)
    ensures IsRun([s], [])
  {
  }

  lemma StartsFresh()
    requires IsRun([BOOT], [])
    ensures FreshRun([BOOT], [])
  {
    hide IsRun, BOOT;
  }

  lemma SystemNs(e: I64)
    requires e in SYSTEM_IDS
    ensures |BootName(e).ns| == 2
  {
  }

  lemma TypeNs(e: I64)
    requires e in TYPE_IDS
    ensures |BootName(e).ns| == 7
  {
    assert BootName(e) == TypeName(e);
  }

  lemma EnumNs(e: I64)
    requires e in ENUM_IDS
    ensures |BootName(e).ns| != 6
  {
    assert BootName(e) == EnumName(e);
  }

  /** The names of people are not names of the system. */
  lemma NotBootName(k: Keyword)
    requires |k.ns| == 6
    ensures k !in BOOT_NAMES
  {
    hide BootName;
    forall e | e in BOOT_IDS ensures |BootName(e).ns| != 6 {
      if e in SYSTEM_IDS { SystemNs(e); } else if e in TYPE_IDS { TypeNs(e); } else { EnumNs(e); }
    }
  }

  lemma NotInTables(e: I64, k: Keyword)
    requires e >= 100 && k !in BOOT_NAMES
    ensures e !in BOOT_SCHEMA.entids && e !in BOOT_SCHEMA.attrs && k !in BOOT_SCHEMA.idents
  {
    hide BootName, BOOT_NAMES, SystemDefinition, BySignature, Signature, SCHEMA_IDS, TX_IDS, TYPE_IDS, ENUM_IDS;
    LargeIds(e);
  }

  lemma LargeIds(e: I64)
    requires e >= 100
    ensures e !in SCHEMA_IDS && e !in TX_IDS && e !in TYPE_IDS && e !in ENUM_IDS
  {
  }

  lemma BootFree(e: I64, k: Keyword)
    requires 100 <= e < DB_FLOOR && |k.ns| == 6
    ensures Free(BOOT, e, k)
  {
    hide Contains, BOOT, BOOT_SCHEMA, BOOT_NAMES, Inverse, HasSystem;
    BootTables();
    BootContained(e);
    NotBootName(k);
    NotInTables(e, k);
  }

  lemma BootContained(e: I64)
    requires 0 <= e < DB_FLOOR
    ensures Contains(BOOT.pm, e)
  {
    hide Inv, BOOT;
    BootHolds();
    InvParts(BOOT);
    SystemContained(BOOT.pm, e);
  }

  lemma Upcoming(s: State, key: TxKey)
    requires Inv(s) && s.latest.txId < key.txId < COUNTER_SPAN
    ensures InTurn(s, key)
  {
    hide Typed, Referenced, InTime, SingleValued, SingleOwner, AllWritten, Mirrors, HasSystem, Inverse;
  }

  ghost function Last(states: seq<State>): State
    requires states != []
  {
    states[|states| - 1]
  }

  lemma LastIs(states: seq<State>)
    requires states != []
    ensures Last(states) == states[|states| - 1]
  {
  }

  lemma RunLast(states: seq<State>, events: seq<Event>)
    requires FreshRun(states, events)
    ensures states != [] && Inv(Last(states))
  {
    hide IsRun, Inv, BOOT;
    RunLength(states, events);
    ReachedInv(states, events, |states| - 1);
  }

  /** One more transaction of a run, which installs an attribute. */
  lemma InstallNext(states: seq<State>, events: seq<Event>, n: Definition, txId: nat)
    returns (more: seq<State>, all: seq<Event>)
    requires FreshRun(states, events) && states != [] && Last(states).latest.txId < txId < COUNTER_SPAN &&
             Free(Last(states), n.e, n.k)
    ensures FreshRun(more, all) && more != [] && Last(more).latest.txId == txId &&
            Installed(Last(states), n, Last(more))
  {
    hide FreshRun, Inv, Free, Installed, Step, ValidOps, OpsOf, InTurn;
    RunLast(states, events);
    var s, key := Last(states), TxKey(txId, 0);
    Upcoming(s, key);
    var s' := Install(s, key, n, []);
    var v := Event(key, OpsOf(PartDatoms(n)), [], [], Committed);
    OneMoreStep(states, events, s', v);
    more, all := states + [s'], events + [v];
  }

  lemma StoreNext(states: seq<State>, events: seq<Event>, a: I64, d: Datom, txId: nat)
    returns (more: seq<State>, all: seq<Event>)
    requires FreshRun(states, events) && states != [] && Last(states).latest.txId < txId < COUNTER_SPAN &&
             Storable(Last(states), a, d)
    ensures FreshRun(more, all) && more != [] && Last(more).latest.txId == txId &&
            StoredAs(Last(states), a, d, Last(more))
  {
    hide FreshRun, Inv, Storable, StoredAs, Step, ValidOps, OpsOf, InTurn;
    RunLast(states, events);
    var s, key := Last(states), TxKey(txId, 0);
    Upcoming(s, key);
    var s' := StoreValue(s, key, a, d, []);
    var v := Event(key, OpsOf([d]), [], [], Committed);
    OneMoreStep(states, events, s', v);
    more, all := states + [s'], events + [v];
  }

  /** The attribute is installed. */
  ghost predicate IsInstalled(s: State, n: Definition) {
    GetAttribute(s.schema, n.k) == Some(AttrEntry(n.e, DefinedAs(n)))
  }

  predicate Ordinary(n: Definition) { n.e > DB_UNIQUE && !IsTxAttr(n.e) }

  /** Installed and without values, or still to be installed. */
  ghost predicate ReadyFor(s: State, n: Definition, done: bool) {
    if done then IsInstalled(s, n) && OnlyLive(s.facts, n.e, {}) else Free(s, n.e, n.k)
  }

  lemma NoValuesYet(s: State, a: I64)
    requires Inv(s) && a !in s.schema.attrs
    ensures OnlyLive(s.facts, a, {})
  {
    hide Inv, Live;
    forall e: I64, v ensures !Live(s.facts, e, a, v) {
      if Live(s.facts, e, a, v) { LiveTyped(s, e, a, v); }
    }
  }

  lemma InstalledNow(s: State, n: Definition, s': State)
    requires Inv(s) && Free(s, n.e, n.k) && Installed(s, n, s') && Ordinary(n)
    ensures ReadyFor(s', n, true)
  {
    hide Inv, Live, Contains, GetAttribute, CounterOf;
    NoValuesYet(s, n.e);
  }

  lemma OthersStay(s: State, n: Definition, s': State, m: Definition, done: bool)
    requires Installed(s, n, s') && ReadyFor(s, m, done) && Ordinary(m) && m.e != n.e && m.k != n.k
    ensures ReadyFor(s', m, done)
  {
    hide Inv, Live, Contains, GetAttribute, CounterOf, Free;
  }

  lemma BootReady(n: Definition)
    requires 100 <= n.e < DB_FLOOR && |n.k.ns| == 6
    ensures ReadyFor(BOOT, n, false)
  {
    hide BOOT, Free;
    BootFree(n.e, n.k);
  }
}
