/** Runs of a fresh database in which unique values change hands, and one in which an equal number is absorbed. */
module Exchanges {
  import opened Octets
  import opened Values
  import opened Facts
  import opened Model
  import opened Partition
  import opened Expand
  import opened Transact
  import opened Invariant
  import opened Sources
  import opened Preserve
  import opened Runs
  import opened Bootstrap
  import opened Theorems
  import opened Installing
  import opened FreshRuns
  import opened Performing

  /** One attribute is installed and nothing stored under it. */
  ghost predicate Empty(s: State, n: Definition) {
    Inv(s) && IsInstalled(s, n) && OnlyLive(s.facts, n.e, {})
  }

  predicate PersonAttribute(n: Definition) { 100 <= n.e < DB_FLOOR && |n.k.ns| == 6 }

  /** A run that installs one attribute. */
  lemma OneAttribute(n: Definition) returns (states: seq<State>, events: seq<Event>)
    requires PersonAttribute(n)
    ensures FreshRun(states, events) && states != [] && Last(states).latest.txId == 1 && Empty(Last(states), n)
  {
    hide *;
    StartRun();
    PersonIs(n);
    BootFree(n.e, n.k);
    FromStart();
    states, events := InstallNext([BOOT], [], n, 1);
    RunLast(states, events);
    InstalledNow(BOOT, n, Last(states));
    EmptyNow(Last(states), n);
  }

  lemma FromStart()
    ensures Last([BOOT]) == BOOT && 1 < COUNTER_SPAN
  {
    hide BOOT;
  }

  lemma PersonIs(n: Definition)
    requires PersonAttribute(n)
    ensures 100 <= n.e < DB_FLOOR && |n.k.ns| == 6 && Ordinary(n)
  {
  }

  lemma EmptyNow(s: State, n: Definition)
    requires Inv(s) && ReadyFor(s, n, true)
    ensures Empty(s, n)
  {
    hide Inv, IsInstalled, OnlyLive;
  }

  /** A datom of the attribute that can be stored as long as only `pairs` are there. */
  ghost predicate Storing(s: State, n: Definition, d: Datom, pairs: set<(I64, DataType)>) {
    && Inv(s) && IsInstalled(s, n) && OnlyLive(s.facts, n.e, pairs) && Ordinary(n)
    && d.a == n.k && d.op.Assert? && Valid(d.v) && Matches(n.t, d.v) && !n.t.VtRef? && 0 <= d.e < DB_FLOOR
    && forall p :: p in pairs ==> p.0 != d.e && p.1 != d.v
  }

  lemma CanStore(s: State, n: Definition, d: Datom, pairs: set<(I64, DataType)>)
    requires Storing(s, n, d, pairs)
    ensures Storable(s, n.e, d)
  {
    hide Inv, Live, Contains, GetAttribute, Valid, Matches, CountersOk;
    InvParts(s);
    SystemContained(s.pm, d.e);
  }

  lemma StoredNow(s: State, n: Definition, d: Datom, pairs: set<(I64, DataType)>, s': State)
    requires Storing(s, n, d, pairs) && StoredAs(s, n.e, d, s')
    ensures Inv(s') && IsInstalled(s', n) && OnlyLive(s'.facts, n.e, pairs + {(d.e, d.v)})
  {
    hide Inv, Live, Contains, GetAttribute, Valid, Matches, CounterOf;
  }

  /** One more transaction of a run, which stores a value. */
  lemma StoreMore(states: seq<State>, events: seq<Event>, n: Definition, d: Datom, pairs: set<(I64, DataType)>,
                  txId: nat) returns (more: seq<State>, all: seq<Event>)
    requires FreshRun(states, events) && states != [] && Last(states).latest.txId < txId < COUNTER_SPAN &&
             Storing(Last(states), n, d, pairs)
    ensures FreshRun(more, all) && more != [] && Last(more).latest.txId == txId && Inv(Last(more)) &&
            IsInstalled(Last(more), n) && OnlyLive(Last(more).facts, n.e, pairs + {(d.e, d.v)})
  {
    hide FreshRun, Inv, Storing, Storable, StoredAs, IsInstalled, OnlyLive;
    CanStore(Last(states), n, d, pairs);
    more, all := StoreNext(states, events, n.e, d, txId);
    StoredNow(Last(states), n, d, pairs, Last(more));
  }

  // --- A swap ----------------------------------------------------------------------------

  function StringAttribute(k: Keyword): Definition { Definition(500, k, VtString, false, Some(UniqueIdentity)) }

  /**
   * A fresh database in which two people have different values of one unique attribute of strings and
   * swap them in the last transaction, which commits.
   */
  lemma SwapRun(k: Keyword, x: Octets, y: Octets) returns (states: seq<State>, events: seq<Event>)
    requires |k.ns| == 6 && x != y && Valid(String(x)) && Valid(String(y))
    ensures FreshRun(states, events) && |events| >= 1 && |states| == |events| + 1
    ensures var n := |events| - 1;
            && events[n].ops == [Add(RefId(600), k, String(y)), Add(RefId(601), k, String(x))]
            && events[n].out == Committed
            && Live(states[n].facts, 600, 500, String(x)) && Live(states[n].facts, 601, 500, String(y))
            && Live(states[n + 1].facts, 600, 500, String(y)) && Live(states[n + 1].facts, 601, 500, String(x))
  {
    hide FreshRun, Inv, Live, GetAttribute, Step, ValidOps, Valid, CounterOf;
    var n := StringAttribute(k);
    states, events := OneAttribute(n);
    states, events := StoreMore(states, events, n, Datom(600, k, String(x), Assert), {}, 2);
    states, events := StoreMore(states, events, n, Datom(601, k, String(y), Assert), {(600, String(x))}, 3);
    var s, key := Last(states), TxKey(4, 0);
    Upcoming(s, key);
    CanSwap(s, k, x, y);
    var s' := Swaps(s, key, k, 500, 600, String(x), 601, String(y), []);
    var v := Event(key, [Add(RefId(600), k, String(y)), Add(RefId(601), k, String(x))], [], [], Committed);
    LastIs(states);
    OneMoreStep(states, events, s', v);
    RunLength(states, events);
    states, events := states + [s'], events + [v];
  }

  lemma CanSwap(s: State, k: Keyword, x: Octets, y: Octets)
    requires Inv(s) && IsInstalled(s, StringAttribute(k)) && x != y
    requires OnlyLive(s.facts, 500, {(600, String(x)), (601, String(y))})
    ensures Swappable(s, k, 500, 600, String(x), 601, String(y))
  {
    hide Inv, Live;
    NotSchemaName(s, k, 500);
    assert (600, String(x)) in {(600, String(x)), (601, String(y))};
  }

  // --- Equal numbers ---------------------------------------------------------------------

  const ZERO: DataType := Double(0)
  const MINUS_ZERO: DataType := Double(0x8000_0000_0000_0000)

  function DoubleAttribute(k: Keyword): Definition { Definition(500, k, VtDouble, false, None) }

  /**
   * A commit that asserts a value need not make it live: over the stored number 0.0, the assertion of
   * -0.0 commits and the store keeps 0.0.
   */
  lemma AbsorbedRun(k: Keyword) returns (states: seq<State>, events: seq<Event>)
    requires |k.ns| == 6
    ensures FreshRun(states, events) && |events| >= 1 && |states| == |events| + 1
    ensures var n := |events| - 1;
            && events[n].ops == [Add(RefId(600), k, MINUS_ZERO)] && events[n].out == Committed
            && Live(states[n + 1].facts, 600, 500, ZERO) && !Live(states[n + 1].facts, 600, 500, MINUS_ZERO)
  {
    hide FreshRun, Inv, Live, GetAttribute, Step, ValidOps, Valid, CounterOf;
    var n := DoubleAttribute(k);
    ZeroIs();
    states, events := OneAttribute(n);
    states, events := StoreMore(states, events, n, Datom(600, k, ZERO, Assert), {}, 2);
    var s, key := Last(states), TxKey(3, 0);
    Upcoming(s, key);
    CanAbsorb(s, k);
    var s' := Absorbs(s, key, Datom(600, k, MINUS_ZERO, Assert), 500, ZERO, []);
    var v := Event(key, [Add(RefId(600), k, MINUS_ZERO)], [], [], Committed);
    LastIs(states);
    OneMoreStep(states, events, s', v);
    RunLength(states, events);
    states, events := states + [s'], events + [v];
  }

  lemma ZeroIs()
    ensures Valid(ZERO) && Valid(MINUS_ZERO) && Matches(VtDouble, ZERO) && Matches(VtDouble, MINUS_ZERO)
    ensures ValueEq(ZERO, MINUS_ZERO) && ZERO != MINUS_ZERO
  {
  }

  lemma CanAbsorb(s: State, k: Keyword)
    requires Inv(s) && IsInstalled(s, DoubleAttribute(k)) && OnlyLive(s.facts, 500, {(600, ZERO)})
    ensures Absorbable(s, Datom(600, k, MINUS_ZERO, Assert), 500, ZERO)
  {
    hide Inv, Live, Contains, Valid, ValueEq, CountersOk, ZERO, MINUS_ZERO;
    ZeroIs();
    InvParts(s);
    SystemContained(s.pm, 600);
    NotSchemaName(s, k, 500);
    assert (600, ZERO) in {(600, ZERO)};
  }
}
