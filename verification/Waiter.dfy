/** Waiting for a transaction on a lossy channel of completions. */
module Waiter {
  import opened Octets
  import opened Values
  import opened Model
  import opened Transact

  /** Keys compare by id, then time. */
  predicate Before(a: TxKey, b: TxKey) {
    a.txId < b.txId || (a.txId == b.txId && a.systemTime < b.systemTime)
  }

  /** The completions an indexer has sent, in order: one per log record, ids growing. */
  ghost predicate IsHistory(history: seq<Completion>) {
    forall i, j :: 0 <= i < j < |history| ==> Before(history[i].key, history[j].key)
  }

  /** The outcome has a transaction entity in storage. */
  predicate Recorded(c: Completion) { c.out.Committed? || c.out.Aborted? }

  /** `lookup_tx_completion`: the stored outcome of a transaction that has one. */
  function Lookup(history: seq<Completion>, key: TxKey): Option<Completion> {
    if history == [] then None
    else if history[0].key == key && Recorded(history[0]) then Some(history[0])
    else Lookup(history[1..], key)
  }

  lemma {:induction false} LookupFinds(history: seq<Completion>, t: nat)
    requires IsHistory(history) && t < |history| && Recorded(history[t])
    ensures Lookup(history, history[t].key) == Some(history[t])
  {
    if t > 0 {
      var rest := history[1..];
      forall i, j | 0 <= i < j < |rest| ensures Before(rest[i].key, rest[j].key) {
        assert Before(history[i + 1].key, history[j + 1].key);
      }
      assert Before(history[0].key, history[t].key);
      LookupFinds(rest, t - 1);
    }
  }

  // --- The receiver on the channel -------------------------------------------------------

  /** The oldest completion a channel of that capacity still holds for a receiver that starts at `from`. */
  function Oldest(view: seq<Completion>, from: nat, capacity: nat): nat {
    if |view| > from + capacity then |view| - capacity else from
  }

  /** Where one receive leaves the cursor: a lag jumps to the oldest completion, a message is one step. */
  function Advance(cursor: nat, view: seq<Completion>, from: nat, capacity: nat): nat {
    if cursor >= |view| then cursor
    else if cursor < Oldest(view, from, capacity) then Oldest(view, from, capacity)
    else cursor + 1
  }

  /** The cursor before turn `n`, when `views[i]` has been sent by turn `i`. */
  function CursorAt(views: seq<seq<Completion>>, from: nat, capacity: nat, n: nat): nat
    requires n <= |views|
  {
    if n == 0 then from else Advance(CursorAt(views, from, capacity, n - 1), views[n - 1], from, capacity)
  }

  /** The receiver has fallen behind at turn `n`. */
  predicate Lags(views: seq<seq<Completion>>, from: nat, capacity: nat, n: nat)
    requires n < |views|
  {
    CursorAt(views, from, capacity, n) < Oldest(views[n], from, capacity)
  }

  /** Turn `n` receives completion `t` or a later one. */
  predicate Answers(views: seq<seq<Completion>>, from: nat, capacity: nat, t: nat, n: nat)
    requires n < |views|
  {
    !Lags(views, from, capacity, n) && t <= CursorAt(views, from, capacity, n) < |views[n]|
  }

  /** How many of the first `n` turns came after completion `t` was sent and were no lag. */
  function Heard(views: seq<seq<Completion>>, from: nat, capacity: nat, t: nat, n: nat): nat
    requires n <= |views|
  {
    if n == 0 then 0
    else
      Heard(views, from, capacity, t, n - 1) +
      if t < |views[n - 1]| && !Lags(views, from, capacity, n - 1) then 1 else 0
  }

  /** The views of a run: each what has been sent by then, none shorter than what was sent before the subscription. */
  ghost predicate Growing(views: seq<seq<Completion>>, from: nat) {
    && (forall i :: 0 <= i < |views| ==> from <= |views[i]|)
    && (forall i :: 0 < i < |views| ==> views[i - 1] <= views[i])
  }

  lemma {:induction false} CursorInside(views: seq<seq<Completion>>, from: nat, capacity: nat, n: nat)
    requires capacity > 0 && Growing(views, from) && n <= |views|
    ensures from <= CursorAt(views, from, capacity, n)
    ensures n > 0 ==> CursorAt(views, from, capacity, n) <= |views[n - 1]|
    ensures n < |views| ==> CursorAt(views, from, capacity, n) <= |views[n]|
  {
    if n > 0 {
      CursorInside(views, from, capacity, n - 1);
      if n < |views| { assert views[n - 1] <= views[n]; }
    }
  }

  /** A receiver that has not answered still has something to receive, once completion `t` has been sent. */
  lemma {:induction false} Unanswered(views: seq<seq<Completion>>, from: nat, capacity: nat, t: nat, n: nat)
    requires capacity > 0 && from <= t && Growing(views, from) && n <= |views|
    requires forall i :: 0 <= i < n ==> !Answers(views, from, capacity, t, i)
    ensures n > 0 && t < |views[n - 1]| ==> CursorAt(views, from, capacity, n) < |views[n - 1]|
    ensures n < |views| && t < |views[n]| ==> CursorAt(views, from, capacity, n) < |views[n]|
    ensures from + Heard(views, from, capacity, t, n) <= t
    ensures from + Heard(views, from, capacity, t, n) <= CursorAt(views, from, capacity, n)
  {
    if n > 0 {
      Unanswered(views, from, capacity, t, n - 1);
      CursorInside(views, from, capacity, n - 1);
      assert !Answers(views, from, capacity, t, n - 1);
      if n < |views| { assert views[n - 1] <= views[n]; }
    } else if |views| > 0 && t < |views[0]| {
      assert from < |views[0]|;
    }
  }

  /** Whatever the lags in between: after `t - from + 1` turns that were none, one of them has answered. */
  lemma HeardEnough(views: seq<seq<Completion>>, from: nat, capacity: nat, t: nat)
    requires capacity > 0 && from <= t && Growing(views, from)
    requires Heard(views, from, capacity, t, |views|) > t - from
    ensures exists i :: 0 <= i < |views| && Answers(views, from, capacity, t, i)
  {
    if forall i :: 0 <= i < |views| ==> !Answers(views, from, capacity, t, i) {
      Unanswered(views, from, capacity, t, |views|);
    }
  }

  // --- The waiter ------------------------------------------------------------------------

  /** What one receive leads to. */
  datatype Poll = Pending | Lagged | Earlier | Done(answer: Option<Completion>)

  class TxWaiter {
    const baseline: TxKey
    const capacity: nat
    const from: nat
    var cursor: nat

    /** Subscribes to what is sent after `history`; `baseline` is the latest transaction indexed by then. */
    constructor (baseline: TxKey, capacity: nat, history: seq<Completion>)
      requires capacity > 0
      ensures this.baseline == baseline && this.capacity == capacity && from == |history| && cursor == |history|
    {
      this.baseline, this.capacity, this.from, this.cursor := baseline, capacity, |history|, |history|;
    }

    /** One turn of the loop of `await_tx`, at a moment when `history` has been sent. */
    method Receive(history: seq<Completion>, target: TxKey, ghost t: nat) returns (p: Poll)
      requires from <= cursor <= |history| && from <= t && Sent(history, target, t)
      modifies this
      ensures cursor == Advance(old(cursor), history, from, capacity)
      ensures p.Pending? <==> old(cursor) == |history|
      ensures p.Lagged? <==> old(cursor) < |history| && old(cursor) < Oldest(history, from, capacity)
      ensures p.Earlier? <==> Oldest(history, from, capacity) <= old(cursor) < |history| && old(cursor) < t
      ensures p.Done? ==> t < |history| && p == Done(Some(history[t]))
    {
      if cursor == |history| { return Pending; }
      var oldest := if |history| > from + capacity then |history| - capacity else from;
      if cursor < oldest {
        cursor := oldest;
        return Lagged;
      }
      var c := history[cursor];
      cursor := cursor + 1;
      if t < |history| {
        HistoryOrder(history, cursor - 1, t);
        LookupFinds(history, t);
      }
      if c.key == target { return Done(Some(c)); }
      if Before(c.key, target) { return Earlier; }
      return Done(Lookup(history, target));
    }

    /**
     * The loop of `await_tx`, turn `i` taking place when `views[i]` has been sent. It answers exactly
     * if some turn receives the awaited completion or a later one, and then with the recorded outcome.
     */
    method Follow(views: seq<seq<Completion>>, target: TxKey, ghost t: nat) returns (p: Poll)
      requires capacity > 0 && from <= t && cursor == from && Growing(views, from)
      requires forall i :: 0 <= i < |views| ==> Sent(views[i], target, t)
      modifies this
      ensures p.Done? <==> exists i :: 0 <= i < |views| && Answers(views, from, capacity, t, i)
      ensures p.Done? ==> exists i :: 0 <= i < |views| && t < |views[i]| && p == Done(Some(views[i][t]))
    {
      p := Pending;
      for i := 0 to |views|
        invariant !p.Done? && cursor == CursorAt(views, from, capacity, i)
        invariant forall k :: 0 <= k < i ==> !Answers(views, from, capacity, t, k)
      {
        CursorInside(views, from, capacity, i);
        p := Receive(views[i], target, t);
        if p.Done? {
          assert Answers(views, from, capacity, t, i);
          return;
        }
      }
    }

    /**
     * `await_tx`: storage for what was indexed before the subscription, the channel for the rest. The
     * answer has come once more turns than there were completions in between were no lag.
     */
    method AwaitTx(views: seq<seq<Completion>>, target: TxKey, ghost t: nat) returns (p: Poll)
      requires capacity > 0 && cursor == from && views != [] && Growing(views, from)
      requires forall i :: 0 <= i < |views| ==> Sent(views[i], target, t) && IsBaseline(baseline, views[i][..from])
      modifies this
      ensures p.Done? <==> t < from || exists i :: 0 <= i < |views| && Answers(views, from, capacity, t, i)
      ensures p.Done? ==> exists i :: 0 <= i < |views| && t < |views[i]| && p == Done(Some(views[i][t]))
      ensures from <= t && Heard(views, from, capacity, t, |views|) > t - from ==> p.Done?
    {
      var now := views[0];
      assert Sent(now, target, t) && IsBaseline(baseline, now[..from]) && from <= |now|;
      if t < |now| { BaselineDecides(baseline, now, from, t); } else { BaselineBefore(baseline, now, from, target); }
      if !Before(baseline, target) {
        LookupFinds(now, t);
        return Done(Lookup(now, target));
      }
      p := Follow(views, target, t);
      if Heard(views, from, capacity, t, |views|) > t - from { HeardEnough(views, from, capacity, t); }
    }
  }

  // --- A receiver that never catches up --------------------------------------------------

  /** The completions of `n` commits. */
  function Commits(n: nat): (h: seq<Completion>)
    requires n < TWO_63
    ensures |h| == n && forall i :: 0 <= i < n ==> h[i] == Completion(TxKey(i, 0), Committed)
  {
    seq(n, i requires 0 <= i < n => Completion(TxKey(i, 0), Committed))
  }

  lemma CommitsSent(n: nat, t: nat)
    requires n < TWO_63 && t < n
    ensures Sent(Commits(n), TxKey(t, 0), t)
  {
  }

  lemma CommitsPrefix(m: nat, n: nat)
    requires m <= n < TWO_63
    ensures Commits(m) <= Commits(n)
  {
    assert Commits(m) == Commits(n)[..m];
  }

  /**
   * At every capacity there are runs of any length in which the transaction has been sent all along
   * and no turn answers: one more commit before each receive keeps the receiver behind.
   */
  lemma Starves(from: nat, capacity: nat, t: nat, turns: nat) returns (views: seq<seq<Completion>>)
    requires capacity > 0 && from <= t && t + capacity + 1 + turns < TWO_63
    ensures |views| == turns && Growing(views, from)
    ensures forall i :: 0 <= i < turns ==> t < |views[i]| && Sent(views[i], TxKey(t, 0), t)
    ensures forall i :: 0 <= i < turns ==> Lags(views, from, capacity, i) && !Answers(views, from, capacity, t, i)
  {
    hide Commits, CursorAt, Sent;
    views := seq(turns, i requires 0 <= i < turns => Commits(t + capacity + 1 + i));
    forall i | 0 <= i < turns ensures |views[i]| == t + capacity + 1 + i && Sent(views[i], TxKey(t, 0), t) {
      CommitsSent(t + capacity + 1 + i, t);
    }
    forall i | 0 < i < turns ensures views[i - 1] <= views[i] { CommitsPrefix(t + capacity + i, t + capacity + 1 + i); }
    forall i | 0 <= i < turns ensures Lags(views, from, capacity, i) { AlwaysBehind(views, from, capacity, t, i); }
  }

  lemma {:induction false} AlwaysBehind(views: seq<seq<Completion>>, from: nat, capacity: nat, t: nat, n: nat)
    requires capacity > 0 && from <= t && n < |views|
    requires forall i :: 0 <= i < |views| ==> |views[i]| == t + capacity + 1 + i
    ensures CursorAt(views, from, capacity, n) <= t + n && Lags(views, from, capacity, n)
  {
    if n > 0 { AlwaysBehind(views, from, capacity, t, n - 1); }
  }

  // --- Before and after the subscription -------------------------------------------------

  lemma BaselineBefore(baseline: TxKey, history: seq<Completion>, from: nat, target: TxKey)
    requires from <= |history| && IsBaseline(baseline, history[..from]) && forall i ::
             0 <= i < |history| ==> Before(history[i].key, target)
    ensures Before(baseline, target)
  {
    var i :| 0 <= i < from && history[..from][i].key == baseline && Recorded(history[..from][i]);
    assert Before(history[i].key, target);
  }

  /** `baseline` is the key of the last recorded completion. */
  ghost predicate IsBaseline(baseline: TxKey, history: seq<Completion>) {
    && (exists i :: 0 <= i < |history| && history[i].key == baseline && Recorded(history[i]))
    && (forall i :: 0 <= i < |history| && Recorded(history[i]) ==> !Before(baseline, history[i].key))
  }

  /** The baseline tells whether a recorded transaction was indexed before the subscription. */
  lemma BaselineDecides(baseline: TxKey, history: seq<Completion>, from: nat, t: nat)
    requires IsHistory(history) && from <= |history| && IsBaseline(baseline, history[..from]) && t < |history| &&
             Recorded(history[t])
    ensures Before(baseline, history[t].key) <==> from <= t
  {
    var i :| 0 <= i < from && history[..from][i].key == baseline && Recorded(history[..from][i]);
    HistoryOrder(history, i, t);
    if t < from { assert history[..from][t] == history[t]; }
  }

  /** What has been sent at one moment, with the awaited transaction at position `t` once it is there. */
  ghost predicate Sent(history: seq<Completion>, target: TxKey, t: nat) {
    && IsHistory(history)
    && (if t < |history| then history[t].key == target && Recorded(history[t])
        else forall i :: 0 <= i < |history| ==> Before(history[i].key, target))
  }

  lemma HistoryOrder(history: seq<Completion>, i: nat, t: nat)
    requires IsHistory(history) && i < |history| && t < |history|
    ensures history[i].key == history[t].key <==> i == t
    ensures Before(history[i].key, history[t].key) <==> i < t
  {
    if i < t { assert Before(history[i].key, history[t].key); }
    if t < i { assert Before(history[t].key, history[i].key); }
  }
}
