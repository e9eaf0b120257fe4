/** A subscriber catching up from the log and following a lossy broadcast, step by step. */
module Subscription {
  import opened Octets
  import opened Values
  import opened Model
  import opened TxLog

  /** Where the subscriber task is. A batch is accepted record by record. */
  datatype Phase =
    | CatchUp(limit: nat, remaining: Option<nat>)
    | Batch(rest: seq<Record>, size: nat, readLimit: nat, limit: nat, remaining: Option<nat>)
    | Live
    | Stopped

  /** Where the subscriber starts, the capacity of the channel, and the records sent before it subscribed. */
  datatype Config = Config(after: Option<I64>, capacity: nat, base: nat)

  datatype Sub = Sub(
    log: seq<Record>,
    sent: seq<Record>,
    cursor: nat,
    last: Option<I64>,
    accepted: seq<Record>,
    phase: Phase,
    cancelled: bool)

  // --- Steps -----------------------------------------------------------------------------

  datatype Action =
    | Append(r: Record) | Send(r: Record) | Read | ReadError | CaughtUp | Accept | BatchEnd | Receive | Lag | Cancel
      | Stop

  const INITIAL_BATCH: nat := 100
  const LAG_BATCH: nat := 65535

  function ReadLimit(limit: nat, remaining: Option<nat>): nat {
    if remaining.Some? && remaining.value < limit then remaining.value else limit
  }

  /** The oldest message the channel still holds. */
  function Oldest(c: Config, s: Sub): nat { if |s.sent| > c.capacity then |s.sent| - c.capacity else 0 }

  function Spend(remaining: Option<nat>, n: nat): Option<nat> {
    if remaining.None? then None else Some(if remaining.value > n then remaining.value - n else 0)
  }

  ghost predicate Initial(c: Config, s: Sub) {
    && Increasing(s.log) && c.base <= |s.log|
    && s == Sub(s.log, [], 0, c.after, [], CatchUp(INITIAL_BATCH, None), false)
  }

  ghost predicate Step(c: Config, s: Sub, a: Action, s': Sub) {
    match a
    case Append(r) => Increasing(s.log + [r]) && s' == s.(log := s.log + [r])
    case Send(r) => s' == s.(sent := s.sent + [r])
    case Read =>
      && s.phase.CatchUp? && s.phase.remaining != Some(0)
      && var n := ReadLimit(s.phase.limit, s.phase.remaining);
         var txs := ReadAfter(s.log, s.last, n);
         s' == s.(phase := if txs == [] then Live else Batch(txs, |txs|, n, s.phase.limit, s.phase.remaining))
    case ReadError => s.phase.CatchUp? && s' == if s.cancelled then s.(phase := Live) else s
    case CaughtUp => s.phase.CatchUp? && (s.phase.remaining == Some(0) || s.cancelled) && s' == s.(phase := Live)
    case Accept =>
      && s.phase.Batch? && s.phase.rest != []
      && s' == s.(accepted := s.accepted + [s.phase.rest[0]], phase := s.phase.(rest := s.phase.rest[1..]))
    case BatchEnd =>
      && s.phase.Batch? && s.phase.rest == [] && s.accepted != []
      && s' == s.(last := Some(RecordId(s.accepted[|s.accepted| - 1])),
                  phase := if s.phase.size < s.phase.readLimit then Live
                           else CatchUp(s.phase.limit, Spend(s.phase.remaining, s.phase.size)))
    case Receive =>
      && s.phase.Live? && Oldest(c, s) <= s.cursor < |s.sent|
      && var r := s.sent[s.cursor];
         s' == if s.last.Some? && RecordId(r) <= s.last.value then s.(cursor := s.cursor + 1)
               else s.(cursor := s.cursor + 1, last := Some(RecordId(r)), accepted := s.accepted + [r])
    case Lag =>
      && s.phase.Live? && s.cursor < Oldest(c, s)
      && s' == s.(cursor := Oldest(c, s), phase := CatchUp(LAG_BATCH, Some(Oldest(c, s) - s.cursor)))
    case Cancel => s' == s.(cancelled := true)
    case Stop => s.phase.Live? && s.cancelled && s' == s.(phase := Stopped)
  }

  /** How far in the log the broadcasts have come: the position of the next record to send. */
  ghost function Reach(log: seq<Record>, base: nat, sent: seq<Record>): (n: nat)
    ensures base <= n <= base + |sent| && (base <= |log| ==> n <= |log|)
  {
    if sent == [] then base
    else
      var n := Reach(log, base, sent[..|sent| - 1]);
      if n < |log| && sent[|sent| - 1] == log[n] then n + 1 else n
  }

  /** The record is the next one to send, or not later than one sent before. */
  ghost predicate InTurn(log: seq<Record>, n: nat, r: Record) {
    n <= |log| && ((n < |log| && r == log[n]) || (n > 0 && RecordId(r) <= RecordId(log[n - 1])))
  }

  /** Broadcasts do not run ahead of the log order; repeating earlier records is allowed. */
  ghost predicate InOrder(c: Config, s: Sub, a: Action) {
    a.Send? ==> InTurn(s.log, Reach(s.log, c.base, s.sent), a.r)
  }

  // --- Nothing is missed -----------------------------------------------------------------

  ghost function Start(c: Config, s: Sub): nat { Behind(s.log, c.after) }

  ghost function Position(c: Config, s: Sub): nat { Start(c, s) + |s.accepted| }

  /** The accepted records are those right after the starting point, in order. */
  ghost predicate Contiguous(c: Config, s: Sub) {
    Position(c, s) <= |s.log| && s.accepted == s.log[Start(c, s)..Position(c, s)]
  }

  /** Every message of the channel was in turn when it was sent. */
  ghost predicate SentInTurn(log: seq<Record>, base: nat, sent: seq<Record>) {
    base <= |log| && forall k :: 0 <= k < |sent| ==> InTurn(log, Reach(log, base, sent[..k]), sent[k])
  }

  ghost predicate Mirrored(c: Config, s: Sub) {
    s.cursor <= |s.sent| && SentInTurn(s.log, c.base, s.sent)
  }

  /** The position in the log the receiver's cursor has come to. */
  ghost function Seen(c: Config, s: Sub): nat {
    Reach(s.log, c.base, if s.cursor <= |s.sent| then s.sent[..s.cursor] else s.sent)
  }

  /** The last id stands right behind the accepted records. */
  ghost predicate AtPosition(c: Config, s: Sub) {
    s.last == if s.accepted == [] then c.after else Some(RecordId(s.accepted[|s.accepted| - 1]))
  }

  ghost predicate Covered(c: Config, s: Sub, ahead: nat) {
    Seen(c, s) <= Position(c, s) + ahead
  }

  /** Whatever the receiver has skipped is accepted already or will be, before it listens again. */
  ghost predicate PhaseOk(c: Config, s: Sub) {
    match s.phase
    case Live => AtPosition(c, s) && Covered(c, s, 0)
    case CatchUp(limit, remaining) => limit > 0 && AtPosition(c, s) &&
      (remaining.Some? ==> Covered(c, s, remaining.value))
    case Batch(rest, size, readLimit, limit, remaining) =>
      && limit > 0 && |rest| <= size && 0 < size <= readLimit && (rest == [] ==> s.accepted != [])
      && Position(c, s) + |rest| <= |s.log| && rest == s.log[Position(c, s)..Position(c, s) + |rest|]
      && (size < readLimit ==> Covered(c, s, |rest|))
      && (remaining.Some? ==> size <= remaining.value && Covered(c, s, |rest| + remaining.value - size))
    case Stopped => s.cancelled
  }

  ghost predicate Good(c: Config, s: Sub) {
    Increasing(s.log) && Mirrored(c, s) && Contiguous(c, s) && PhaseOk(c, s)
  }

  lemma InitialGood(c: Config, s: Sub)
    requires Initial(c, s)
    ensures Good(c, s)
  {
  }

  /** The reader stands exactly at the position. */
  lemma BehindLast(c: Config, s: Sub)
    requires Increasing(s.log) && Contiguous(c, s) && AtPosition(c, s)
    ensures Behind(s.log, s.last) == Position(c, s)
  {
    hide Behind, Increasing;
    if s.accepted != [] {
      assert s.accepted[|s.accepted| - 1] == s.log[Position(c, s) - 1];
      BehindAt(s.log, Position(c, s) - 1);
    }
  }

  // --- Each step -------------------------------------------------------------------------

  lemma AppendGood(c: Config, s: Sub, r: Record)
    requires Good(c, s) && Increasing(s.log + [r])
    ensures Good(c, s.(log := s.log + [r]))
  {
    hide Good, Start;
    StartStays(c, s, r);
    AppendMirrored(c, s, r);
    if Start(c, s.(log := s.log + [r])) == Start(c, s) { AppendStays(c, s, r); } else { AppendMoves(c, s, r); }
  }

  lemma {:induction false} ReachKept(log: seq<Record>, r: Record, base: nat, sent: seq<Record>)
    requires Increasing(log + [r]) && SentInTurn(log, base, sent)
    ensures Reach(log + [r], base, sent) == Reach(log, base, sent)
  {
    if sent != [] {
      var init, x := sent[..|sent| - 1], sent[|sent| - 1];
      forall k | 0 <= k < |init| ensures InTurn(log, Reach(log, base, init[..k]), init[k]) {
        assert init[..k] == sent[..k];
      }
      ReachKept(log, r, base, init);
      var n := Reach(log, base, init);
      assert InTurn(log, n, x);
      if n == |log| { assert RecordId((log + [r])[n - 1]) < RecordId((log + [r])[n]); }
    }
  }

  lemma AppendMirrored(c: Config, s: Sub, r: Record)
    requires Good(c, s) && Increasing(s.log + [r])
    ensures Mirrored(c, s.(log := s.log + [r])) && Seen(c, s.(log := s.log + [r])) == Seen(c, s)
  {
    hide Reach, Increasing, PhaseOk, Contiguous;
    forall k | 0 <= k <= |s.sent| ensures Reach(s.log + [r], c.base, s.sent[..k]) == Reach(s.log, c.base, s.sent[..k]) {
      PrefixInTurn(s.log, c.base, s.sent, k);
      ReachKept(s.log, r, c.base, s.sent[..k]);
    }
  }

  lemma PrefixInTurn(log: seq<Record>, base: nat, sent: seq<Record>, k: nat)
    requires SentInTurn(log, base, sent) && k <= |sent|
    ensures SentInTurn(log, base, sent[..k])
  {
    hide Reach, InTurn;
    forall j | 0 <= j < k ensures InTurn(log, Reach(log, base, sent[..k][..j]), sent[..k][j]) {
      assert sent[..k][..j] == sent[..j];
    }
  }

  lemma AppendStays(c: Config, s: Sub, r: Record)
    requires Good(c, s) && Increasing(s.log + [r]) && Start(c, s.(log := s.log + [r])) == Start(c, s)
    requires Mirrored(c, s.(log := s.log + [r])) && Seen(c, s.(log := s.log + [r])) == Seen(c, s)
    ensures Good(c, s.(log := s.log + [r]))
  {
    hide Start, Increasing, Mirrored, Seen;
    SliceKept(s.log, r, Start(c, s), Position(c, s));
    if s.phase.Batch? { SliceKept(s.log, r, Position(c, s), Position(c, s) + |s.phase.rest|); }
  }

  lemma AppendMoves(c: Config, s: Sub, r: Record)
    requires Good(c, s) && Increasing(s.log + [r]) && s.accepted == [] && !s.phase.Batch?
    requires Start(c, s.(log := s.log + [r])) == |s.log| + 1
    requires Mirrored(c, s.(log := s.log + [r])) && Seen(c, s.(log := s.log + [r])) == Seen(c, s)
    ensures Good(c, s.(log := s.log + [r]))
  {
    hide Start, Increasing, Mirrored, Seen;
  }

  lemma SliceKept(log: seq<Record>, r: Record, i: nat, j: nat)
    requires i <= j <= |log|
    ensures (log + [r])[i..j] == log[i..j]
  {
  }

  /** The starting point only moves while nothing has been accepted or read. */
  lemma StartStays(c: Config, s: Sub, r: Record)
    requires Good(c, s) && Increasing(s.log + [r])
    ensures Start(c, s.(log := s.log + [r])) == Start(c, s) ||
            (s.accepted == [] && !s.phase.Batch? && Start(c, s.(log := s.log + [r])) == |s.log| + 1)
  {
    hide Behind;
    BehindAppend(s.log, r, c.after);
    var more := s.log + [r];
    if s.accepted != [] || s.phase.Batch? {
      var i := Start(c, s);
      assert i < |s.log|;
      BehindSplits(s.log, c.after, i);
      assert RecordId(more[i]) < RecordId(more[|s.log|]);
    }
  }

  lemma SendGood(c: Config, s: Sub, r: Record)
    requires Good(c, s) && InTurn(s.log, Reach(s.log, c.base, s.sent), r)
    ensures Good(c, s.(sent := s.sent + [r]))
  {
    hide Behind, Reach, InTurn, Increasing;
    var more := s.sent + [r];
    forall k | 0 <= k < |more| ensures InTurn(s.log, Reach(s.log, c.base, more[..k]), more[k]) {
      assert more[..k] == s.sent[..k] && s.sent[..|s.sent|] == s.sent;
    }
    assert more[..s.cursor] == s.sent[..s.cursor];
  }

  lemma ReadGood(c: Config, s: Sub, s': Sub)
    requires Good(c, s) && Step(c, s, Read, s')
    ensures Good(c, s')
  {
    hide Behind, ReadAfter, Increasing, Reach, InTurn;
    BehindLast(c, s);
    var n := ReadLimit(s.phase.limit, s.phase.remaining);
    var txs := ReadAfter(s.log, s.last, n);
    ReadMeans(s.log, s.last, n);
    ReadShort(s.log, s.last, n);
    assert Mirrored(c, s') && Contiguous(c, s') && Position(c, s') == Position(c, s);
    hide Contiguous;
    assert |txs| < n ==> Position(c, s) + |txs| == |s.log|;
  }

  lemma ReadShort(log: seq<Record>, after: Option<I64>, limit: nat)
    ensures |ReadAfter(log, after, limit)| <= limit
    ensures |ReadAfter(log, after, limit)| < limit ==> Behind(log, after) + |ReadAfter(log, after, limit)| == |log|
  {
    hide Behind;
  }

  lemma AcceptGood(c: Config, s: Sub, s': Sub)
    requires Good(c, s) && Step(c, s, Accept, s')
    ensures Good(c, s')
  {
    hide Behind, Increasing;
    var p := Position(c, s);
    assert s.phase.rest[0] == s.log[p];
    assert s.log[Start(c, s)..p + 1] == s.log[Start(c, s)..p] + [s.log[p]];
    assert s.phase.rest[1..] == s.log[p + 1..p + |s.phase.rest|];
  }

  lemma BatchEndGood(c: Config, s: Sub, s': Sub)
    requires Good(c, s) && Step(c, s, BatchEnd, s')
    ensures Good(c, s')
  {
    hide Behind, Increasing;
  }

  /** One more message takes the reach at most one record further. */
  lemma ReachNext(log: seq<Record>, base: nat, sent: seq<Record>, k: nat)
    requires k < |sent|
    ensures var n := Reach(log, base, sent[..k]);
            Reach(log, base, sent[..k + 1]) == if n < |log| && sent[k] == log[n] then n + 1 else n
  {
    assert sent[..k + 1][..k] == sent[..k];
  }

  lemma {:induction false} ReachBound(log: seq<Record>, base: nat, sent: seq<Record>, k: nat, j: nat)
    requires k <= j <= |sent|
    ensures Reach(log, base, sent[..j]) <= Reach(log, base, sent[..k]) + (j - k)
    decreases j - k
  {
    hide Reach;
    if k < j {
      ReachNext(log, base, sent, j - 1);
      ReachBound(log, base, sent, k, j - 1);
    }
  }

  lemma ReceiveSeen(c: Config, s: Sub)
    requires Good(c, s) && s.phase.Live? && s.cursor < |s.sent| && Seen(c, s.(cursor := s.cursor + 1)) <= Position(c, s)
    ensures Good(c, s.(cursor := s.cursor + 1))
  {
    hide Behind, Increasing, Seen, SentInTurn;
  }

  lemma ReceiveNew(c: Config, s: Sub, r: Record)
    requires Good(c, s) && s.phase.Live? && s.cursor < |s.sent| && Position(c, s) < |s.log| &&
             r == s.log[Position(c, s)]
    requires Seen(c, s.(cursor := s.cursor + 1)) <= Position(c, s) + 1
    ensures Good(c, s.(cursor := s.cursor + 1, last := Some(RecordId(r)), accepted := s.accepted + [r]))
  {
    hide Behind, Increasing, SentInTurn, Reach;
    Next(s.log, Start(c, s), Position(c, s));
  }

  /** The next message is the next record or one already accepted, and the id check tells which. */
  lemma LiveCursor(c: Config, s: Sub)
    requires Good(c, s) && s.phase.Live? && s.cursor < |s.sent|
    ensures var r, p := s.sent[s.cursor], Position(c, s);
            if s.last.Some? && RecordId(r) <= s.last.value then Seen(c, s.(cursor := s.cursor + 1)) <= p
            else p < |s.log| && r == s.log[p] && Seen(c, s.(cursor := s.cursor + 1)) <= p + 1
  {
    hide Behind, Reach, PhaseOk, Contiguous;
    LiveParts(c, s);
    BehindLast(c, s);
    var r, n := s.sent[s.cursor], Seen(c, s);
    assert InTurn(s.log, n, r);
    ReachNext(s.log, c.base, s.sent, s.cursor);
    if n < |s.log| { BehindSplits(s.log, s.last, n); }
    if n > 0 { BehindSplits(s.log, s.last, n - 1); }
  }

  lemma LiveParts(c: Config, s: Sub)
    requires Good(c, s) && s.phase.Live?
    ensures AtPosition(c, s) && Contiguous(c, s) && Seen(c, s) <= Position(c, s)
  {
    hide Behind, Reach;
  }

  lemma ReceiveGood(c: Config, s: Sub, s': Sub)
    requires Good(c, s) && Step(c, s, Receive, s')
    ensures Good(c, s')
  {
    hide Good, Position, Seen;
    LiveCursor(c, s);
    var r := s.sent[s.cursor];
    if s.last.Some? && RecordId(r) <= s.last.value { ReceiveSeen(c, s); } else { ReceiveNew(c, s, r); }
  }

  lemma Next(log: seq<Record>, from: nat, i: nat)
    requires i < |log|
    ensures from <= i ==> log[from..i + 1] == log[from..i] + [log[i]]
  {
  }

  /** A lag owes no more records than it skips messages. */
  lemma LagGood(c: Config, s: Sub, s': Sub)
    requires Good(c, s) && Step(c, s, Lag, s')
    ensures Good(c, s')
  {
    hide Behind, Increasing, Reach, SentInTurn;
    ReachBound(s.log, c.base, s.sent, s.cursor, s'.cursor);
  }

  lemma StepGood(c: Config, s: Sub, a: Action, s': Sub)
    requires Good(c, s) && !s'.cancelled && Step(c, s, a, s') && InOrder(c, s, a)
    ensures Good(c, s')
  {
    match a
    case Append(r) => AppendGood(c, s, r);
    case Send(r) => SendGood(c, s, r);
    case Read => ReadGood(c, s, s');
    case ReadError =>
    case CaughtUp =>
    case Accept => AcceptGood(c, s, s');
    case BatchEnd => BatchEndGood(c, s, s');
    case Receive => ReceiveGood(c, s, s');
    case Lag => LagGood(c, s, s');
    case Cancel =>
    case Stop =>
  }

  // --- Runs ------------------------------------------------------------------------------

  ghost predicate IsRun(c: Config, states: seq<Sub>, actions: seq<Action>) {
    && |states| == |actions| + 1 && Initial(c, states[0])
    && forall i :: 0 <= i < |actions| ==> Step(c, states[i], actions[i], states[i + 1])
  }

  ghost predicate OrderedRun(c: Config, states: seq<Sub>, actions: seq<Action>)
    requires |states| == |actions| + 1
  {
    forall i :: 0 <= i < |actions| ==> InOrder(c, states[i], actions[i])
  }

  lemma CancelledStays(c: Config, s: Sub, a: Action, s': Sub)
    requires Step(c, s, a, s') && s.cancelled
    ensures s'.cancelled
  {
  }

  /**
   * With broadcasts in log order, in every state up to cancellation: the accepted records follow
   * the starting point without gap or repetition, and a live receiver has nothing unread behind
   * its cursor.
   */
  lemma {:induction false} NoGap(c: Config, states: seq<Sub>, actions: seq<Action>, i: nat)
    requires IsRun(c, states, actions) && OrderedRun(c, states, actions) && i < |states| && !states[i].cancelled
    ensures Good(c, states[i])
  {
    hide Good, Step, InOrder, Initial;
    if i == 0 {
      InitialGood(c, states[0]);
    } else {
      assert Step(c, states[i - 1], actions[i - 1], states[i - 1 + 1]);
      assert InOrder(c, states[i - 1], actions[i - 1]);
      if states[i - 1].cancelled { CancelledStays(c, states[i - 1], actions[i - 1], states[i]); }
      NoGap(c, states, actions, i - 1);
      StepGood(c, states[i - 1], actions[i - 1], states[i]);
    }
  }

  // --- Without any ordering --------------------------------------------------------------

  ghost predicate Ascending(rs: seq<Record>) {
    forall i, j :: 0 <= i < j < |rs| ==> RecordId(rs[i]) < RecordId(rs[j])
  }

  ghost predicate AllAfter(rs: seq<Record>, after: Option<I64>) {
    forall r :: r in rs && after.Some? ==> RecordId(r) > after.value
  }

  ghost predicate AllUpTo(rs: seq<Record>, last: Option<I64>) {
    forall r :: r in rs ==> last.Some? && RecordId(r) <= last.value
  }

  /** What is still in the batch comes after everything accepted. */
  ghost predicate Rising(c: Config, s: Sub) {
    && Increasing(s.log) && AllAfter(s.accepted, c.after)
    && (c.after.Some? ==> s.last.Some? && c.after.value <= s.last.value)
    && (if s.phase.Batch? then Ascending(s.accepted + s.phase.rest) && AllAfter(s.phase.rest, c.after)
        else Ascending(s.accepted) && AllUpTo(s.accepted, s.last))
  }

  lemma RisingRead(c: Config, s: Sub, s': Sub)
    requires Rising(c, s) && Step(c, s, Read, s')
    ensures Rising(c, s')
  {
    hide Behind, ReadAfter;
    var n := ReadLimit(s.phase.limit, s.phase.remaining);
    var txs := ReadAfter(s.log, s.last, n);
    ReadMeans(s.log, s.last, n);
    forall i, j | 0 <= i < j < |s.accepted + txs|
      ensures RecordId((s.accepted + txs)[i]) < RecordId((s.accepted + txs)[j])
    {
      if i < |s.accepted| <= j { assert s.accepted[i] in s.accepted && txs[j - |s.accepted|] in txs; }
    }
  }

  lemma RisingAccept(c: Config, s: Sub, s': Sub)
    requires Rising(c, s) && Step(c, s, Accept, s')
    ensures Rising(c, s')
  {
    hide Increasing;
    assert s.accepted + s.phase.rest == s.accepted + [s.phase.rest[0]] + s.phase.rest[1..];
    assert s.phase.rest[0] in s.phase.rest;
  }

  lemma RisingBatchEnd(c: Config, s: Sub, s': Sub)
    requires Rising(c, s) && Step(c, s, BatchEnd, s')
    ensures Rising(c, s')
  {
    hide Increasing;
    assert s.accepted + [] == s.accepted;
    assert s.accepted[|s.accepted| - 1] in s.accepted;
    forall r | r in s.accepted ensures RecordId(r) <= s'.last.value {
      var i :| 0 <= i < |s.accepted| && s.accepted[i] == r;
    }
  }

  lemma RisingReceive(c: Config, s: Sub, s': Sub)
    requires Rising(c, s) && Step(c, s, Receive, s')
    ensures Rising(c, s')
  {
    hide Increasing;
    forall i | 0 <= i < |s.accepted|
      ensures s.last.Some? && RecordId(s.accepted[i]) <= s.last.value
    {
      assert s.accepted[i] in s.accepted;
    }
  }

  lemma StepRising(c: Config, s: Sub, a: Action, s': Sub)
    requires Rising(c, s) && Step(c, s, a, s')
    ensures Rising(c, s')
  {
    match a
    case Append(r) =>
    case Send(r) =>
    case Read => RisingRead(c, s, s');
    case ReadError =>
    case CaughtUp =>
    case Accept => RisingAccept(c, s, s');
    case BatchEnd => RisingBatchEnd(c, s, s');
    case Receive => RisingReceive(c, s, s');
    case Lag =>
    case Cancel =>
    case Stop =>
  }

  /**
   * In every state of every run, ordered or not, cancelled or not, the accepted ids strictly increase
   * from the starting point.
   */
  lemma {:induction false} AlwaysRising(c: Config, states: seq<Sub>, actions: seq<Action>, i: nat)
    requires IsRun(c, states, actions) && i < |states|
    ensures Ascending(states[i].accepted) && AllAfter(states[i].accepted, c.after) && Rising(c, states[i])
  {
    hide Step;
    if i > 0 {
      AlwaysRising(c, states, actions, i - 1);
      assert Step(c, states[i - 1], actions[i - 1], states[i - 1 + 1]);
      StepRising(c, states[i - 1], actions[i - 1], states[i]);
    }
    AcceptedAscending(c, states[i]);
  }

  lemma AcceptedAscending(c: Config, s: Sub)
    requires Rising(c, s)
    ensures Ascending(s.accepted)
  {
    if s.phase.Batch? {
      forall i, j | 0 <= i < j < |s.accepted| ensures RecordId(s.accepted[i]) < RecordId(s.accepted[j]) {
        assert (s.accepted + s.phase.rest)[i] == s.accepted[i] && (s.accepted + s.phase.rest)[j] == s.accepted[j];
      }
    }
  }

  // --- Why both hypotheses are needed ----------------------------------------------------

  const R0: Record := Record(TxKey(0, 0), [])
  const R1: Record := Record(TxKey(1, 0), [])

  /** Before anything is appended, the first read finds the end of the log. */
  lemma EmptyRead(c: Config, s: Sub)
    requires s.log == [] && s.phase == CatchUp(INITIAL_BATCH, None)
    ensures Step(c, s, Read, s.(phase := Live))
  {
  }

  lemma TwoRecords()
    ensures Increasing([R0]) && Increasing([R0, R1]) && Behind([R0, R1], None) == 0
  {
  }

  const S0: Sub := Sub([], [], 0, None, [], CatchUp(INITIAL_BATCH, None), false)
  const S1: Sub := S0.(phase := Live)
  const S2: Sub := S1.(log := [R0])
  const S3: Sub := S2.(log := [R0, R1])

  /** A live subscriber, then two records in the log. */
  lemma Opening(c: Config)
    requires c.after == None && c.base == 0
    ensures Initial(c, S0) && Step(c, S0, Read, S1) && Step(c, S1, Append(R0), S2) && Step(c, S2, Append(R1), S3)
  {
    TwoRecords();
    EmptyRead(c, S0);
    assert [] + [R0] == [R0] && [R0] + [R1] == [R0, R1];
  }

  lemma SecondAlone(c: Config, s: Sub)
    requires c.after == None && s.log == [R0, R1] && s.accepted == [R1]
    ensures !Contiguous(c, s)
  {
    TwoRecords();
    assert s.log[0..1] == [R0];
  }

  const SWAPPED: Config := Config(None, 10, 0)
  const A4: Sub := S3.(sent := [R1])
  const A5: Sub := A4.(cursor := 1, last := Some(1), accepted := [R1])
  const A6: Sub := A5.(sent := [R1, R0])
  const A7: Sub := A6.(cursor := 2)

  lemma SwappedSteps()
    ensures Step(SWAPPED, S3, Send(R1), A4) && Step(SWAPPED, A4, Receive, A5) && Step(SWAPPED, A5, Send(R0), A6) &&
            Step(SWAPPED, A6, Receive, A7)
    ensures !InOrder(SWAPPED, S3, Send(R1))
  {
    assert [] + [R1] == [R1] && [R1] + [R0] == [R1, R0];
  }

  /** A broadcast out of order loses a record for good: the later one is accepted, the earlier one looks seen. */
  lemma OutOfOrderLoses() returns (states: seq<Sub>, actions: seq<Action>)
    ensures IsRun(SWAPPED, states, actions) && !OrderedRun(SWAPPED, states, actions)
    ensures var s := states[|states| - 1];
            !s.cancelled && s.log == [R0, R1] && s.cursor == 2 && s.accepted == [R1] && !Contiguous(SWAPPED, s)
  {
    hide Step, InOrder, Initial, Contiguous;
    states := [S0, S1, S2, S3, A4, A5, A6, A7];
    actions := [Read, Append(R0), Append(R1), Send(R1), Receive, Send(R0), Receive];
    Opening(SWAPPED);
    SwappedSteps();
    SecondAlone(SWAPPED, A7);
    assert states[3] == S3 && actions[3] == Send(R1);
  }

  const LAGGING: Config := Config(None, 1, 0)
  const B4: Sub := S3.(sent := [R0])
  const B5: Sub := B4.(sent := [R0, R1])
  const B6: Sub := B5.(cursor := 1, phase := CatchUp(LAG_BATCH, Some(1)))
  const B7: Sub := B6.(cancelled := true)
  const B8: Sub := B7.(phase := Live)
  const B9: Sub := B8.(cursor := 2, last := Some(1), accepted := [R1])

  lemma LaggingSends()
    ensures Step(LAGGING, S3, Send(R0), B4) && Step(LAGGING, B4, Send(R1), B5) && Step(LAGGING, B5, Lag, B6)
    ensures InOrder(LAGGING, S3, Send(R0)) && InOrder(LAGGING, B4, Send(R1))
  {
    assert [] + [R0] == [R0] && [R0] + [R1] == [R0, R1];
  }

  lemma CutShort()
    ensures Step(LAGGING, B6, Cancel, B7) && Step(LAGGING, B7, CaughtUp, B8) && Step(LAGGING, B8, Receive, B9)
  {
    assert [] + [R1] == [R1];
  }

  /** After a cancellation the live loop may still receive: a lag catch-up cut short leaves a gap. */
  lemma CancelledMayGap() returns (states: seq<Sub>, actions: seq<Action>)
    ensures IsRun(LAGGING, states, actions) && OrderedRun(LAGGING, states, actions)
    ensures var s := states[|states| - 1];
            s.cancelled && s.log == [R0, R1] && s.accepted == [R1] && !Contiguous(LAGGING, s)
  {
    hide Step, Initial, Contiguous;
    states := [S0, S1, S2, S3, B4, B5, B6, B7, B8, B9];
    actions := [Read, Append(R0), Append(R1), Send(R0), Send(R1), Lag, Cancel, CaughtUp, Receive];
    Opening(LAGGING);
    LaggingSends();
    CutShort();
    SecondAlone(LAGGING, B9);
  }
}
