/** A subscriber left to itself catches up, after a bounded number of its own actions. */
module Progress {
  import opened Octets
  import opened TxLog
  import opened Subscription

  // --- The work that is left -------------------------------------------------------------

  /** The actions of the subscriber task that do not fail. */
  predicate Works(a: Action) { a.Read? || a.CaughtUp? || a.Accept? || a.BatchEnd? || a.Receive? || a.Lag? }

  function PhaseCost(p: Phase): nat {
    match p
    case Live => 0
    case CatchUp(_, _) => 2
    case Batch(rest, _, _, _, _) => if rest == [] then 3 else 1
    case Stopped => 0
  }

  /** Records not yet accepted, messages not yet received, and what the phase still has to do. */
  ghost function Work(c: Config, s: Sub): (n: nat)
    ensures n <= 3 * |s.log| + 3 * |s.sent| + 3
  {
    var p := Position(c, s);
    3 * (if p <= |s.log| then |s.log| - p else 0) + 3 * (if s.cursor <= |s.sent| then |s.sent| - s.cursor else 0) +
    PhaseCost(s.phase)
  }

  /** The subscriber listens, and no message is waiting. */
  predicate Settled(s: Sub) { s.phase.Live? && s.cursor == |s.sent| }

  // --- Every action makes progress -------------------------------------------------------

  lemma ReadWorks(c: Config, s: Sub, s': Sub)
    requires Good(c, s) && Step(c, s, Read, s')
    ensures Work(c, s') < Work(c, s) && (s'.phase.Live? ==> Position(c, s) == |s.log|)
  {
    hide Behind, ReadAfter, Increasing, Reach, InTurn;
    BehindLast(c, s);
    ReadShort(s.log, s.last, ReadLimit(s.phase.limit, s.phase.remaining));
  }

  lemma AcceptWorks(c: Config, s: Sub, s': Sub)
    requires Good(c, s) && Step(c, s, Accept, s')
    ensures Work(c, s') < Work(c, s)
  {
    hide Behind, Increasing, Reach, InTurn;
  }

  lemma ReceiveWorks(c: Config, s: Sub, s': Sub)
    requires Good(c, s) && Good(c, s') && Step(c, s, Receive, s')
    ensures Work(c, s') < Work(c, s)
  {
    hide Behind, Increasing, Reach, SentInTurn;
  }

  /** No action of the subscriber is wasted. */
  lemma ActionWorks(c: Config, s: Sub, a: Action, s': Sub)
    requires Good(c, s) && Good(c, s') && Step(c, s, a, s') && Works(a)
    ensures Work(c, s') < Work(c, s)
  {
    hide Behind, Increasing, Reach, SentInTurn, Good;
    match a
    case Read => ReadWorks(c, s, s');
    case CaughtUp =>
    case Accept => AcceptWorks(c, s, s');
    case BatchEnd =>
    case Receive => ReceiveWorks(c, s, s');
    case Lag => CursorInside(c, s);
  }

  lemma CursorInside(c: Config, s: Sub)
    requires Good(c, s)
    ensures s.cursor <= |s.sent|
  {
    hide Behind, Increasing, Reach, SentInTurn, PhaseOk, Contiguous;
  }

  /** Until it has settled there is always something it can do. */
  lemma Busy(c: Config, s: Sub) returns (a: Action, s': Sub)
    requires Good(c, s) && !s.cancelled && !Settled(s)
    ensures Works(a) && Step(c, s, a, s') && s'.log == s.log && s'.sent == s.sent && !s'.cancelled
  {
    hide Behind, Increasing, Reach, SentInTurn, ReadAfter;
    match s.phase
    case CatchUp(limit, remaining) =>
      if remaining == Some(0) {
        a, s' := CaughtUp, s.(phase := Live);
      } else {
        var n := ReadLimit(limit, remaining);
        var txs := ReadAfter(s.log, s.last, n);
        a, s' := Read, s.(phase := if txs == [] then Live else Batch(txs, |txs|, n, limit, remaining));
      }
    case Batch(rest, size, readLimit, limit, remaining) =>
      if rest == [] {
        a := BatchEnd;
        s' := s.(last := Some(RecordId(s.accepted[|s.accepted| - 1])),
                 phase := if size < readLimit then Live else CatchUp(limit, Spend(remaining, size)));
      } else {
        a, s' := Accept, s.(accepted := s.accepted + [rest[0]], phase := s.phase.(rest := rest[1..]));
      }
    case Live => a, s' := Listen(c, s);
  }

  lemma Listen(c: Config, s: Sub) returns (a: Action, s': Sub)
    requires s.phase.Live? && s.cursor < |s.sent|
    ensures Works(a) && Step(c, s, a, s') && s'.log == s.log && s'.sent == s.sent && s'.cancelled == s.cancelled
  {
    if s.cursor < Oldest(c, s) {
      a, s' := Lag, s.(cursor := Oldest(c, s), phase := CatchUp(LAG_BATCH, Some(Oldest(c, s) - s.cursor)));
    } else {
      var r := s.sent[s.cursor];
      a := Receive;
      s' := if s.last.Some? && RecordId(r) <= s.last.value then s.(cursor := s.cursor + 1)
            else s.(cursor := s.cursor + 1, last := Some(RecordId(r)), accepted := s.accepted + [r]);
    }
  }

  // --- Whole continuations ---------------------------------------------------------------

  /** A sequence of the subscriber's own actions, while nobody appends, sends or cancels. */
  ghost predicate Continues(c: Config, s: Sub, states: seq<Sub>, actions: seq<Action>) {
    && |states| == |actions| + 1 && states[0] == s
    && forall i :: 0 <= i < |actions| ==> Works(actions[i]) && Step(c, states[i], actions[i], states[i + 1])
  }

  lemma StepKeepsGood(c: Config, s: Sub, a: Action, s': Sub)
    requires Good(c, s) && !s.cancelled && Works(a) && Step(c, s, a, s')
    ensures Good(c, s') && !s'.cancelled && s'.log == s.log && s'.sent == s.sent
  {
    hide Good;
    StepGood(c, s, a, s');
  }

  /** However the subscriber goes on, it stops after at most that much work. */
  lemma {:induction false} AtMostWork(c: Config, s: Sub, states: seq<Sub>, actions: seq<Action>, i: nat)
    requires Good(c, s) && !s.cancelled && Continues(c, s, states, actions) && i < |states|
    ensures Good(c, states[i]) && !states[i].cancelled && states[i].log == s.log && states[i].sent == s.sent
    ensures i + Work(c, states[i]) <= Work(c, s)
  {
    hide Good, Step, Work, Works;
    if i > 0 {
      AtMostWork(c, s, states, actions, i - 1);
      assert Works(actions[i - 1]) && Step(c, states[i - 1], actions[i - 1], states[i - 1 + 1]);
      StepKeepsGood(c, states[i - 1], actions[i - 1], states[i]);
      ActionWorks(c, states[i - 1], actions[i - 1], states[i]);
    }
  }

  /** A settled subscriber has accepted everything the broadcasts have reached. */
  lemma SettledReaches(c: Config, s: Sub)
    requires Good(c, s) && Settled(s)
    ensures Position(c, s) >= Reach(s.log, c.base, s.sent) && Contiguous(c, s)
  {
    hide Behind, Increasing, Reach, SentInTurn;
    assert s.sent[..s.cursor] == s.sent;
  }

  lemma Prepend(c: Config, s: Sub, a: Action, s': Sub, states: seq<Sub>, actions: seq<Action>)
    requires Works(a) && Step(c, s, a, s') && Continues(c, s', states, actions)
    ensures Continues(c, s, [s] + states, [a] + actions)
  {
    hide Step, Works;
  }

  lemma {:induction false} Settles(c: Config, s: Sub) returns (states: seq<Sub>, actions: seq<Action>)
    requires Good(c, s) && !s.cancelled
    ensures Continues(c, s, states, actions) && Settled(states[|actions|])
    decreases Work(c, s)
  {
    hide Good, Step, Work, Works, Settled;
    if Settled(s) {
      states, actions := [s], [];
    } else {
      var a, s' := Busy(c, s);
      StepKeepsGood(c, s, a, s');
      ActionWorks(c, s, a, s');
      var rest, done := Settles(c, s');
      Prepend(c, s, a, s', rest, done);
      states, actions := [s] + rest, [a] + done;
    }
  }

  /**
   * From every uncancelled state of an ordered run the subscriber can go on by itself, for a bounded number
   * of actions, until it listens with no message waiting and has accepted everything the broadcasts have
   * reached.
   */
  lemma CatchesUp(c: Config, states: seq<Sub>, actions: seq<Action>, i: nat) returns (more: seq<Sub>, own: seq<Action>)
    requires IsRun(c, states, actions) && OrderedRun(c, states, actions) && i < |states| && !states[i].cancelled
    ensures Continues(c, states[i], more, own) && |own| <= 3 * |states[i].log| + 3 * |states[i].sent| + 3
    ensures var s := more[|own|];
            && Settled(s) && s.log == states[i].log && s.sent == states[i].sent
            && Position(c, s) >= Reach(s.log, c.base, s.sent) && Contiguous(c, s)
  {
    hide Good, Settled, IsRun, OrderedRun, Reach, Contiguous;
    NoGap(c, states, actions, i);
    more, own := Settles(c, states[i]);
    AtMostWork(c, states[i], more, own, |own|);
    SettledReaches(c, more[|own|]);
  }

  // --- A log at rest ---------------------------------------------------------------------

  /** A subscriber that reads to the end of the log. */
  ghost predicate ReadsOn(c: Config, s: Sub) {
    && s.sent == []
    && match s.phase
       case CatchUp(_, remaining) => remaining.None?
       case Batch(rest, size, readLimit, _, remaining) =>
         remaining.None? && (size < readLimit ==> Position(c, s) + |rest| == |s.log|)
       case Live => Position(c, s) == |s.log|
       case Stopped => false
  }

  lemma StillReadsOn(c: Config, s: Sub, a: Action, s': Sub)
    requires Good(c, s) && !s.cancelled && ReadsOn(c, s) && Works(a) && Step(c, s, a, s')
    ensures ReadsOn(c, s')
  {
    hide Behind, Increasing, Reach, SentInTurn, ReadAfter;
    if a.Read? {
      BehindLast(c, s);
      ReadShort(s.log, s.last, ReadLimit(s.phase.limit, s.phase.remaining));
    }
  }

  lemma {:induction false} AllReadOn(c: Config, s: Sub, states: seq<Sub>, actions: seq<Action>, i: nat)
    requires Good(c, s) && !s.cancelled && ReadsOn(c, s) && Continues(c, s, states, actions) && i < |states|
    ensures ReadsOn(c, states[i])
  {
    hide Good, Step, Works, ReadsOn;
    if i > 0 {
      AllReadOn(c, s, states, actions, i - 1);
      AtMostWork(c, s, states, actions, i - 1);
      assert Works(actions[i - 1]) && Step(c, states[i - 1], actions[i - 1], states[i - 1 + 1]);
      StillReadsOn(c, states[i - 1], actions[i - 1], states[i]);
    }
  }

  /** On a log at rest, a new subscriber that has settled has accepted every record after its starting point. */
  lemma ReadsAll(c: Config, s: Sub, states: seq<Sub>, actions: seq<Action>)
    requires Initial(c, s) && Continues(c, s, states, actions) && Settled(states[|actions|])
    ensures |actions| <= 3 * |s.log| + 3
    ensures states[|actions|].accepted == s.log[Behind(s.log, c.after)..]
  {
    hide Good, Continues, Increasing, Behind;
    InitialGood(c, s);
    ContinuesLength(c, s, states, actions);
    var n := |actions|;
    AtMostWork(c, s, states, actions, n);
    AllReadOn(c, s, states, actions, n);
    SettledReaches(c, states[n]);
  }

  lemma ContinuesLength(c: Config, s: Sub, states: seq<Sub>, actions: seq<Action>)
    requires Continues(c, s, states, actions)
    ensures |states| == |actions| + 1
  {
    hide Step;
  }
}
