/** Which orders of appends and broadcasts a subscriber can follow without a gap. */
module Schedules {
  import opened Octets
  import opened TxLog
  import opened Subscription

  // --- Schedules -------------------------------------------------------------------------

  predicate Writes(a: Action) { a.Append? || a.Send? }

  /** What the writers do in a run. */
  function WritesOf(actions: seq<Action>): seq<Action> {
    if actions == [] then []
    else
      var init, a := WritesOf(actions[..|actions| - 1]), actions[|actions| - 1];
      if Writes(a) then init + [a] else init
  }

  function Appended(ws: seq<Action>): seq<Record> {
    if ws == [] then []
    else
      var init, a := Appended(ws[..|ws| - 1]), ws[|ws| - 1];
      if a.Append? then init + [a.r] else init
  }

  function Broadcast(ws: seq<Action>): seq<Record> {
    if ws == [] then []
    else
      var init, a := Broadcast(ws[..|ws| - 1]), ws[|ws| - 1];
      if a.Send? then init + [a.r] else init
  }

  /** Appends and broadcasts from an empty log, the appended ids growing. */
  ghost predicate IsSchedule(ws: seq<Action>) {
    (forall i :: 0 <= i < |ws| ==> Writes(ws[i])) && Increasing(Appended(ws))
  }

  ghost predicate TurnAt(ws: seq<Action>, i: nat)
    requires i < |ws|
  {
    var log := Appended(ws[..i]);
    ws[i].Send? ==> InTurn(log, Reach(log, 0, Broadcast(ws[..i])), ws[i].r)
  }

  /** Every broadcast is the next record of the log or not later than one broadcast before. */
  ghost predicate Orderly(ws: seq<Action>) {
    forall i :: 0 <= i < |ws| ==> TurnAt(ws, i)
  }

  /** A run of a subscriber to a log that was empty when it subscribed. */
  ghost predicate RunsWith(ws: seq<Action>, c: Config, states: seq<Sub>, actions: seq<Action>) {
    IsRun(c, states, actions) && states[0].log == [] && WritesOf(actions) == ws
  }

  ghost predicate NeverGaps(ws: seq<Action>) {
    forall c, states: seq<Sub>, actions, i: nat ::
      RunsWith(ws, c, states, actions) && i < |states| && !states[i].cancelled ==>
      Contiguous(c, states[i])
  }

  lemma {:induction false} WritesPrefix(actions: seq<Action>, i: nat)
    requires i <= |actions|
    ensures WritesOf(actions[..i]) <= WritesOf(actions)
    decreases |actions|
  {
    if i == |actions| {
      assert actions[..i] == actions;
    } else {
      assert actions[..|actions| - 1][..i] == actions[..i];
      WritesPrefix(actions[..|actions| - 1], i);
    }
  }

  /** The log and the channel of a run are what its writers appended and sent. */
  lemma {:induction false} RunWrites(c: Config, states: seq<Sub>, actions: seq<Action>, i: nat)
    requires IsRun(c, states, actions) && states[0].log == [] && i < |states|
    ensures var ws := WritesOf(actions[..i]); states[i].log == Appended(ws) && states[i].sent == Broadcast(ws)
  {
    hide Step;
    if i == 0 {
      assert actions[..0] == [];
    } else {
      hide Initial, WritesOf, Appended, Broadcast;
      RunWrites(c, states, actions, i - 1);
      assert Step(c, states[i - 1], actions[i - 1], states[i - 1 + 1]);
      assert actions[..i][..i - 1] == actions[..i - 1] && actions[..i][i - 1] == actions[i - 1];
      OneMoreWrite(actions[..i]);
      WroteStep(c, states[i - 1], actions[i - 1], states[i]);
    }
  }

  lemma OneMoreWrite(actions: seq<Action>)
    requires actions != []
    ensures var before, a, ws := WritesOf(actions[..|actions| - 1]), actions[|actions| - 1], WritesOf(actions);
            && Appended(ws) == Appended(before) + (if a.Append? then [a.r] else [])
            && Broadcast(ws) == Broadcast(before) + (if a.Send? then [a.r] else [])
  {
    var before, a := WritesOf(actions[..|actions| - 1]), actions[|actions| - 1];
    assert (before + [a])[..|before|] == before;
  }

  lemma WroteStep(c: Config, s: Sub, a: Action, s': Sub)
    requires Step(c, s, a, s')
    ensures s'.log == (if a.Append? then s.log + [a.r] else s.log)
    ensures s'.sent == (if a.Send? then s.sent + [a.r] else s.sent)
  {
  }

  lemma OrderlyRun(ws: seq<Action>, c: Config, states: seq<Sub>, actions: seq<Action>)
    requires Orderly(ws) && RunsWith(ws, c, states, actions)
    ensures OrderedRun(c, states, actions)
  {
    hide Step, InTurn, Reach, Appended, Broadcast;
    forall i | 0 <= i < |actions| ensures InOrder(c, states[i], actions[i]) {
      if actions[i].Send? {
        RunWrites(c, states, actions, i);
        WritesPrefix(actions, i + 1);
        var before := WritesOf(actions[..i]);
        assert actions[..i + 1][..i] == actions[..i] && actions[..i + 1][i] == actions[i];
        assert WritesOf(actions[..i + 1]) == before + [actions[i]];
        assert ws[..|before|] == before && ws[|before|] == actions[i];
        assert TurnAt(ws, |before|);
      }
    }
  }

  /** A subscriber that is live from the start and receives each message at once. */
  const EAGER: Config := Config(None, 1, 0)

  function Receipt(s: Sub, r: Record): Sub {
    var t := s.(sent := s.sent + [r], cursor := s.cursor + 1);
    if s.last.Some? && RecordId(r) <= s.last.value then t
    else t.(last := Some(RecordId(r)), accepted := s.accepted + [r])
  }

  function EagerState(ws: seq<Action>): Sub {
    if ws == [] then S1
    else
      var s, a := EagerState(ws[..|ws| - 1]), ws[|ws| - 1];
      if a.Append? then s.(log := s.log + [a.r]) else if a.Send? then Receipt(s, a.r) else s
  }

  lemma {:induction false} EagerHolds(ws: seq<Action>)
    requires forall i :: 0 <= i < |ws| ==> Writes(ws[i])
    ensures var s := EagerState(ws);
            && s.log == Appended(ws) && s.sent == Broadcast(ws) && s.cursor == |s.sent|
            && s.phase.Live? && !s.cancelled && (s.last.None? ==> s.accepted == [])
  {
    if ws != [] { EagerHolds(ws[..|ws| - 1]); }
  }

  lemma ShorterSchedule(ws: seq<Action>, i: nat)
    requires IsSchedule(ws) && i <= |ws|
    ensures IsSchedule(ws[..i])
    decreases |ws| - i
  {
    if i == |ws| {
      assert ws[..i] == ws;
    } else {
      ShorterSchedule(ws, i + 1);
      assert ws[..i + 1][..i] == ws[..i];
      var log, more := Appended(ws[..i]), Appended(ws[..i + 1]);
      assert log <= more;
    }
  }

  /** One more action of a run. */
  lemma ExtendRun(c: Config, states: seq<Sub>, actions: seq<Action>, a: Action, s': Sub)
    requires IsRun(c, states, actions) && Step(c, states[|states| - 1], a, s')
    ensures IsRun(c, states + [s'], actions + [a])
    ensures WritesOf(actions + [a]) == WritesOf(actions) + (if Writes(a) then [a] else [])
  {
    hide Step, Initial;
    assert (actions + [a])[..|actions|] == actions;
  }

  lemma {:induction false} EagerRun(ws: seq<Action>) returns (states: seq<Sub>, actions: seq<Action>)
    requires IsSchedule(ws)
    ensures RunsWith(ws, EAGER, states, actions) && states[|states| - 1] == EagerState(ws)
    ensures forall i :: 0 <= i <= |ws| ==> EagerState(ws[..i]) in states
  {
    hide *;
    if ws == [] {
      states, actions := EagerStart();
      assert ws[..0] == [];
    } else {
      var n := |ws| - 1;
      ShorterSchedule(ws, n);
      var before, done := EagerRun(ws[..n]);
      states, actions := EagerExtend(ws, before, done);
      forall i | 0 <= i <= |ws| ensures EagerState(ws[..i]) in states {
        if i < |ws| { assert ws[..n][..i] == ws[..i]; } else { assert ws[..i] == ws; }
      }
    }
  }

  lemma EagerExtend(ws: seq<Action>, before: seq<Sub>, done: seq<Action>)
    returns (states: seq<Sub>, actions: seq<Action>)
    requires IsSchedule(ws) && ws != [] && RunsWith(ws[..|ws| - 1], EAGER, before, done)
    requires before[|before| - 1] == EagerState(ws[..|ws| - 1])
    ensures RunsWith(ws, EAGER, states, actions) && states[|states| - 1] == EagerState(ws)
    ensures forall s :: s in before || s == EagerState(ws) ==> s in states
  {
    hide Step, Initial, Increasing, Receipt, WritesOf, IsRun;
    var init, a := ws[..|ws| - 1], ws[|ws| - 1];
    assert init + [a] == ws && Writes(a);
    ShorterSchedule(ws, |ws| - 1);
    EagerHolds(init);
    RunNonEmpty(EAGER, before, done);
    var s, s' := EagerState(init), EagerState(ws);
    if a.Append? {
      EagerAppend(ws);
      ExtendRun(EAGER, before, done, a, s');
      states, actions := before + [s'], done + [a];
    } else {
      var mid := s.(sent := s.sent + [a.r]);
      EagerReceive(s, a.r);
      ExtendRun(EAGER, before, done, a, mid);
      ExtendRun(EAGER, before + [mid], done + [a], Receive, s');
      states, actions := before + [mid] + [s'], done + [a] + [Receive];
    }
  }

  lemma RunNonEmpty(c: Config, states: seq<Sub>, actions: seq<Action>)
    requires IsRun(c, states, actions)
    ensures states != []
  {
  }

  lemma EagerStart() returns (states: seq<Sub>, actions: seq<Action>)
    ensures RunsWith([], EAGER, states, actions) && states == [S0, S1] && EagerState([]) == S1
  {
    states, actions := [S0, S1], [Read];
    EmptyRead(EAGER, S0);
    assert [Read][..0] == [];
  }

  lemma EagerAppend(ws: seq<Action>)
    requires IsSchedule(ws) && ws != [] && ws[|ws| - 1].Append?
    ensures Step(EAGER, EagerState(ws[..|ws| - 1]), ws[|ws| - 1], EagerState(ws))
  {
    EagerHolds(ws[..|ws| - 1]);
  }

  lemma EagerReceive(s: Sub, r: Record)
    requires s.phase.Live? && s.cursor == |s.sent|
    ensures var mid := s.(sent := s.sent + [r]);
            Step(EAGER, s, Send(r), mid) && Step(EAGER, mid, Receive, Receipt(s, r))
  {
  }

  ghost predicate Follows(s: Sub) {
    var n := Reach(s.log, 0, s.sent);
    && n <= |s.log| && s.accepted == s.log[..n]
    && s.last == (if n == 0 then None else Some(RecordId(s.log[n - 1])))
  }

  lemma OrderlyPrefix(ws: seq<Action>, i: nat)
    requires Orderly(ws) && i <= |ws|
    ensures Orderly(ws[..i])
  {
    hide Reach, InTurn, Appended, Broadcast;
    forall j | 0 <= j < i ensures TurnAt(ws[..i], j) {
      assert TurnAt(ws, j) && ws[..i][..j] == ws[..j];
    }
  }

  lemma FollowsAppend(s: Sub, r: Record)
    requires Follows(s) && Increasing(s.log + [r]) && SentInTurn(s.log, 0, s.sent)
    ensures Follows(s.(log := s.log + [r])) && SentInTurn(s.log + [r], 0, s.sent)
  {
    hide Reach;
    forall k | 0 <= k <= |s.sent| ensures Reach(s.log + [r], 0, s.sent[..k]) == Reach(s.log, 0, s.sent[..k]) {
      PrefixInTurn(s.log, 0, s.sent, k);
      ReachKept(s.log, r, 0, s.sent[..k]);
    }
    assert s.sent[..|s.sent|] == s.sent;
  }

  lemma SendInTurn(log: seq<Record>, sent: seq<Record>, r: Record)
    requires SentInTurn(log, 0, sent) && InTurn(log, Reach(log, 0, sent), r)
    ensures SentInTurn(log, 0, sent + [r])
    ensures var n := Reach(log, 0, sent); Reach(log, 0, sent + [r]) == if n < |log| && r == log[n] then n + 1 else n
  {
    hide Reach, InTurn;
    var more := sent + [r];
    ReachNext(log, 0, more, |sent|);
    assert more[..|sent|] == sent && more[..|more|] == more;
    forall k | 0 <= k < |more| ensures InTurn(log, Reach(log, 0, more[..k]), more[k]) {
      if k < |sent| { assert more[..k] == sent[..k]; }
    }
  }

  lemma FollowsSend(s: Sub, r: Record)
    requires Follows(s) && Increasing(s.log) && SentInTurn(s.log, 0, s.sent) &&
             InTurn(s.log, Reach(s.log, 0, s.sent), r)
    ensures Follows(Receipt(s, r)) && SentInTurn(s.log, 0, s.sent + [r])
  {
    hide Reach, SentInTurn;
    SendInTurn(s.log, s.sent, r);
    var n := Reach(s.log, 0, s.sent);
    if n < |s.log| && r == s.log[n] { assert s.log[..n + 1] == s.log[..n] + [s.log[n]]; }
  }

  /** While the schedule is orderly the eager subscriber has accepted exactly what the broadcasts have reached. */
  lemma {:induction false} EagerFollows(ws: seq<Action>)
    requires IsSchedule(ws) && Orderly(ws)
    ensures Follows(EagerState(ws)) && SentInTurn(Appended(ws), 0, Broadcast(ws))
  {
    EagerHolds(ws);
    if ws != [] {
      hide Follows, SentInTurn, InTurn, Reach, Receipt;
      var init, a := ws[..|ws| - 1], ws[|ws| - 1];
      ShorterSchedule(ws, |ws| - 1);
      OrderlyPrefix(ws, |ws| - 1);
      EagerFollows(init);
      EagerHolds(init);
      assert TurnAt(ws, |ws| - 1);
      if a.Append? { FollowsAppend(EagerState(init), a.r); } else { FollowsSend(EagerState(init), a.r); }
    }
  }

  /** The first broadcast out of turn is accepted, and leaves a gap. */
  lemma EagerGaps(ws: seq<Action>)
    requires IsSchedule(ws) && ws != [] && Orderly(ws[..|ws| - 1]) && !TurnAt(ws, |ws| - 1)
    ensures !Contiguous(EAGER, EagerState(ws))
  {
    hide Reach;
    var init, r := ws[..|ws| - 1], ws[|ws| - 1].r;
    ShorterSchedule(ws, |ws| - 1);
    EagerFollows(init);
    EagerHolds(init);
    var s, s' := EagerState(init), EagerState(ws);
    var n := Reach(s.log, 0, s.sent);
    assert s' == Receipt(s, r);
    assert s'.accepted == s.log[..n] + [r];
    assert s'.accepted[n] == r;
  }

  lemma {:induction false} FirstOutOfTurn(ws: seq<Action>) returns (i: nat)
    requires !Orderly(ws)
    ensures i < |ws| && Orderly(ws[..i]) && !TurnAt(ws, i)
  {
    if Orderly(ws[..|ws| - 1]) {
      i := |ws| - 1;
      TurnOfPrefix(ws, |ws| - 1);
    } else {
      i := FirstOutOfTurn(ws[..|ws| - 1]);
      assert ws[..|ws| - 1][..i] == ws[..i];
      TurnOfPrefix(ws, |ws| - 1);
    }
  }

  lemma TurnOfPrefix(ws: seq<Action>, n: nat)
    requires n <= |ws|
    ensures forall j :: 0 <= j < n ==> (TurnAt(ws[..n], j) <==> TurnAt(ws, j))
  {
    hide Reach, InTurn, Appended, Broadcast;
    forall j | 0 <= j < n ensures TurnAt(ws[..n], j) <==> TurnAt(ws, j) { assert ws[..n][..j] == ws[..j]; }
  }

  /**
   * The promise, exactly: no subscriber to a log with these appends and broadcasts ever has a gap
   * before it is cancelled, if and only if every broadcast is the next record of the log or not later
   * than one broadcast before.
   */
  lemma NeverGapsIff(ws: seq<Action>)
    requires IsSchedule(ws)
    ensures Orderly(ws) <==> NeverGaps(ws)
  {
    hide Step, Contiguous, Good, TurnAt, InOrder;
    if Orderly(ws) {
      forall c, states: seq<Sub>, actions, i: nat
        | RunsWith(ws, c, states, actions) && i < |states| && !states[i].cancelled
        ensures Contiguous(c, states[i])
      {
        OrderlyRun(ws, c, states, actions);
        NoGap(c, states, actions, i);
        GoodContiguous(c, states[i]);
      }
    } else {
      var i := FirstOutOfTurn(ws);
      var states, actions := EagerRun(ws);
      var part := ws[..i + 1];
      ShorterSchedule(ws, i + 1);
      assert part[..i] == ws[..i];
      TurnOfPrefix(ws, i + 1);
      EagerGaps(part);
      EagerHolds(part);
      var j: nat :| j < |states| && states[j] == EagerState(part);
      assert RunsWith(ws, EAGER, states, actions) && !states[j].cancelled && !Contiguous(EAGER, states[j]);
    }
  }

  lemma GoodContiguous(c: Config, s: Sub)
    requires Good(c, s)
    ensures Contiguous(c, s)
  {
  }
}
