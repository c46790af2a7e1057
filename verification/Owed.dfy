/** A setup marked first really is the first thing the program sends on its connection, in every run. */
module Owed {
  import opened Ir
  import B = Builder
  import opened Compiler
  import opened Soundness
  import opened Ledger
  import opened Events
  import opened Runner
  import opened Blocks
  import opened Traces
  import opened Answers

  /** What carrying out a send asks of the peer. */
  function CallOf(a: Action): Call
    requires a.Send?
  {
    Sending(a.connection, a.extensionType, a.messageType, a.channelMsg, a.payload)
  }

  /** The peer was sent something on `connection` in the first `n` calls. */
  predicate Heard(calls: seq<Call>, n: nat, connection: nat)
    requires n <= |calls|
  {
    exists m :: 0 <= m < n && calls[m].Sending? && calls[m].connection == connection
  }

  /** One of the first `n` actions sends on the connection, and was not skipped. */
  ghost predicate Attempted(actions: seq<Action>, outcomes: seq<Outcome>, n: nat, connection: nat)
    requires n <= |actions| && n <= |outcomes|
  {
    exists i :: 0 <= i < n && AttemptedAt(actions, outcomes, i, connection)
  }

  predicate AttemptedAt(actions: seq<Action>, outcomes: seq<Outcome>, i: nat, connection: nat)
    requires i < |actions| && i < |outcomes|
  {
    IsSendOn(actions[i], connection) && !outcomes[i].Skipped?
  }

  /** Every awaited setup comes right after its own frame, and one marked first after no other on its connection. */
  ghost predicate AwaitsFollow(actions: seq<Action>) {
    forall j | 0 <= j < |actions| && actions[j].AwaitSetupResponse? ::
      && j > 0 && actions[j - 1].Send? && actions[j - 1].connection == actions[j].connection
      && (actions[j].firstOnConnection ==> !SentOn(actions, j - 1, actions[j].connection))
  }

  /** Call `k` awaits what the action does. */
  predicate Awaits(calls: seq<Call>, k: nat, a: Action)
    requires a.AwaitSetupResponse?
  {
    && k < |calls| && calls[k].Awaiting?
    && calls[k].connection == a.connection && calls[k].firstOnConnection == a.firstOnConnection
  }

  /** Call `k` awaits the answer to action `j`, its frame sent just before. */
  predicate AwaitsAt(actions: seq<Action>, calls: seq<Call>, j: nat, k: nat) {
    && 0 < j < |actions| && actions[j - 1].Send? && actions[j].AwaitSetupResponse?
    && 0 < k && Awaits(calls, k, actions[j]) && calls[k - 1] == CallOf(actions[j - 1])
  }

  /** What the peer did at call `k` is what action `j` shows. */
  ghost predicate ShownAt(peer: Peer, actions: seq<Action>, outcomes: seq<Outcome>, calls: seq<Call>, j: nat, k: nat)
    requires j < |actions| && j < |outcomes| && actions[j].AwaitSetupResponse?
  {
    k < |calls| && Shows(outcomes[j], peer.windows(calls[..k], actions[j].connection, actions[j].firstOnConnection))
  }

  /**
   * If action `j` awaited an answer on an open connection, it did so right after its frame, which was heard first if no
   * other was.
   */
  ghost predicate AwaitTraced(peer: Peer, actions: seq<Action>, outcomes: seq<Outcome>, calls: seq<Call>, j: nat)
    requires j < |actions| && j < |outcomes|
  {
    actions[j].AwaitSetupResponse? && !outcomes[j].Skipped? ==>
      exists k: nat :: AwaitsAt(actions, calls, j, k) && ShownAt(peer, actions, outcomes, calls, j, k)
        && (Heard(calls, k - 1, actions[j].connection) <==> Attempted(actions, outcomes, j - 1, actions[j].connection))
  }

  /** What was sent in the first `m` calls is what the first `n` actions sent. */
  ghost predicate HeardFrom(actions: seq<Action>, outcomes: seq<Outcome>, n: nat, calls: seq<Call>, m: nat)
    requires n <= |actions| && n <= |outcomes| && m <= |calls|
  {
    forall c: nat :: Heard(calls, m, c) <==> Attempted(actions, outcomes, n, c)
  }

  /** A frame just sent on an open connection is the last call. */
  ghost predicate LastSent(actions: seq<Action>, r: Run) {
    var n, last := |r.outcomes|, |r.calls| - 1;
    0 < n <= |actions| && actions[n - 1].Send? && actions[n - 1].connection in r.links ==>
      last >= 0 && r.calls[last] == CallOf(actions[n - 1]) && HeardFrom(actions, r.outcomes, n - 1, r.calls, last)
  }

  ghost predicate CallsTraced(peer: Peer, actions: seq<Action>, r: Run) {
    && |r.outcomes| <= |actions|
    && r.states.Keys == r.links
    && HeardFrom(actions, r.outcomes, |r.outcomes|, r.calls, |r.calls|)
    && LastSent(actions, r)
    && forall j: nat | j < |r.outcomes| :: AwaitTraced(peer, actions, r.outcomes, r.calls, j)
  }

  lemma HeardStays(calls: seq<Call>, more: seq<Call>, n: nat, c: nat)
    requires n <= |calls| && calls <= more
    ensures Heard(more, n, c) <==> Heard(calls, n, c)
  {
    assert forall m | 0 <= m < n :: more[m] == calls[m];
  }

  lemma AttemptedStays(actions: seq<Action>, outcomes: seq<Outcome>, outcomes': seq<Outcome>, n: nat, c: nat)
    requires n <= |actions| && n <= |outcomes| && outcomes <= outcomes'
    ensures Attempted(actions, outcomes', n, c) <==> Attempted(actions, outcomes, n, c)
  {
    assert forall i | 0 <= i < n :: AttemptedAt(actions, outcomes', i, c) == AttemptedAt(actions, outcomes, i, c);
  }

  lemma AwaitStays(peer: Peer, actions: seq<Action>, outcomes: seq<Outcome>, outcomes': seq<Outcome>, calls: seq<Call>,
    calls': seq<Call>, j: nat)
    requires j < |actions| && j < |outcomes| && outcomes <= outcomes' && calls <= calls'
    requires AwaitTraced(peer, actions, outcomes, calls, j)
    ensures AwaitTraced(peer, actions, outcomes', calls', j)
  {
    hide Heard, Attempted;
    if actions[j].AwaitSetupResponse? && !outcomes'[j].Skipped? {
      var k: nat :| AwaitsAt(actions, calls, j, k) && ShownAt(peer, actions, outcomes, calls, j, k)
        && (Heard(calls, k - 1, actions[j].connection) <==> Attempted(actions, outcomes, j - 1, actions[j].connection));
      HeardStays(calls, calls', k - 1, actions[j].connection);
      AttemptedStays(actions, outcomes, outcomes', j - 1, actions[j].connection);
      assert AwaitsAt(actions, calls', j, k);
      assert calls'[..k] == calls[..k];
      assert ShownAt(peer, actions, outcomes', calls', j, k);
    }
  }

  /** What a step adds to the calls. */
  lemma PerformCalls(peer: Peer, r: Run, a: Action)
    requires r.states.Keys == r.links
    ensures var r' := Perform(peer, r, a);
      && r.calls <= r'.calls && r.outcomes <= r'.outcomes && |r'.calls| <= |r.calls| + 1
      && r'.states.Keys == r'.links && r.links <= r'.links
      && (a.Send? ==> r'.links == r.links && r'.calls == if a.connection in r.links then r.calls + [CallOf(a)]
        else r.calls)
      && (a.Send? ==> |r'.outcomes| > |r.outcomes| && (r'.outcomes[|r.outcomes|].Skipped? <==>
            a.connection !in r.links))
      && (!a.Send? && |r'.calls| > |r.calls| ==> !r'.calls[|r.calls|].Sending?)
  {
    hide Perform;
    PerformKeys(peer, r, a);
    CallsGrow(peer, r, a);
    if a.Send? {
      PerformSends(peer, r, a);
    }
  }

  lemma PerformKeys(peer: Peer, r: Run, a: Action)
    requires r.states.Keys == r.links
    ensures var r' := Perform(peer, r, a); r'.states.Keys == r'.links && r.links <= r'.links
  {
    hide Pump, DispatchAll, ProbedStates, ProbedSightings;
    ProbeKeepsConnections(peer, r);
  }

  lemma CallsGrow(peer: Peer, r: Run, a: Action)
    ensures var r' := Perform(peer, r, a);
      && r.calls <= r'.calls && r.outcomes <= r'.outcomes && |r'.calls| <= |r.calls| + 1
      && (!a.Send? && |r'.calls| > |r.calls| ==> !r'.calls[|r.calls|].Sending?)
  {
    hide Pump, DispatchAll, ProbedStates, ProbedSightings;
  }

  lemma PerformSends(peer: Peer, r: Run, a: Action)
    requires a.Send?
    ensures var r' := Perform(peer, r, a);
      && r'.links == r.links && (r'.calls == if a.connection in r.links then r.calls + [CallOf(a)] else r.calls)
      && |r'.outcomes| > |r.outcomes| && (r'.outcomes[|r.outcomes|].Skipped? <==> a.connection !in r.links)
  {
  }

  lemma PerformAwaiting(peer: Peer, r: Run, a: Action)
    requires r.states.Keys == r.links && a.AwaitSetupResponse?
    ensures var r' := Perform(peer, r, a);
      && |r'.outcomes| == |r.outcomes| + 1
      && (a.connection in r.links ==> |r'.calls| == |r.calls| + 1 && Awaits(r'.calls, |r.calls|, a))
      && (a.connection in r.links ==>
            Shows(r'.outcomes[|r.outcomes|], peer.windows(r.calls, a.connection, a.firstOnConnection)))
      && (a.connection !in r.links ==> r'.outcomes[|r.outcomes|].Skipped?)
  {
    hide Pump, DispatchAll;
    if a.connection in r.links {
      AwaitShows(peer, r, a);
    }
  }

  /** The peer hears of one action more exactly if it sends and is not skipped. */
  lemma HeardOneMore(
    actions: seq<Action>, outcomes: seq<Outcome>, outcomes': seq<Outcome>, n: nat, calls: seq<Call>, calls': seq<Call>)
    requires n < |actions| && n == |outcomes| && |outcomes'| == n + 1 && outcomes <= outcomes'
    requires calls <= calls' && |calls'| <= |calls| + 1 && HeardFrom(actions, outcomes, n, calls, |calls|)
    requires forall c: nat :: AttemptedAt(actions, outcomes', n, c) <==>
      |calls'| > |calls| && calls'[|calls|].Sending? && calls'[|calls|].connection == c
    ensures HeardFrom(actions, outcomes', n + 1, calls', |calls'|)
  {
    forall c: nat ensures Heard(calls', |calls'|, c) <==> Attempted(actions, outcomes', n + 1, c) {
      HeardStays(calls, calls', |calls|, c);
      AttemptedStays(actions, outcomes, outcomes', n, c);
      HeardLonger(calls', |calls|, c);
      AttemptedLonger(actions, outcomes', n, c);
    }
  }

  lemma HeardLonger(calls: seq<Call>, n: nat, c: nat)
    requires n <= |calls| <= n + 1
    ensures Heard(calls, |calls|, c) <==>
      Heard(calls, n, c) || (|calls| > n && calls[n].Sending? && calls[n].connection == c)
  {
  }

  lemma AttemptedLonger(actions: seq<Action>, outcomes: seq<Outcome>, n: nat, c: nat)
    requires n < |actions| && n < |outcomes|
    ensures Attempted(actions, outcomes, n + 1, c) <==>
        Attempted(actions, outcomes, n, c) || AttemptedAt(actions, outcomes, n, c)
  {
    if i :| 0 <= i < n + 1 && AttemptedAt(actions, outcomes, i, c) {
      assert i < n || i == n;
    }
  }

  lemma HeardSame(actions: seq<Action>, outcomes: seq<Outcome>, outcomes': seq<Outcome>, n: nat, calls: seq<Call>,
    calls': seq<Call>)
    requires n <= |actions| && n <= |outcomes| && outcomes <= outcomes' && calls <= calls'
    requires HeardFrom(actions, outcomes, n, calls, |calls|)
    ensures HeardFrom(actions, outcomes', n, calls', |calls|)
  {
    hide Attempted, Heard;
    forall c: nat ensures Heard(calls', |calls|, c) <==> Attempted(actions, outcomes', n, c) {
      HeardStays(calls, calls', |calls|, c);
      AttemptedStays(actions, outcomes, outcomes', n, c);
    }
  }

  lemma CallsStep(peer: Peer, actions: seq<Action>, r: Run)
    requires |r.outcomes| < |actions| && AwaitsFollow(actions) && CallsTraced(peer, actions, r)
    ensures CallsTraced(peer, actions, Perform(peer, r, actions[|r.outcomes|]))
  {
    hide Perform, HeardFrom, AwaitTraced, AwaitsFollow, Attempted, Heard;
    var n := |r.outcomes|;
    var a, r' := actions[n], Perform(peer, r, actions[n]);
    PerformRecordsOne(peer, r, a);
    PerformCalls(peer, r, a);
    HeardOneMore(actions, r.outcomes, r'.outcomes, n, r.calls, r'.calls);
    HeardSame(actions, r.outcomes, r'.outcomes, n, r.calls, r'.calls);
    forall j: nat | j < n + 1 ensures AwaitTraced(peer, actions, r'.outcomes, r'.calls, j) {
      if j < n {
        AwaitStays(peer, actions, r.outcomes, r'.outcomes, r.calls, r'.calls, j);
      } else {
        AwaitNow(peer, actions, r);
      }
    }
  }

  lemma AwaitNow(peer: Peer, actions: seq<Action>, r: Run)
    requires |r.outcomes| < |actions| && AwaitsFollow(actions) && CallsTraced(peer, actions, r)
    ensures var n := |r.outcomes|;
      var r' := Perform(peer, r, actions[n]);
      |r'.outcomes| == n + 1 && AwaitTraced(peer, actions, r'.outcomes, r'.calls, n)
  {
    hide Perform, Attempted, Heard, AwaitTraced;
    var n := |r.outcomes|;
    var a, r' := actions[n], Perform(peer, r, actions[n]);
    PerformRecordsOne(peer, r, a);
    PerformCalls(peer, r, a);
    if a.AwaitSetupResponse? {
      PerformAwaiting(peer, r, a);
      AwaitNowTraced(peer, actions, r, r');
    } else {
      NoAwait(peer, actions, r'.outcomes, r'.calls, n);
    }
  }

  lemma NoAwait(peer: Peer, actions: seq<Action>, outcomes: seq<Outcome>, calls: seq<Call>, n: nat)
    requires n < |actions| && n < |outcomes| && (!actions[n].AwaitSetupResponse? || outcomes[n].Skipped?)
    ensures AwaitTraced(peer, actions, outcomes, calls, n)
  {
  }

  lemma AwaitNowTraced(peer: Peer, actions: seq<Action>, r: Run, r': Run)
    requires |r.outcomes| < |actions| && AwaitsFollow(actions) && CallsTraced(peer, actions, r)
      && actions[|r.outcomes|].AwaitSetupResponse?
    requires |r'.outcomes| == |r.outcomes| + 1 && r.calls <= r'.calls && r.outcomes <= r'.outcomes
    requires var a := actions[|r.outcomes|];
      && (a.connection in r.links ==> |r'.calls| == |r.calls| + 1 && Awaits(r'.calls, |r.calls|, a))
      && (a.connection in r.links ==>
            Shows(r'.outcomes[|r.outcomes|], peer.windows(r.calls, a.connection, a.firstOnConnection)))
      && (a.connection !in r.links ==> r'.outcomes[|r.outcomes|].Skipped?)
    ensures AwaitTraced(peer, actions, r'.outcomes, r'.calls, |r.outcomes|)
  {
    hide Attempted, Heard, AwaitTraced, Shows;
    var n, k := |r.outcomes|, |r.calls|;
    var a := actions[n];
    assert n > 0 && actions[n - 1].Send? && actions[n - 1].connection == a.connection;
    if a.connection in r.links {
      assert LastSent(actions, r);
      assert r'.calls[k - 1] == r.calls[k - 1];
      assert AwaitsAt(actions, r'.calls, n, k);
      assert r'.calls[..k] == r.calls;
      assert ShownAt(peer, actions, r'.outcomes, r'.calls, n, k);
      HeardStays(r.calls, r'.calls, k - 1, a.connection);
      AttemptedStays(actions, r.outcomes, r'.outcomes, n - 1, a.connection);
      AwaitWitness(peer, actions, r'.outcomes, r'.calls, n, k);
    } else {
      NoAwait(peer, actions, r'.outcomes, r'.calls, n);
    }
  }

  lemma AwaitWitness(peer: Peer, actions: seq<Action>, outcomes: seq<Outcome>, calls: seq<Call>, j: nat, k: nat)
    requires j < |actions| && j < |outcomes| && AwaitsAt(actions, calls, j, k)
      && ShownAt(peer, actions, outcomes, calls, j, k)
    requires Heard(calls, k - 1, actions[j].connection) <==> Attempted(actions, outcomes, j - 1, actions[j].connection)
    ensures AwaitTraced(peer, actions, outcomes, calls, j)
  {
    hide Heard, Attempted, ShownAt;
  }

  lemma CallsSkip(peer: Peer, actions: seq<Action>, r: Run, s: nat, k: nat)
    requires 0 < k && |r.outcomes| + k <= |actions| && actions[|r.outcomes| + k - 1].ExitBlock?
      && CallsTraced(peer, actions, r)
    ensures CallsTraced(peer, actions, Skip(r, s, k))
  {
    hide AwaitTraced;
    var n, r' := |r.outcomes|, Skip(r, s, k);
    forall c: nat ensures Heard(r.calls, |r.calls|, c) <==> Attempted(actions, r'.outcomes, n + k, c) {
      AttemptedStays(actions, r.outcomes, r'.outcomes, n, c);
      assert forall i | n <= i < n + k :: r'.outcomes[i] == Skipped(SetupAgreed(s));
    }
    forall j: nat | j < n + k ensures AwaitTraced(peer, actions, r'.outcomes, r'.calls, j) {
      if j < n {
        AwaitStays(peer, actions, r.outcomes, r'.outcomes, r.calls, r'.calls, j);
      } else {
        assert r'.outcomes[j] == Skipped(SetupAgreed(s));
        NoAwait(peer, actions, r'.outcomes, r'.calls, j);
      }
    }
  }

  lemma {:induction false} RunCallsTraced(peer: Peer, actions: seq<Action>, r: Run)
    requires Nested(actions) && AwaitsFollow(actions) && Forward(actions) && |r.outcomes| <= |actions|
      && CallsTraced(peer, actions, r)
    ensures CallsTraced(peer, actions, RunFrom(peer, actions, |r.outcomes|, r))
    decreases |actions| - |r.outcomes|
  {
    hide Perform, Skip, CallsTraced, AwaitsFollow, IsEstablished, Forward, RunFrom;
    var n := |r.outcomes|;
    if n < |actions| {
      RunStep(peer, actions, n, r);
      if Unmet(r, actions[n]) {
        var k := actions[n].end + 1 - n;
        CallsSkip(peer, actions, r, actions[n].session, k);
        SkipLength(r, actions[n].session, k);
        RunCallsTraced(peer, actions, Skip(r, actions[n].session, k));
      } else {
        CallsStep(peer, actions, r);
        PerformRecordsOne(peer, r, actions[n]);
        RunCallsTraced(peer, actions, Perform(peer, r, actions[n]));
      }
    } else {
      RunEnd(peer, actions, r);
    }
  }

  lemma StartCallsTraced(peer: Peer, actions: seq<Action>)
    ensures CallsTraced(peer, actions, START)
  {
  }

  lemma RecordedFollow(c: State, base: nat)
    requires AwaitsRecorded(c, base)
    ensures AwaitsFollow(c.actions)
  {
    hide SentOn, RawOn;
    forall j | 0 <= j < |c.actions| && c.actions[j].AwaitSetupResponse?
      ensures j > 0 && c.actions[j - 1].Send? && c.actions[j - 1].connection == c.actions[j].connection
      ensures c.actions[j].firstOnConnection ==> !SentOn(c.actions, j - 1, c.actions[j].connection)
    {
      assert AwaitRecorded(c, base, j);
    }
  }

  /**
   * In every run of a compiled valid program, a setup that is awaited on an open connection is awaited right after
   * its own frame went out. That frame is the first the peer is sent on the connection exactly if every earlier send
   * of the program's there was skipped; so it is if the setup is marked first, when there is none. Its outcome is what
   * the peer's frames show.
   */
  lemma OwedIsFirst(peer: Peer, p: Program, j: nat)
    requires B.StaticallyValid(p) && Compile(p).Success?
    requires j < |Compile(p).value.actions| && Compile(p).value.actions[j].AwaitSetupResponse?
    ensures Forward(Compile(p).value.actions)
    ensures var cp := Compile(p).value;
      var r := RunProgram(peer, cp);
      var a := cp.actions[j];
      && |r.outcomes| == |cp.actions|
      && (!r.outcomes[j].Skipped? ==> exists k: nat ::
            && 0 < k && Awaits(r.calls, k, a)
            && a.session in cp.metadata.sessionSetups
            && r.calls[k - 1] == Sending(a.connection, 0, 0, false, Encoded(cp.metadata.sessionSetups[a.session]))
            && Shows(r.outcomes[j], peer.windows(r.calls[..k], a.connection, a.firstOnConnection))
            && (!Heard(r.calls, k - 1, a.connection) <==> FirstHeard(cp.actions, r.outcomes, j))
            && (a.firstOnConnection ==> !Heard(r.calls, k - 1, a.connection)))
  {
    hide B.StaticallyValid, Flatten, Parse, At, Forward, Nested, RunFrom, RunTraced, Typed, CompileAll, Plain,
      IdsRecorded, SentIsSends,
      CallsTraced, Heard, SentOn, RawOn, Attempted, FirstHeard, Shows;
    var cp := Compile(p).value;
    CompiledTraced(peer, p);
    var r := RunProgram(peer, cp);
    CompiledRecorded(p);
    RecordedFollow(Lowered(p), p.context.numConnections);
    StartCallsTraced(peer, cp.actions);
    RunCallsTraced(peer, cp.actions, START);
    assert AwaitRecorded(Lowered(p), p.context.numConnections, j);
    assert AwaitTraced(peer, cp.actions, r.outcomes, r.calls, j) by { AwaitOf(peer, cp.actions, r, j); }
    if !r.outcomes[j].Skipped? {
      var k: nat :| AwaitsAt(cp.actions, r.calls, j, k) && ShownAt(peer, cp.actions, r.outcomes, r.calls, j, k)
        && (Heard(r.calls, k - 1, cp.actions[j].connection) <==>
              Attempted(cp.actions, r.outcomes, j - 1, cp.actions[j].connection));
      FirstHeardIff(cp.actions, r.outcomes, j);
      if cp.actions[j].firstOnConnection {
        NoneSent(cp.actions, r.outcomes, j);
      }
      assert Awaits(r.calls, k, cp.actions[j]);
    }
  }

  /** Every send on the connection of action `j` before its own frame was skipped. */
  predicate FirstHeard(actions: seq<Action>, outcomes: seq<Outcome>, j: nat)
    requires j < |actions| && j < |outcomes| && actions[j].AwaitSetupResponse?
  {
    forall i | 0 <= i < j - 1 && IsSendOn(actions[i], actions[j].connection) :: outcomes[i].Skipped?
  }

  lemma FirstHeardIff(actions: seq<Action>, outcomes: seq<Outcome>, j: nat)
    requires 0 < j < |actions| && j < |outcomes| && actions[j].AwaitSetupResponse?
    ensures FirstHeard(actions, outcomes, j) <==> !Attempted(actions, outcomes, j - 1, actions[j].connection)
  {
    var c := actions[j].connection;
    if i :| 0 <= i < j - 1 && AttemptedAt(actions, outcomes, i, c) {
      assert IsSendOn(actions[i], c);
    }
    if i :| 0 <= i < j - 1 && IsSendOn(actions[i], c) && !outcomes[i].Skipped? {
      assert AttemptedAt(actions, outcomes, i, c);
    }
  }

  lemma NoneSent(actions: seq<Action>, outcomes: seq<Outcome>, j: nat)
    requires 0 < j < |actions| && j < |outcomes| && actions[j].AwaitSetupResponse?
    requires !SentOn(actions, j - 1, actions[j].connection)
    ensures FirstHeard(actions, outcomes, j)
  {
  }

  lemma AwaitOf(peer: Peer, actions: seq<Action>, r: Run, j: nat)
    requires CallsTraced(peer, actions, r) && j < |r.outcomes|
    ensures AwaitTraced(peer, actions, r.outcomes, r.calls, j)
  {
  }
}
