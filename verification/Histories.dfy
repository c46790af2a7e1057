/**
 * A run told without its interpreter: what each action asked of the peer, given what had been asked before, and what
 * the peer then did, is its outcome.
 */
module Histories {
  import opened Wrappers
  import opened Ir
  import B = Builder
  import opened Compiler
  import opened Ledger
  import opened Sightings
  import opened Events
  import opened Runner
  import opened Runs
  import opened Blocks
  import opened Traces
  import opened Answers

  /** What a fault comes to. */
  predicate Faulted(o: Outcome, f: Fault) {
    match f
    case Timeout => o == TimedOut
    case Closed => o == TransportClosed
    case Failed(detail) => o == TransportError(detail)
  }

  /** Frame types found by a probe, in order of connection and type, each as often as the peer had it. */
  ghost predicate Sees(peer: Peer, before: seq<Call>, open: nat -> bool, sightings: seq<Sighting>) {
    && Ordered(sightings)
    && forall x: Sighting :: multiset(sightings)[x] ==
         if open(x.connection) then multiset(Types(peer.drains(before, x.connection)))[x.messageType] else 0
  }

  /** What an action that was attempted asked, after all asked before, and what came of it. */
  ghost predicate Told(peer: Peer, before: seq<Call>, open: nat -> bool, a: Action, o: Outcome, asked: seq<Call>) {
    match a
    case Connect(c, role) =>
      && asked == [Connecting(c, role)]
      && o == (if peer.connects(before, c, role) then Completed(NoResponse) else TransportError([]))
    case Send(c, extension, message, channel, payload) =>
      if !open(c) then asked == [] && o == Skipped(ConnectionOpen(c))
      else
        && asked == [Sending(c, extension, message, channel, payload)]
        && (peer.sends(before, c).None? ==> o == Completed(NoResponse))
        && (peer.sends(before, c).Some? ==> Faulted(o, peer.sends(before, c).value))
    case AwaitSetupResponse(c, session, protocol, first) =>
      if !open(c) then asked == [] && o == Skipped(ConnectionOpen(c))
      else
        && asked == [Awaiting(c, first, Taken(peer.windows(before, c, first)))]
        && Shows(o, peer.windows(before, c, first))
    case EnterOnSetupSuccess(_, _) => asked == [] && o == Completed(NoResponse)
    case ExitBlock => asked == [] && o == Completed(NoResponse)
    case AdvanceTime(duration) => asked == [Waiting(duration)] && o == Completed(NoResponse)
    case Probe =>
      asked == [Probing] && o.Completed? && o.response.Probed? && Sees(peer, before, open, o.response.sightings)
  }

  /** A connection is open once a connect to it has gone through. */
  ghost function OpenAfter(actions: seq<Action>, outcomes: seq<Outcome>, n: nat): nat -> bool
    requires n <= |actions| && n <= |outcomes|
  {
    c => c in Opened(actions, outcomes, n)
  }

  function Opened(actions: seq<Action>, outcomes: seq<Outcome>, n: nat): set<nat>
    requires n <= |actions| && n <= |outcomes|
  {
    set i | 0 <= i < n && actions[i].Connect? && outcomes[i] == Completed(NoResponse) :: actions[i].connection
  }

  /** Whether an action asks the peer anything. */
  predicate Asks(a: Action, o: Outcome) {
    !o.Skipped? && !a.EnterOnSetupSuccess? && !a.ExitBlock?
  }

  /** The first `n` outcomes and the calls are what the actions and the peer make of one another. */
  ghost predicate HistoryTold(peer: Peer, actions: seq<Action>, outcomes: seq<Outcome>, n: nat, calls: seq<Call>)
    requires n <= |actions| && n <= |outcomes|
    decreases n
  {
    if n == 0 then calls == []
    else
      var a, o := actions[n - 1], outcomes[n - 1];
      var m := if Asks(a, o) then |calls| - 1 else |calls|;
      && m >= 0 && HistoryTold(peer, actions, outcomes, n - 1, calls[..m])
      && (BlockSkipped(o) || Told(peer, calls[..m], OpenAfter(actions, outcomes, n - 1), a, o, calls[m..]))
  }

  /** What probes saw, one after another. */
  function SeenBy(outcomes: seq<Outcome>, n: nat): seq<Sighting>
    requires n <= |outcomes|
  {
    if n == 0 then []
    else
      SeenBy(outcomes, n - 1)
        + if outcomes[n - 1].Completed? && outcomes[n - 1].response.Probed? then outcomes[n - 1].response.sightings
          else []
  }

  /** Each await that was made has its session, with the answer it shows. */
  ghost predicate SessionsKept(actions: seq<Action>, r: Run) {
    forall j | 0 <= j < |r.outcomes| && j < |actions| && actions[j].AwaitSetupResponse? && !r.outcomes[j].Skipped? ::
      actions[j].session in r.sessions && Keeps(r.sessions[actions[j].session], actions[j], r.outcomes[j])
  }

  ghost predicate RunTold(peer: Peer, actions: seq<Action>, r: Run) {
    && |r.outcomes| <= |actions|
    && r.states.Keys == r.links && r.links == Opened(actions, r.outcomes, |r.outcomes|)
    && HistoryTold(peer, actions, r.outcomes, |r.outcomes|, r.calls)
    && r.unsolicited == SeenBy(r.outcomes, |r.outcomes|)
    && SessionsKept(actions, r)
  }

  // ---------------------------------------------------------------------------------------------
  // Each step
  // ---------------------------------------------------------------------------------------------

  lemma OpenedStays(actions: seq<Action>, outcomes: seq<Outcome>, more: seq<Outcome>, n: nat)
    requires n <= |actions| && n <= |outcomes| && outcomes <= more
    ensures Opened(actions, more, n) == Opened(actions, outcomes, n)
    ensures OpenAfter(actions, more, n) == OpenAfter(actions, outcomes, n)
  {
    assert forall i | 0 <= i < n :: more[i] == outcomes[i];
  }

  lemma OpenedOneMore(actions: seq<Action>, outcomes: seq<Outcome>, n: nat)
    requires n < |actions| && n < |outcomes|
    ensures Opened(actions, outcomes, n + 1) == Opened(actions, outcomes, n)
      + if actions[n].Connect? && outcomes[n] == Completed(NoResponse) then {actions[n].connection} else {}
  {
  }

  lemma {:induction false} HistoryStays(peer: Peer, actions: seq<Action>, outcomes: seq<Outcome>, more: seq<Outcome>,
    n: nat, calls: seq<Call>)
    requires n <= |actions| && n <= |outcomes| && outcomes <= more && HistoryTold(peer, actions, outcomes, n, calls)
    ensures HistoryTold(peer, actions, more, n, calls)
    decreases n
  {
    hide Told, Opened, OpenAfter;
    if n > 0 {
      var m := if Asks(actions[n - 1], outcomes[n - 1]) then |calls| - 1 else |calls|;
      HistoryStays(peer, actions, outcomes, more, n - 1, calls[..m]);
      OpenedStays(actions, outcomes, more, n - 1);
    }
  }

  lemma {:induction false} SeenStays(outcomes: seq<Outcome>, more: seq<Outcome>, n: nat)
    requires n <= |outcomes| && outcomes <= more
    ensures SeenBy(more, n) == SeenBy(outcomes, n)
    decreases n
  {
    if n > 0 {
      SeenStays(outcomes, more, n - 1);
    }
  }

  /** One action told by what it asks and what the peer does. */
  lemma PerformTold(peer: Peer, r: Run, open: nat -> bool, a: Action)
    requires r.states.Keys == r.links && forall c: nat :: open(c) <==> c in r.links
    ensures var r', o := Perform(peer, r, a), Perform(peer, r, a).outcomes[|r.outcomes|];
      && r'.outcomes == r.outcomes + [o] && r.calls <= r'.calls
      && |r'.calls| == |r.calls| + (if Asks(a, o) then 1 else 0)
      && Told(peer, r.calls, open, a, o, r'.calls[|r.calls|..])
  {
    hide Pump, DispatchAll, ProbedStates, ProbedSightings, Shows, Ordered, Taken, Types;
    if a.AwaitSetupResponse? && open(a.connection) {
      AwaitShows(peer, r, a);
      ShownIsNotSkipped(Perform(peer, r, a).outcomes[|r.outcomes|],
        peer.windows(r.calls, a.connection, a.firstOnConnection));
    } else if a.Probe? {
      ProbeTold(peer, r, open);
    }
  }

  lemma ProbeTold(peer: Peer, r: Run, open: nat -> bool)
    requires r.states.Keys == r.links && forall c: nat :: open(c) <==> c in r.links
    ensures Sees(peer, r.calls, open, ProbedSightings(peer, r))
  {
    hide Ordered, ProbedSightings, Types;
    var sightings := ProbedSightings(peer, r);
    forall x: Sighting
      ensures Ordered(sightings)
      ensures multiset(sightings)[x] ==
        if open(x.connection) then multiset(Types(peer.drains(r.calls, x.connection)))[x.messageType] else 0
    {
      ProbedExactly(peer, r, x);
    }
    ProbedExactly(peer, r, Sighting(0, 0));
  }

  lemma ShownIsNotSkipped(o: Outcome, w: Window)
    requires Shows(o, w)
    ensures !o.Skipped?
  {
  }

  /** The open connections and the sessions after one action. */
  lemma PerformKeeps(peer: Peer, r: Run, a: Action)
    requires r.states.Keys == r.links
    ensures var r', o := Perform(peer, r, a), Perform(peer, r, a).outcomes[|r.outcomes|];
      && r'.states.Keys == r'.links
      && r'.links == r.links + (if a.Connect? && o == Completed(NoResponse) then {a.connection} else {})
      && r'.unsolicited == r.unsolicited + (if o.Completed? && o.response.Probed? then o.response.sightings else [])
      && (!a.AwaitSetupResponse? || a.connection !in r.links ==> r'.sessions == r.sessions)
      && (a.AwaitSetupResponse? && a.connection in r.links ==> r'.sessions.Keys == r.sessions.Keys + {a.session})
      && (a.AwaitSetupResponse? ==>
            forall s | s in r.sessions && s != a.session :: s in r'.sessions && r'.sessions[s] == r.sessions[s])
  {
    hide Pump, DispatchAll, ProbedStates, ProbedSightings;
    ProbeKeepsConnections(peer, r);
    if a.AwaitSetupResponse? && a.connection in r.links {
      AwaitShows(peer, r, a);
      NoSightings(Perform(peer, r, a).outcomes[|r.outcomes|], peer.windows(r.calls, a.connection, a.firstOnConnection));
    }
  }

  lemma NoSightings(o: Outcome, w: Window)
    requires Shows(o, w)
    ensures !(o.Completed? && o.response.Probed?)
  {
  }

  lemma SessionsStep(peer: Peer, actions: seq<Action>, r: Run)
    requires |r.outcomes| < |actions| && SessionsOnce(actions) && r.states.Keys == r.links && SessionsKept(actions, r)
    ensures SessionsKept(actions, Perform(peer, r, actions[|r.outcomes|]))
  {
    hide Perform, Keeps;
    var n := |r.outcomes|;
    var a, r' := actions[n], Perform(peer, r, actions[n]);
    PerformRecordsOne(peer, r, a);
    PerformKeeps(peer, r, a);
    if a.AwaitSetupResponse? && a.connection in r.links {
      AwaitShows(peer, r, a);
    } else if a.AwaitSetupResponse? {
      AwaitClosed(peer, r, a);
    }
    forall j | 0 <= j < |r'.outcomes| && actions[j].AwaitSetupResponse? && !r'.outcomes[j].Skipped?
      ensures actions[j].session in r'.sessions && Keeps(r'.sessions[actions[j].session], actions[j], r'.outcomes[j])
    {
      if j < n {
        assert r'.outcomes[j] == r.outcomes[j];
      }
    }
  }

  lemma AwaitClosed(peer: Peer, r: Run, a: Action)
    requires a.AwaitSetupResponse? && r.states.Keys == r.links && a.connection !in r.links
    ensures Perform(peer, r, a).outcomes[|r.outcomes|] == Skipped(ConnectionOpen(a.connection))
  {
  }

  lemma ToldStep(peer: Peer, actions: seq<Action>, r: Run)
    requires |r.outcomes| < |actions| && SessionsOnce(actions) && RunTold(peer, actions, r)
    ensures RunTold(peer, actions, Perform(peer, r, actions[|r.outcomes|]))
  {
    hide Perform, Told, SessionsKept, SessionsOnce, OpenAfter, Opened;
    var n := |r.outcomes|;
    var a, r' := actions[n], Perform(peer, r, actions[n]);
    PerformRecordsOne(peer, r, a);
    OpenIs(actions, r.outcomes, n);
    PerformTold(peer, r, OpenAfter(actions, r.outcomes, n), a);
    PerformKeeps(peer, r, a);
    HistoryStays(peer, actions, r.outcomes, r'.outcomes, n, r.calls);
    OpenedStays(actions, r.outcomes, r'.outcomes, n);
    OpenedOneMore(actions, r'.outcomes, n);
    SeenStays(r.outcomes, r'.outcomes, n);
    SessionsStep(peer, actions, r);
    assert r'.calls[..|r.calls|] == r.calls;
  }

  lemma OpenIs(actions: seq<Action>, outcomes: seq<Outcome>, n: nat)
    requires n <= |actions| && n <= |outcomes|
    ensures forall c: nat :: OpenAfter(actions, outcomes, n)(c) <==> c in Opened(actions, outcomes, n)
  {
  }

  lemma {:induction false} ToldSkip(peer: Peer, actions: seq<Action>, r: Run, s: nat, k: nat)
    requires |r.outcomes| + k <= |actions| && RunTold(peer, actions, r)
    ensures RunTold(peer, actions, Skip(r, s, k))
    decreases k
  {
    hide Told, OpenAfter, SessionsKept, Opened;
    if k == 0 {
      assert Skip(r, s, 0).outcomes == r.outcomes;
    } else {
      var before, r' := Skip(r, s, k - 1), Skip(r, s, k);
      ToldSkip(peer, actions, r, s, k - 1);
      var n := |before.outcomes|;
      var o := Skipped(SetupAgreed(s));
      assert r'.outcomes == before.outcomes + [o];
      HistoryStays(peer, actions, before.outcomes, r'.outcomes, n, before.calls);
      OpenedStays(actions, before.outcomes, r'.outcomes, n);
      OpenedOneMore(actions, r'.outcomes, n);
      SeenStays(before.outcomes, r'.outcomes, n);
      assert before.calls[..|before.calls|] == before.calls;
      SessionsSkipped(actions, before, r');
    }
  }

  lemma SessionsSkipped(actions: seq<Action>, r: Run, r': Run)
    requires SessionsKept(actions, r) && r'.sessions == r.sessions && |r'.outcomes| == |r.outcomes| + 1
    requires r.outcomes <= r'.outcomes && r'.outcomes[|r.outcomes|].Skipped?
    ensures SessionsKept(actions, r')
  {
    hide Keeps;
    forall j | 0 <= j < |r.outcomes| ensures r'.outcomes[j] == r.outcomes[j] {
    }
  }

  lemma {:induction false} RunFromTold(peer: Peer, actions: seq<Action>, r: Run)
    requires Nested(actions) && SessionsOnce(actions) && Forward(actions) && |r.outcomes| <= |actions|
    requires RunTold(peer, actions, r)
    ensures RunTold(peer, actions, RunFrom(peer, actions, |r.outcomes|, r))
    decreases |actions| - |r.outcomes|
  {
    hide Perform, Skip, RunTold, SessionsOnce, IsEstablished, Forward, RunFrom;
    var n := |r.outcomes|;
    if n < |actions| {
      RunStep(peer, actions, n, r);
      if Unmet(r, actions[n]) {
        var k := actions[n].end + 1 - n;
        ToldSkip(peer, actions, r, actions[n].session, k);
        SkipLength(r, actions[n].session, k);
        RunFromTold(peer, actions, Skip(r, actions[n].session, k));
      } else {
        ToldStep(peer, actions, r);
        PerformRecordsOne(peer, r, actions[n]);
        RunFromTold(peer, actions, Perform(peer, r, actions[n]));
      }
    } else {
      RunEnd(peer, actions, r);
    }
  }

  lemma StartTold(peer: Peer, actions: seq<Action>)
    ensures RunTold(peer, actions, START)
  {
  }

  /**
   * In every run of a compiled valid program the peer is asked, in order, just what the actions that were not skipped
   * ask, each once; each outcome is what the peer then did; each session holds the answer shown; and what probes saw
   * is all there is of it.
   */
  lemma CompiledTold(peer: Peer, p: Program)
    requires B.StaticallyValid(p) && Compile(p).Success?
    ensures Forward(Compile(p).value.actions)
    ensures var actions, r := Compile(p).value.actions, RunProgram(peer, Compile(p).value);
      |r.outcomes| == |actions| && RunTold(peer, actions, r)
  {
    hide B.StaticallyValid, CompileAll, Forward, Nested, RunFrom, RunTraced, RunTold, Recorded, SessionsOnce;
    var actions := Compile(p).value.actions;
    CompiledTraced(peer, p);
    CompiledRecorded(p);
    RecordedOnce(Lowered(p), p.context.numConnections);
    StartTold(peer, actions);
    RunFromTold(peer, actions, START);
  }

  lemma RecordedOnce(c: State, base: nat)
    requires Recorded(c, base)
    ensures SessionsOnce(c.actions)
  {
    hide SentIsSends, AwaitsRecorded, TablesRecorded, IdsOrdered;
    OnceFromOrder(c, base);
  }

  // ---------------------------------------------------------------------------------------------
  // One action at a time
  // ---------------------------------------------------------------------------------------------

  /** How many of the first `n` actions asked the peer something. */
  function Asked(actions: seq<Action>, outcomes: seq<Outcome>, n: nat): nat
    requires n <= |actions| && n <= |outcomes|
  {
    if n == 0 then 0 else Asked(actions, outcomes, n - 1) + if Asks(actions[n - 1], outcomes[n - 1]) then 1 else 0
  }

  /** Action `j` asked what it asks once all before it had, and its outcome is what the peer then did. */
  ghost predicate ToldAt(peer: Peer, actions: seq<Action>, outcomes: seq<Outcome>, calls: seq<Call>, j: nat)
    requires j < |actions| && j < |outcomes|
  {
    var before, after := Asked(actions, outcomes, j), Asked(actions, outcomes, j + 1);
    && before <= after <= |calls|
    && (BlockSkipped(outcomes[j]) ||
        Told(peer, calls[..before], OpenAfter(actions, outcomes, j), actions[j], outcomes[j], calls[before..after]))
  }

  lemma {:induction false} HistoryAsked(
    peer: Peer, actions: seq<Action>, outcomes: seq<Outcome>, n: nat, calls: seq<Call>, j: nat)
    requires n <= |actions| && n <= |outcomes| && HistoryTold(peer, actions, outcomes, n, calls)
    ensures |calls| == Asked(actions, outcomes, n)
    ensures j < n ==> ToldAt(peer, actions, outcomes, calls, j)
    decreases n
  {
    hide Told, OpenAfter, Asks, ToldAt;
    if n > 0 {
      var m := if Asks(actions[n - 1], outcomes[n - 1]) then |calls| - 1 else |calls|;
      HistoryAsked(peer, actions, outcomes, n - 1, calls[..m], j);
      if j == n - 1 {
        LastToldAt(peer, actions, outcomes, calls, m, j);
      } else if j < n - 1 {
        LaterToldAt(peer, actions, outcomes, calls, m, j);
      }
    }
  }

  lemma LastToldAt(peer: Peer, actions: seq<Action>, outcomes: seq<Outcome>, calls: seq<Call>, m: nat, j: nat)
    requires j < |actions| && j < |outcomes| && m <= |calls|
    requires m == Asked(actions, outcomes, j) && |calls| == Asked(actions, outcomes, j + 1)
    requires BlockSkipped(outcomes[j]) ||
      Told(peer, calls[..m], OpenAfter(actions, outcomes, j), actions[j], outcomes[j], calls[m..])
    ensures ToldAt(peer, actions, outcomes, calls, j)
  {
    hide Told, OpenAfter, Asked;
    assert calls[m..|calls|] == calls[m..];
  }

  /** What was told of the first calls stays told whatever was asked later. */
  lemma LaterToldAt(peer: Peer, actions: seq<Action>, outcomes: seq<Outcome>, calls: seq<Call>, m: nat, j: nat)
    requires j < |actions| && j < |outcomes| && m <= |calls| && ToldAt(peer, actions, outcomes, calls[..m], j)
    ensures ToldAt(peer, actions, outcomes, calls, j)
  {
    hide Told, OpenAfter, Asked;
    var before, after := Asked(actions, outcomes, j), Asked(actions, outcomes, j + 1);
    assert calls[..m][..before] == calls[..before] && calls[..m][before..after] == calls[before..after];
  }

  /**
   * In every run of a compiled valid program, each action that is not skipped with its block asks the peer what it
   * says, after just what the actions before it asked, and its outcome is what the peer makes of that.
   */
  lemma EachTold(peer: Peer, p: Program, j: nat)
    requires B.StaticallyValid(p) && Compile(p).Success? && j < |Compile(p).value.actions|
    ensures Forward(Compile(p).value.actions)
    ensures var actions, r := Compile(p).value.actions, RunProgram(peer, Compile(p).value);
      && |r.outcomes| == |actions| && |r.calls| == Asked(actions, r.outcomes, |actions|)
      && ToldAt(peer, actions, r.outcomes, r.calls, j)
  {
    hide B.StaticallyValid, Compile, Forward, RunFrom, ToldAt, SessionsKept, Opened;
    CompiledTold(peer, p);
    var actions, r := Compile(p).value.actions, RunProgram(peer, Compile(p).value);
    HistoryAsked(peer, actions, r.outcomes, |actions|, r.calls, j);
  }

  // ---------------------------------------------------------------------------------------------
  // Blocks, by the frames that decide them
  // ---------------------------------------------------------------------------------------------

  /** The window action `j` awaited its answer in. */
  function WindowOf(peer: Peer, actions: seq<Action>, outcomes: seq<Outcome>, calls: seq<Call>, j: nat): Window
    requires j < |actions| && j < |outcomes| && actions[j].AwaitSetupResponse?
    requires Asked(actions, outcomes, j) <= |calls|
  {
    peer.windows(calls[..Asked(actions, outcomes, j)], actions[j].connection, actions[j].firstOnConnection)
  }

  /** Action `j` awaited the session's setup, and a success is the first message that came. */
  ghost predicate SucceededAt(peer: Peer, actions: seq<Action>, r: Run, session: nat, j: nat)
    requires j < |actions| && j < |r.outcomes|
  {
    && actions[j].AwaitSetupResponse? && actions[j].session == session && !r.outcomes[j].Skipped?
    && Asked(actions, r.outcomes, j) <= |r.calls|
    && var w := WindowOf(peer, actions, r.outcomes, r.calls, j);
    Answered(w) && AnsweringFrame(w).body.message.SetupConnectionSuccess?
  }

  /** An action of the first `n` did. */
  ghost predicate SucceededBefore(peer: Peer, actions: seq<Action>, r: Run, n: nat, session: nat)
    requires n <= |actions| && n <= |r.outcomes|
  {
    exists j :: 0 <= j < n && SucceededAt(peer, actions, r, session, j)
  }

  lemma AgreedIsSuccess(peer: Peer, actions: seq<Action>, r: Run, session: nat, j: nat)
    requires j < |actions| && j < |r.outcomes| && ToldAt(peer, actions, r.outcomes, r.calls, j)
    ensures AgreedTo(actions[j], r.outcomes[j], session) <==> SucceededAt(peer, actions, r, session, j)
  {
    hide OpenAfter, Asked, Taken, Sees;
  }

  /**
   * In every run of a compiled valid program, an action is attempted exactly when, for every block around it, the
   * first message that answered its session's setup was a success.
   */
  lemma AttemptedIffSucceeded(peer: Peer, p: Program, k: nat)
    requires B.StaticallyValid(p) && Compile(p).Success? && k < |Compile(p).value.actions|
    ensures Forward(Compile(p).value.actions)
    ensures var actions, r := Compile(p).value.actions, RunProgram(peer, Compile(p).value);
      && |r.outcomes| == |actions|
      && (Attempted(r.outcomes[k]) <==>
            forall i: nat | Encloses(actions, i, k) :: SucceededBefore(peer, actions, r, i, actions[i].session))
  {
    hide B.StaticallyValid, Compile, Forward, RunFrom, SucceededAt, AgreedTo, ToldAt, Attempted;
    AttemptedIffAgreed(peer, p, k);
    var actions, r := Compile(p).value.actions, RunProgram(peer, Compile(p).value);
    forall i: nat | Encloses(actions, i, k)
      ensures AgreedBefore(actions, r.outcomes, i, actions[i].session) <==>
              SucceededBefore(peer, actions, r, i, actions[i].session)
    {
      forall j | 0 <= j < i
        ensures AgreedTo(actions[j], r.outcomes[j], actions[i].session) <==>
                SucceededAt(peer, actions, r, actions[i].session, j)
      {
        EachTold(peer, p, j);
        AgreedIsSuccess(peer, actions, r, actions[i].session, j);
      }
    }
  }
}
