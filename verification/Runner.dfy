/** Carrying out compiled actions against a deployment: one outcome per action, in order. */
module Runner {
  import opened Wrappers
  import opened Ir
  import opened Compiler
  import opened Events
  import opened Sightings

  datatype SetupResponse =
    | Agreed(usedVersion: Word16, flags: bv32)
    | Refused(flags: bv32, errorCode: Text)
    | UnexpectedAnswer(messageType: Byte)
    | Silence

  datatype Session = Session(connection: nat, protocol: Protocol, firstOnConnection: bool, response: SetupResponse)

  /** What an action that is skipped was waiting for. */
  datatype Prerequisite = ConnectionOpen(connection: nat) | SetupAgreed(session: nat)

  /** What a completed action has to show: nothing, the answer to a setup, or what a probe saw. */
  datatype Response = NoResponse | SetupAnswer(response: SetupResponse) | Probed(sightings: seq<Sighting>)

  datatype Outcome =
    | Completed(response: Response)
    | TimedOut
    | TransportClosed
    | TransportError(detail: Text)
    | Skipped(prerequisite: Prerequisite)
    | HarnessError(detail: Text)

  // ---------------------------------------------------------------------------------------------
  // The peer: anything at all, as long as it is a function of what the harness has done so far
  // ---------------------------------------------------------------------------------------------

  datatype Call =
    | Connecting(connection: nat, role: nat)
    | Sending(connection: nat, extensionType: Word16, messageType: Byte, channelMsg: bool, payload: Payload)
    | Awaiting(connection: nat, firstOnConnection: bool, consumed: nat)
    | Waiting(duration: nat)
    | Probing

  datatype Fault = Timeout | Closed | Failed(detail: Text)

  /** What arrives while the harness awaits an answer: frames in order, then no more, for a reason. */
  datatype Window = Window(frames: seq<Frame>, fault: Fault)

  datatype Peer = Peer(
    connects: (seq<Call>, nat, nat) -> bool,
    sends: (seq<Call>, nat) -> Option<Fault>,
    windows: (seq<Call>, nat, bool) -> Window,
    drains: (seq<Call>, nat) -> seq<Frame>)

  /** The outcome a transport's fault amounts to. */
  function TransportFailure(f: Fault): Outcome {
    match f
    case Timeout => TimedOut
    case Closed => TransportClosed
    case Failed(detail) => TransportError(detail)
  }

  // ---------------------------------------------------------------------------------------------
  // What a run holds, and what each action does to it
  // ---------------------------------------------------------------------------------------------

  datatype Run = Run(
    links: set<nat>,
    states: map<nat, Status>,
    outcomes: seq<Outcome>,
    sessions: map<nat, Session>,
    roles: map<nat, nat>,
    unsolicited: seq<Sighting>,
    calls: seq<Call>)

  const START: Run := Run({}, map[], [], map[], map[], [], [])

  function Record(r: Run, outcome: Outcome): Run {
    r.(outcomes := r.outcomes + [outcome])
  }

  function ConnectTo(peer: Peer, r: Run, connection: nat, role: nat): Run {
    var called := r.(calls := r.calls + [Connecting(connection, role)]);
    if !peer.connects(r.calls, connection, role) then Record(called, TransportError([]))
    else
      Record(called.(
        links := r.links + {connection},
        states := r.states[connection := FRESH],
        roles := r.roles[connection := role]), Completed(NoResponse))
  }

  function SendOn(peer: Peer, r: Run, connection: nat, call: Call): Run {
    if connection !in r.links then Record(r, Skipped(ConnectionOpen(connection)))
    else
      var called := r.(calls := r.calls + [call]);
      match peer.sends(r.calls, connection)
      case None => Record(called, Completed(NoResponse))
      case Some(fault) => Record(called, TransportFailure(fault))
  }

  /** Take in frames until the setup is settled or no more come: the state it leaves, what failed, what it took. */
  function Pump(s: Status, w: Window): (Status, Option<Outcome>, nat)
    decreases |w.frames|
  {
    if !s.setup.Pending? then (s, None, 0)
    else if w.frames == [] then (s, Some(TransportFailure(w.fault)), 0)
    else
      var (last, failed, consumed) := Pump(Dispatch(s, w.frames[0]), Window(w.frames[1..], w.fault));
      (last, failed, consumed + 1)
  }

  function ResponseOf(setup: SetupState): SetupResponse {
    match setup
    case Established(v, flags) => Agreed(v, flags)
    case Rejected(flags, code) => Refused(flags, code)
    case Unexpected(messageType) => UnexpectedAnswer(messageType)
    case _ => Silence
  }

  function AwaitOutcome(status: Status, failed: Option<Outcome>): Outcome {
    match failed
    case None => Completed(SetupAnswer(ResponseOf(status.setup)))
    case Some(outcome) => outcome
  }

  function SessionResponse(outcome: Outcome): SetupResponse {
    if outcome.Completed? && outcome.response.SetupAnswer? then outcome.response.response else Silence
  }

  function AwaitOn(peer: Peer, r: Run, connection: nat, session: nat, protocol: Protocol, first: bool): Run {
    if connection !in r.states then Record(r, Skipped(ConnectionOpen(connection)))
    else
      var pending := r.states[connection].(setup := Pending);
      var (status, failed, consumed) :=
        if connection in r.links then Pump(pending, peer.windows(r.calls, connection, first))
        else (pending, Some(Skipped(ConnectionOpen(connection))), 0);
      var outcome := AwaitOutcome(status, failed);
      Record(r.(
        states := r.states[connection := status],
        sessions := r.sessions[session := Session(connection, protocol, first, SessionResponse(outcome))],
        calls := r.calls + [Awaiting(connection, first, consumed)]), outcome)
  }

  function Types(frames: seq<Frame>): seq<Byte> {
    seq(|frames|, k requires 0 <= k < |frames| => frames[k].messageType)
  }

  function ProbedState(s: Status, linked: bool, frames: seq<Frame>): Status {
    if linked then DispatchAll(s, frames) else s
  }

  function ProbedStates(peer: Peer, r: Run): map<nat, Status> {
    map c | c in r.states :: ProbedState(r.states[c], c in r.links, peer.drains(r.calls, c))
  }

  /** The types of the frames a probe finds on each connection. */
  function Found(peer: Peer, calls: seq<Call>): nat -> seq<Byte> {
    c => Types(peer.drains(calls, c))
  }

  /** The open connections a probe drains. */
  function Drained(r: Run): set<nat> {
    r.links * r.states.Keys
  }

  function ProbedSightings(peer: Peer, r: Run): seq<Sighting> {
    Sort(Collect(Drained(r), Found(peer, r.calls)))
  }

  function ProbeAll(peer: Peer, r: Run): Run {
    var probed := ProbedSightings(peer, r);
    Record(r.(
      states := ProbedStates(peer, r),
      unsolicited := r.unsolicited + probed,
      calls := r.calls + [Probing]), Completed(Probed(probed)))
  }

  /** A probe reports every frame it finds on an open connection and no other, in order. */
  lemma ProbedExactly(peer: Peer, r: Run, x: Sighting)
    ensures var probed := ProbedSightings(peer, r);
      && Ordered(probed)
      && multiset(probed)[x] ==
           if x.connection in Drained(r) then multiset(Types(peer.drains(r.calls, x.connection)))[x.messageType] else 0
  {
    hide Ordered, Sort, Collect, Types;
    var found := Collect(Drained(r), Found(peer, r.calls));
    SortOrdered(found);
    CollectCounts(Drained(r), Found(peer, r.calls), x);
  }

  /** One action that is not skipped with its block, and its outcome recorded. */
  function Perform(peer: Peer, r: Run, a: Action): Run {
    match a
    case Connect(connection, role) => ConnectTo(peer, r, connection, role)
    case Send(connection, extension, message, channel, payload) =>
      SendOn(peer, r, connection, Sending(connection, extension, message, channel, payload))
    case AwaitSetupResponse(connection, session, protocol, first) =>
        AwaitOn(peer, r, connection, session, protocol, first)
    case EnterOnSetupSuccess(_, _) => Record(r, Completed(NoResponse))
    case ExitBlock => Record(r, Completed(NoResponse))
    case AdvanceTime(duration) => Record(r.(calls := r.calls + [Waiting(duration)]), Completed(NoResponse))
    case Probe => ProbeAll(peer, r)
  }

  /** The session was awaited, and the answer was agreement. */
  predicate IsEstablished(r: Run, session: nat) {
    session in r.sessions && r.sessions[session].response.Agreed?
  }

  predicate Unmet(r: Run, a: Action) {
    a.EnterOnSetupSuccess? && !IsEstablished(r, a.session)
  }

  /** Record that the next `n` actions were skipped for a session the server did not agree to. */
  function Skip(r: Run, session: nat, n: nat): Run {
    r.(outcomes := r.outcomes + Repeated(Skipped(SetupAgreed(session)), n))
  }

  /** No block ends before it begins, so a run only ever moves forward. */
  predicate Forward(actions: seq<Action>) {
    forall i | 0 <= i < |actions| :: actions[i].EnterOnSetupSuccess? ==> i <= actions[i].end
  }

  /** The last action skipped with a block. */
  function LastSkipped(actions: seq<Action>, next: nat): (last: nat)
    requires next < |actions| && actions[next].EnterOnSetupSuccess?
    ensures last < |actions|
  {
    if actions[next].end < |actions| then actions[next].end else |actions| - 1
  }

  /** Carry out the actions from `next` on. */
  function RunFrom(peer: Peer, actions: seq<Action>, next: nat, r: Run): Run
    requires Forward(actions) && next <= |actions|
    decreases |actions| - next
  {
    if next == |actions| then r
    else if Unmet(r, actions[next]) then
      var last := LastSkipped(actions, next);
      RunFrom(peer, actions, last + 1, Skip(r, actions[next].session, last + 1 - next))
    else RunFrom(peer, actions, next + 1, Perform(peer, r, actions[next]))
  }

  function RunProgram(peer: Peer, p: CompiledProgram): Run
    requires Forward(p.actions)
  {
    RunFrom(peer, p.actions, 0, START)
  }

  lemma ProbeKeepsConnections(peer: Peer, r: Run)
    ensures ProbedStates(peer, r).Keys == r.states.Keys
  {
  }

  lemma PerformRecordsOne(peer: Peer, r: Run, a: Action)
    ensures |Perform(peer, r, a).outcomes| == |r.outcomes| + 1
    ensures Perform(peer, r, a).outcomes[..|r.outcomes|] == r.outcomes
  {
  }

  /** A run records exactly one outcome for each action, and what it has recorded it keeps. */
  lemma {:induction false} RunIsTotal(peer: Peer, actions: seq<Action>, next: nat, r: Run)
    requires Forward(actions) && next <= |actions| && |r.outcomes| == next
    ensures var end := RunFrom(peer, actions, next, r);
      |end.outcomes| == |actions| && end.outcomes[..next] == r.outcomes
    decreases |actions| - next
  {
    if next < |actions| {
      hide Perform;
      PerformRecordsOne(peer, r, actions[next]);
      if Unmet(r, actions[next]) {
        var last := LastSkipped(actions, next);
        var skipped := Skip(r, actions[next].session, last + 1 - next);
        RunIsTotal(peer, actions, last + 1, skipped);
        assert skipped.outcomes[..next] == r.outcomes;
      } else {
        RunIsTotal(peer, actions, next + 1, Perform(peer, r, actions[next]));
      }
      var end := RunFrom(peer, actions, next, r);
      var mid := if Unmet(r, actions[next]) then LastSkipped(actions, next) + 1 else next + 1;
      assert end.outcomes[..mid][..next] == end.outcomes[..next];
    }
  }

  // ---------------------------------------------------------------------------------------------
  // The runner
  // ---------------------------------------------------------------------------------------------

  lemma {:induction false} PumpFrom(s: Status, w: Window, k: nat)
    requires k < |w.frames| && s.setup.Pending?
    ensures var rest := Window(w.frames[k..], w.fault);
      var next := Pump(Dispatch(s, w.frames[k]), Window(w.frames[k + 1..], w.fault));
      Pump(s, rest) == (next.0, next.1, next.2 + 1)
  {
    assert w.frames[k..][1..] == w.frames[k + 1..];
  }

  class Runner {
    const peer: Peer
    var links: set<nat>
    var states: map<nat, ConnectionState>
    var outcomes: seq<Outcome>
    var sessions: map<nat, Session>
    var roles: map<nat, nat>
    var unsolicited: seq<Sighting>
    var calls: seq<Call>

    ghost function Cells(): set<ConnectionState>
      reads this`states
    {
      states.Values
    }

    /** No two connections share a state. */
    ghost predicate Valid()
      reads this`states
    {
      forall c, d | c in states && d in states && c != d :: states[c] != states[d]
    }

    ghost function Statuses(): map<nat, Status>
      reads this`states, Cells()
    {
      map c | c in states :: states[c].View()
    }

    ghost function View(): Run
      reads this, Cells()
    {
      Run(links, Statuses(), outcomes, sessions, roles, unsolicited, calls)
    }

    constructor (peer: Peer)
      ensures Valid() && fresh(Cells()) && View() == START && this.peer == peer
    {
      this.peer := peer;
      links, states, outcomes, sessions, roles, unsolicited, calls := {}, map[], [], map[], map[], [], [];
    }

    method AddState(connection: nat)
      requires Valid()
      modifies this`states
      ensures Valid() && fresh(Cells() - old(Cells()))
      ensures Statuses() == old(Statuses())[connection := FRESH]
    {
      var state := new ConnectionState();
      states := states[connection := state];
      forall cell | cell in Cells() - old(Cells()) ensures cell == state {
        var c :| c in states && states[c] == cell;
      }
    }

    method PerformConnect(connection: nat, role: nat) returns (outcome: Outcome)
      requires Valid()
      modifies this
      ensures Valid() && fresh(Cells() - old(Cells()))
      ensures Record(View(), outcome) == ConnectTo(peer, old(View()), connection, role)
    {
      hide Valid, Statuses;
      var reached := peer.connects(calls, connection, role);
      calls := calls + [Connecting(connection, role)];
      if !reached {
        return TransportError([]);
      }
      AddState(connection);
      links := links + {connection};
      roles := roles[connection := role];
      return Completed(NoResponse);
    }

    method PerformSend(connection: nat, call: Call) returns (outcome: Outcome)
      requires Valid()
      modifies this`calls
      ensures Valid() && Cells() == old(Cells())
      ensures Record(View(), outcome) == SendOn(peer, old(View()), connection, call)
    {
      if connection !in links {
        return Skipped(ConnectionOpen(connection));
      }
      var fault := peer.sends(calls, connection);
      calls := calls + [call];
      match fault {
        case None => return Completed(NoResponse);
        case Some(f) => return TransportFailure(f);
      }
    }

    /** Receive and dispatch frames until the setup is settled, or no more come. */
    method PumpFrames(state: ConnectionState, w: Window) returns (failed: Option<Outcome>, consumed: nat)
      modifies state
      ensures (state.View(), failed, consumed) == Pump(old(state.View()), w)
    {
      hide Pump, Dispatch;
      consumed := 0;
      assert w.frames[0..] == w.frames;
      while true
        invariant consumed <= |w.frames|
        invariant var rest := Pump(state.View(), Window(w.frames[consumed..], w.fault));
          Pump(old(state.View()), w) == (rest.0, rest.1, rest.2 + consumed)
        decreases |w.frames| - consumed
      {
        if state.setup != Pending {
          PumpSettled(state.View(), Window(w.frames[consumed..], w.fault));
          return None, consumed;
        }
        if consumed == |w.frames| {
          PumpEmpty(state.View(), Window(w.frames[consumed..], w.fault));
          return Some(TransportFailure(w.fault)), consumed;
        }
        PumpFrom(state.View(), w, consumed);
        var _ := state.Receive(w.frames[consumed]);
        consumed := consumed + 1;
      }
    }

    method PerformAwait(connection: nat, session: nat, protocol: Protocol, first: bool) returns (outcome: Outcome)
      requires Valid()
      modifies this`sessions, this`calls, Cells()
      ensures Valid() && Cells() == old(Cells())
      ensures Record(View(), outcome) == AwaitOn(peer, old(View()), connection, session, protocol, first)
    {
      hide Pump, Dispatch;
      if connection !in states {
        return Skipped(ConnectionOpen(connection));
      }
      var state := states[connection];
      state.setup := Pending;
      var failed, consumed := Some(Skipped(ConnectionOpen(connection))), 0;
      if connection in links {
        failed, consumed := PumpFrames(state, peer.windows(calls, connection, first));
      }
      outcome := match failed case None => Completed(SetupAnswer(ResponseOf(state.setup))) case Some(o) => o;
      sessions := sessions[session := Session(connection, protocol, first, SessionResponse(outcome))];
      calls := calls + [Awaiting(connection, first, consumed)];
      assert Statuses() == old(Statuses())[connection := state.View()];
    }

    method Drain(state: ConnectionState, connection: nat, frames: seq<Frame>) returns (seen: seq<Sighting>)
      modifies state
      ensures state.View() == DispatchAll(old(state.View()), frames) && seen == Seen(connection, Types(frames))
    {
      hide Dispatch, DispatchAll;
      seen := [];
      assert old(state.View())
        == DispatchAll(old(state.View()), frames[..0]) by { DrainNothing(old(state.View()), frames[..0]); }
      for k := 0 to |frames|
        invariant state.View() == DispatchAll(old(state.View()), frames[..k])
        invariant seen == Seen(connection, Types(frames))[..k]
      {
        DispatchLast(old(state.View()), frames, k);
        seen := seen + [Sighting(connection, frames[k].messageType)];
        var _ := state.Receive(frames[k]);
      }
      assert frames[..|frames|] == frames;
    }

    /** Drain every open connection, whatever order they are visited in. */
    method DrainEach() returns (collected: seq<Sighting>)
      requires Valid()
      modifies Cells()
      ensures Statuses() == ProbedStates(peer, old(View()))
      ensures multiset(collected) == multiset(Collect(Drained(old(View())), Found(peer, calls)))
    {
      hide DispatchAll, Found, Collect, Seen;
      ghost var r := View();
      ghost var states', found := ProbedStates(peer, r), Found(peer, calls);
      collected := [];
      var left := links;
      assert Drained(r) == left * states.Keys;
      while left != {}
        invariant left <= links
        invariant forall c | c in states :: states[c].View() == if c in left then r.states[c] else states'[c]
        invariant multiset(Collect(Drained(r), found)) == multiset(collected)
          + multiset(Collect(left * states.Keys, found))
        decreases left
      {
        var c :| c in left;
        CollectOneOf(left, states.Keys, found, c);
        left := left - {c};
        if c in states {
          var seen := DrainLink(c);
          collected := collected + seen;
        }
      }
      assert left * states.Keys == {};
      CollectNothing(found);
    }

    /** Drain every open connection, and put what was found in order. */
    method DrainLinks() returns (probed: seq<Sighting>)
      requires Valid()
      modifies Cells()
      ensures Statuses() == ProbedStates(peer, old(View())) && probed == ProbedSightings(peer, old(View()))
    {
      hide ProbedStates, Collect, Sort;
      var collected := DrainEach();
      SortForgets(collected, Collect(Drained(old(View())), Found(peer, calls)));
      probed := Sort(collected);
    }

    /** Drain one connection, leaving the others' states alone. */
    method DrainLink(c: nat) returns (seen: seq<Sighting>)
      requires Valid() && c in states
      modifies states[c]
      ensures states[c].View() == ProbedState(old(states[c].View()), true, peer.drains(calls, c))
      ensures forall d | d in states && d != c :: states[d].View() == old(states[d].View())
      ensures seen == Seen(c, Found(peer, calls)(c))
    {
      seen := Drain(states[c], c, peer.drains(calls, c));
    }

    method PerformProbe() returns (outcome: Outcome)
      requires Valid()
      modifies this`unsolicited, this`calls, Cells()
      ensures Valid() && Cells() == old(Cells())
      ensures Record(View(), outcome) == ProbeAll(peer, old(View()))
    {
      hide ProbedStates, ProbedSightings;
      var probed := DrainLinks();
      unsolicited := unsolicited + probed;
      calls := calls + [Call.Probing];
      return Completed(Probed(probed));
    }

    /** The effect of an action on the run, and its outcome. */
    method PerformAction(a: Action) returns (outcome: Outcome)
      requires Valid()
      modifies this, Cells()
      ensures Valid() && fresh(Cells() - old(Cells()))
      ensures Record(View(), outcome) == Perform(peer, old(View()), a)
    {
      hide ConnectTo, SendOn, AwaitOn, ProbeAll;
      match a {
        case EnterOnSetupSuccess(_, _) => outcome := Completed(NoResponse);
        case ExitBlock => outcome := Completed(NoResponse);
        case Connect(connection, role) => outcome := PerformConnect(connection, role);
        case Send(connection, extension, message, channel, payload) =>
          outcome := PerformSend(connection, Sending(connection, extension, message, channel, payload));
        case AwaitSetupResponse(connection, session, protocol, first) =>
          outcome := PerformAwait(connection, session, protocol, first);
        case AdvanceTime(duration) =>
          calls := calls + [Waiting(duration)];
          outcome := Completed(NoResponse);
        case Probe => outcome := PerformProbe();
      }
    }

    /** Run a whole program: a block whose setup was not agreed is skipped whole, its exit included. */
    method RunActions(actions: seq<Action>)
      requires Valid() && View() == START && Forward(actions)
      modifies this, Cells()
      ensures View() == RunFrom(peer, actions, 0, START)
    {
      hide Perform, IsEstablished, RunFrom, Skip, Record, Unmet;
      var next := 0;
      while next < |actions|
        invariant next <= |actions| && Valid() && fresh(Cells() - old(Cells()))
        invariant RunFrom(peer, actions, 0, START) == RunFrom(peer, actions, next, View())
      {
        RunStep(peer, actions, next, View());
        var unmet := UnmetPrerequisite(actions[next]);
        if unmet.Some? {
          var last := LastSkipped(actions, next);
          SkipTo(unmet.value, last + 1 - next);
          next := last + 1;
          continue;
        }
        var outcome := PerformAction(actions[next]);
        Keep(outcome);
        next := next + 1;
      }
      RunEnd(peer, actions, View());
    }

    method Keep(outcome: Outcome)
      modifies this`outcomes
      ensures View() == Record(old(View()), outcome)
    {
      outcomes := outcomes + [outcome];
    }

    /** For an action that opens a block the run has not met the prerequisite of: the session that was not agreed. */
    method UnmetPrerequisite(a: Action) returns (session: Option<nat>)
      ensures session.Some? <==> Unmet(View(), a)
      ensures session.Some? ==> a.EnterOnSetupSuccess? && session.value == a.session
    {
      if a.EnterOnSetupSuccess? {
        var agreed := a.session in sessions && sessions[a.session].response.Agreed?;
        return if agreed then None else Some(a.session);
      }
      return None;
    }

    method SkipTo(session: nat, n: nat)
      modifies this`outcomes
      ensures View() == Skip(old(View()), session, n)
    {
      for k := 0 to n
        invariant outcomes == old(outcomes) + Repeated(Skipped(SetupAgreed(session)), k)
      {
        outcomes := outcomes + [Skipped(SetupAgreed(session))];
      }
    }
  }

  lemma RunStep(peer: Peer, actions: seq<Action>, next: nat, r: Run)
    requires Forward(actions) && next < |actions|
    ensures Unmet(r, actions[next]) ==>
      && actions[next].EnterOnSetupSuccess?
      && next <= LastSkipped(actions, next)
      && RunFrom(peer, actions, next, r) == RunFrom(peer, actions, LastSkipped(actions, next) + 1,
           Skip(r, actions[next].session, LastSkipped(actions, next) + 1 - next))
    ensures !Unmet(r, actions[next]) ==>
      RunFrom(peer, actions, next, r) == RunFrom(peer, actions, next + 1, Perform(peer, r, actions[next]))
  {
  }

  lemma RunEnd(peer: Peer, actions: seq<Action>, r: Run)
    requires Forward(actions)
    ensures RunFrom(peer, actions, |actions|, r) == r
  {
  }

  lemma DrainNothing(s: Status, frames: seq<Frame>)
    requires frames == []
    ensures DispatchAll(s, frames) == s
  {
  }

  lemma PumpSettled(s: Status, w: Window)
    requires !s.setup.Pending?
    ensures Pump(s, w) == (s, None, 0)
  {
  }

  lemma PumpEmpty(s: Status, w: Window)
    requires s.setup.Pending? && w.frames == []
    ensures Pump(s, w) == (s, Some(TransportFailure(w.fault)), 0)
  {
  }
}
