/** What a run knows of each connection, told by the frames heard on it. */
module Hearings {
  import opened Wrappers
  import opened Ir
  import opened Compiler
  import opened Events
  import opened Sightings
  import opened Runner
  import opened Answers

  /** The frames heard on a connection since it was opened, if it was. */
  function Heard(peer: Peer, calls: seq<Call>, c: nat): Option<seq<Frame>>
    decreases |calls|
  {
    if calls == [] then None
    else
      var before := calls[..|calls| - 1];
      var heard := Heard(peer, before, c);
      match calls[|calls| - 1]
      case Connecting(d, role) => if d == c && peer.connects(before, c, role) then Some([]) else heard
      case Awaiting(d, first, n) =>
        var frames := peer.windows(before, c, first).frames;
        if d == c && heard.Some? && n <= |frames| then Some(heard.value + frames[..n]) else heard
      case Probing => if heard.Some? then Some(heard.value + peer.drains(before, c)) else None
      case _ => heard
  }

  /** Those heard since the harness last began to await an answer on it, if it has since it was opened. */
  function HeardSince(peer: Peer, calls: seq<Call>, c: nat): Option<seq<Frame>>
    decreases |calls|
  {
    if calls == [] then None
    else
      var before := calls[..|calls| - 1];
      var since := HeardSince(peer, before, c);
      match calls[|calls| - 1]
      case Connecting(d, role) => if d == c && peer.connects(before, c, role) then None else since
      case Awaiting(d, first, n) =>
        var frames := peer.windows(before, c, first).frames;
        if d == c && n <= |frames| then Some(frames[..n]) else since
      case Probing => if since.Some? then Some(since.value + peer.drains(before, c)) else None
      case _ => since
  }

  /** The role a connection was last opened to, if it was. */
  function RoleOpened(peer: Peer, calls: seq<Call>, c: nat): Option<nat>
    decreases |calls|
  {
    if calls == [] then None
    else
      var before, last := calls[..|calls| - 1], calls[|calls| - 1];
      if last.Connecting? && last.connection == c && peer.connects(before, c, last.role) then Some(last.role)
      else RoleOpened(peer, before, c)
  }

  /** The frames reported for their channel bit, and how. */
  function Reports(frames: seq<Frame>): seq<HeaderIssue> {
    if frames == [] then []
    else
      var f := frames[|frames| - 1];
      Reports(frames[..|frames| - 1]) +
        if f.extensionType != 0 || f.body.Undecodable? then []
        else if f.channelMsg && !f.body.channelBit then [ChannelBitSet(f.messageType)]
        else if !f.channelMsg && f.body.channelBit then [ChannelBitMissing(f.messageType)]
        else []
  }

  /**
   * A status told by the frames heard: an event and perhaps a report for each, and the setup by the one that answers.
   */
  ghost predicate StatusTold(s: Status, heard: seq<Frame>, since: Option<seq<Frame>>) {
    && |s.events| == |heard| && (forall k | 0 <= k < |heard| :: ToldBy(s.events[k], heard[k]))
    && s.headerIssues == Reports(heard)
    && SetupTold(s.setup, since)
  }

  predicate SetupTold(setup: SetupState, since: Option<seq<Frame>>) {
    match since
    case None => setup == Unsent
    case Some(frames) =>
      var k := FirstAnswer(frames);
      if k == |frames| then setup == Pending else SettledBy(setup, frames[k])
  }

  ghost predicate StatesTold(peer: Peer, r: Run) {
    && r.states.Keys == r.links && r.roles.Keys == r.links
    && forall c: nat :: ConnectionTold(peer, r, c)
  }

  ghost predicate ConnectionTold(peer: Peer, r: Run, c: nat) {
    var heard, role := Heard(peer, r.calls, c), RoleOpened(peer, r.calls, c);
    && (c in r.states <==> heard.Some?) && (c in r.roles <==> role.Some?)
    && (c in r.roles ==> role == Some(r.roles[c]))
    && (c in r.states && heard.Some? ==> StatusTold(r.states[c], heard.value, HeardSince(peer, r.calls, c)))
  }

  // ---------------------------------------------------------------------------------------------
  // Hearing more
  // ---------------------------------------------------------------------------------------------

  function More(since: Option<seq<Frame>>, frames: seq<Frame>): Option<seq<Frame>> {
    if since.Some? then Some(since.value + frames) else None
  }

  lemma SetupHears(setup: SetupState, since: Option<seq<Frame>>, f: Frame)
    requires SetupTold(setup, since)
    ensures SetupTold(if CanAnswer(f) then Applied(setup, Classify(f), f.messageType) else setup, More(since, [f]))
  {
    hide SettledBy, Answer, Classify;
    if since.Some? {
      FirstOfMore(since.value, f);
      if FirstAnswer(since.value) < |since.value| {
        SettledIsNotPending(setup, since.value[FirstAnswer(since.value)]);
      } else if CanAnswer(f) {
        AnswerSettles(f);
      }
    }
  }

  lemma SettledIsNotPending(setup: SetupState, f: Frame)
    requires f.body.Decoded? && SettledBy(setup, f)
    ensures !setup.Pending?
  {
  }

  lemma FirstOfMore(frames: seq<Frame>, f: Frame)
    ensures var k, n := FirstAnswer(frames), FirstAnswer(frames + [f]);
      if k < |frames| then n == k else n == if CanAnswer(f) then |frames| else |frames| + 1
  {
    var more := frames + [f];
    var k, n := FirstAnswer(frames), FirstAnswer(more);
    assert forall j | 0 <= j < |frames| :: more[j] == frames[j];
    assert more[|frames|] == f;
  }

  lemma OneHeard(s: Status, heard: seq<Frame>, since: Option<seq<Frame>>, f: Frame)
    requires StatusTold(s, heard, since)
    ensures StatusTold(Dispatch(s, f), heard + [f], More(since, [f]))
  {
    hide ToldBy, SetupTold, Classify, Applied, More;
    FrameTold(s, f);
    SetupHears(s.setup, since, f);
    assert (heard + [f])[..|heard|] == heard;
  }

  lemma {:induction false} AllHeard(s: Status, heard: seq<Frame>, since: Option<seq<Frame>>, frames: seq<Frame>)
    requires StatusTold(s, heard, since)
    ensures StatusTold(DispatchAll(s, frames), heard + frames, More(since, frames))
    decreases |frames|
  {
    hide StatusTold, Dispatch;
    if frames == [] {
      assert heard + frames == heard && (since.Some? ==> since.value + frames == since.value);
    } else {
      OneHeard(s, heard, since, frames[0]);
      AllHeard(Dispatch(s, frames[0]), heard + [frames[0]], More(since, [frames[0]]), frames[1..]);
      assert heard + [frames[0]] + frames[1..] == heard + frames;
      assert [frames[0]] + frames[1..] == frames;
      assert since.Some? ==> since.value + [frames[0]] + frames[1..] == since.value + frames;
    }
  }

  // ---------------------------------------------------------------------------------------------
  // Every action
  // ---------------------------------------------------------------------------------------------

  /** A call that is neither a connect, an await nor a probe changes nothing that is known. */
  lemma CallsOnly(peer: Peer, r: Run, call: Call, r': Run, c: nat)
    requires ConnectionTold(peer, r, c) && r'.states == r.states && r'.roles == r.roles
    requires r'.calls == r.calls || (r'.calls == r.calls + [call] && (call.Sending? || call.Waiting?))
    ensures ConnectionTold(peer, r', c)
  {
    hide StatusTold;
    assert (r.calls + [call])[..|r.calls|] == r.calls;
  }

  lemma ConnectTold(peer: Peer, r: Run, connection: nat, role: nat, c: nat)
    requires ConnectionTold(peer, r, c)
    ensures ConnectionTold(peer, ConnectTo(peer, r, connection, role), c)
  {
    hide StatusTold;
    assert (r.calls + [Connecting(connection, role)])[..|r.calls|] == r.calls;
    assert StatusTold(FRESH, [], None) by { FreshTold(); }
  }

  lemma FreshTold()
    ensures StatusTold(FRESH, [], None)
  {
  }

  lemma PendingTold(s: Status, heard: seq<Frame>, since: Option<seq<Frame>>)
    requires StatusTold(s, heard, since)
    ensures StatusTold(s.(setup := Pending), heard, Some([]))
  {
  }

  lemma AwaitTold(peer: Peer, r: Run, a: Action, c: nat)
    requires a.AwaitSetupResponse? && a.connection in r.links && r.states.Keys == r.links
    requires ConnectionTold(peer, r, c)
    ensures ConnectionTold(peer, Perform(peer, r, a), c)
  {
    hide StatusTold, Pump, DispatchAll, Taken, Shows, Keeps;
    var w := peer.windows(r.calls, a.connection, a.firstOnConnection);
    var call := Awaiting(a.connection, a.firstOnConnection, Taken(w));
    AwaitShows(peer, r, a);
    TakenFits(w);
    assert (r.calls + [call])[..|r.calls|] == r.calls;
    if a.connection == c {
      var heard := Heard(peer, r.calls, c).value;
      PendingTold(r.states[c], heard, HeardSince(peer, r.calls, c));
      AllHeard(r.states[c].(setup := Pending), heard, Some([]), w.frames[..Taken(w)]);
      assert [] + w.frames[..Taken(w)] == w.frames[..Taken(w)];
    }
  }

  lemma TakenFits(w: Window)
    ensures Taken(w) <= |w.frames|
  {
  }

  lemma ProbeHeard(peer: Peer, r: Run, c: nat)
    requires r.states.Keys == r.links && ConnectionTold(peer, r, c)
    ensures ConnectionTold(peer, ProbeAll(peer, r), c)
  {
    hide StatusTold, DispatchAll, ProbedSightings;
    assert (r.calls + [Probing])[..|r.calls|] == r.calls;
    if c in r.states {
      AllHeard(r.states[c], Heard(peer, r.calls, c).value, HeardSince(peer, r.calls, c), peer.drains(r.calls, c));
    }
  }

  lemma PerformHeard(peer: Peer, r: Run, a: Action)
    requires StatesTold(peer, r)
    ensures StatesTold(peer, Perform(peer, r, a))
  {
    hide ConnectionTold, Pump, DispatchAll, ProbedSightings;
    ProbeKeepsConnections(peer, r);
    forall c: nat ensures ConnectionTold(peer, Perform(peer, r, a), c) {
      var r' := Perform(peer, r, a);
      match a {
        case Connect(connection, role) => ConnectTold(peer, r, connection, role, c);
        case Send(connection, extension, message, channel, payload) =>
          CallsOnly(peer, r, Sending(connection, extension, message, channel, payload), r', c);
        case AwaitSetupResponse(connection, _, _, _) =>
          if connection in r.links {
            AwaitTold(peer, r, a, c);
          } else {
            CallsOnly(peer, r, Probing, r', c);
          }
        case AdvanceTime(duration) => CallsOnly(peer, r, Waiting(duration), r', c);
        case Probe => ProbeHeard(peer, r, c);
        case _ => CallsOnly(peer, r, Probing, r', c);
      }
    }
  }

  lemma SkipHeard(peer: Peer, r: Run, session: nat, n: nat)
    requires StatesTold(peer, r)
    ensures StatesTold(peer, Skip(r, session, n))
  {
    hide ConnectionTold;
    forall c: nat ensures ConnectionTold(peer, Skip(r, session, n), c) {
      CallsOnly(peer, r, Probing, Skip(r, session, n), c);
    }
  }

  lemma {:induction false} RunHeard(peer: Peer, actions: seq<Action>, next: nat, r: Run)
    requires Forward(actions) && next <= |actions| && StatesTold(peer, r)
    ensures StatesTold(peer, RunFrom(peer, actions, next, r))
    decreases |actions| - next
  {
    hide StatesTold, Perform, Skip, IsEstablished;
    if next < |actions| {
      if Unmet(r, actions[next]) {
        var last := LastSkipped(actions, next);
        SkipHeard(peer, r, actions[next].session, last + 1 - next);
        RunHeard(peer, actions, last + 1, Skip(r, actions[next].session, last + 1 - next));
      } else {
        PerformHeard(peer, r, actions[next]);
        RunHeard(peer, actions, next + 1, Perform(peer, r, actions[next]));
      }
    }
  }

  /**
   * In every run, of each connection that was opened, and no other, just what the frames heard on it tell is known: an
   * event for each, in order; a report for each whose channel bit is wrong; and what became of its setup, by the first
   * message since an answer was last awaited.
   */
  lemma RunHears(peer: Peer, p: CompiledProgram)
    requires Forward(p.actions)
    ensures StatesTold(peer, RunProgram(peer, p))
  {
    hide RunFrom, Forward;
    RunHeard(peer, p.actions, 0, START);
  }
}
