/** What awaiting an answer records, told by the frames that arrive and why no more do. */
module Answers {
  import opened Wrappers
  import opened Ir
  import opened Compiler
  import opened Events
  import opened Runner

  /** The frame that answers in a window, if one does. */
  predicate Answered(w: Window) {
    FirstAnswer(w.frames) < |w.frames|
  }

  function AnsweringFrame(w: Window): (f: Frame)
    requires Answered(w)
    ensures f.extensionType == 0 && f.body.Decoded?
  {
    w.frames[FirstAnswer(w.frames)]
  }

  /**
   * The outcome of an await, told by its window: agreement, refusal or an unexpected answer by the first decoded
   * message of extension zero, with what that says; and without one, by why no more arrived.
   */
  predicate Shows(o: Outcome, w: Window) {
    if Answered(w) then
      var f := AnsweringFrame(w);
      match f.body.message
      case SetupConnectionSuccess(v, flags) => o == Completed(SetupAnswer(Agreed(v, flags)))
      case SetupConnectionError(flags, code) => o == Completed(SetupAnswer(Refused(flags, code)))
      case ReconnectMessage(_, _) => o == Completed(SetupAnswer(UnexpectedAnswer(f.messageType)))
      case OtherMessage => o == Completed(SetupAnswer(UnexpectedAnswer(f.messageType)))
    else
      match w.fault
      case Timeout => o == TimedOut
      case Closed => o == TransportClosed
      case Failed(detail) => o == TransportError(detail)
  }

  /** How many frames of a window are taken: up to the one that answers, or all of them. */
  function Taken(w: Window): nat {
    if Answered(w) then FirstAnswer(w.frames) + 1 else |w.frames|
  }

  /** The answer a session keeps is the one its outcome shows, and silence if it shows none. */
  predicate Keeps(s: Session, a: Action, o: Outcome)
    requires a.AwaitSetupResponse?
  {
    && s.connection == a.connection && s.protocol == a.protocol && s.firstOnConnection == a.firstOnConnection
    && s.response == if o.Completed? && o.response.SetupAnswer? then o.response.response else Silence
  }

  /** Pumping a pending setup settles it by the frame that answers, and takes no more. */
  lemma {:induction false} PumpTakes(s: Status, w: Window)
    requires s.setup.Pending?
    ensures var (last, failed, consumed) := Pump(s, w);
      && consumed == Taken(w)
      && last == DispatchAll(s, w.frames[..Taken(w)])
      && (Answered(w) ==> failed.None? && SettledBy(last.setup, AnsweringFrame(w)))
      && (!Answered(w) ==> last.setup.Pending? && failed == Some(TransportFailure(w.fault)))
    decreases |w.frames|
  {
    hide Dispatch, SettledBy;
    if w.frames == [] {
      assert w.frames[..0] == [];
    } else {
      var rest := Window(w.frames[1..], w.fault);
      var next := Dispatch(s, w.frames[0]);
      assert w.frames[..Taken(w)][0] == w.frames[0];
      DispatchOne(s, w.frames[0]);
      if CanAnswer(w.frames[0]) {
        assert FirstAnswer(w.frames) == 0;
        PumpSettled(next, rest);
        assert w.frames[..1][1..] == [];
      } else {
        PumpTakes(next, rest);
        assert w.frames[..Taken(w)][1..] == rest.frames[..Taken(rest)];
      }
    }
  }

  /** A frame that can answer settles a pending setup, and any other leaves it pending. */
  lemma DispatchOne(s: Status, f: Frame)
    requires s.setup.Pending?
    ensures var t := Dispatch(s, f).setup;
      if CanAnswer(f) then SettledBy(t, f) && !t.Pending? else t.Pending?
  {
  }

  /**
   * An await on an open connection shows exactly what its window has to show, keeps it as its session, and takes no
   * frame beyond the one that answers.
   */
  lemma AwaitShows(peer: Peer, r: Run, a: Action)
    requires a.AwaitSetupResponse? && a.connection in r.links && a.connection in r.states
    ensures var r', w := Perform(peer, r, a), peer.windows(r.calls, a.connection, a.firstOnConnection);
      && |r'.outcomes| == |r.outcomes| + 1 && Shows(r'.outcomes[|r.outcomes|], w)
      && a.session in r'.sessions && Keeps(r'.sessions[a.session], a, r'.outcomes[|r.outcomes|])
      && r'.calls == r.calls + [Awaiting(a.connection, a.firstOnConnection, Taken(w))]
      && a.connection in r'.states
      && r'.states[a.connection] == DispatchAll(r.states[a.connection].(setup := Pending), w.frames[..Taken(w)])
  {
    hide Pump, DispatchAll;
    var w := peer.windows(r.calls, a.connection, a.firstOnConnection);
    PumpTakes(r.states[a.connection].(setup := Pending), w);
  }
}
