/** The dispatcher: every frame a connection receives is classified, kept, and may answer a pending setup. */
module Events {
  import opened Ir

  /** A decoded message of a type the harness models, or any other. */
  datatype Message =
    | SetupConnectionSuccess(usedVersion: Word16, flags: bv32)
    | SetupConnectionError(flags: bv32, errorCode: Text)
    | ReconnectMessage(host: Text, port: Word16)
    | OtherMessage

  datatype Body = Decoded(message: Message, channelBit: bool) | Undecodable(reason: Text)

  /** A received frame: its header, and what its payload decodes to. */
  datatype Frame = Frame(extensionType: Word16, channelMsg: bool, messageType: Byte, length: nat, body: Body)

  datatype Event =
    | SetupSuccess(usedVersion: Word16, flags: bv32)
    | SetupError(flags: bv32, errorCode: Text)
    | Reconnect(host: Text, port: Word16)
    | Other(messageType: Byte)
    | Unknown(extensionType: Word16, messageType: Byte, length: nat)
    | Malformed(messageType: Byte, length: nat, reason: Text)

  /** A frame whose channel bit disagreed with its message: set where it should not be, or missing. */
  datatype HeaderIssue = ChannelBitSet(messageType: Byte) | ChannelBitMissing(messageType: Byte)

  datatype SetupState =
    | Unsent
    | Pending
    | Established(usedVersion: Word16, flags: bv32)
    | Rejected(flags: bv32, errorCode: Text)
    | Unexpected(messageType: Byte)

  datatype Status = Status(setup: SetupState, events: seq<Event>, headerIssues: seq<HeaderIssue>)

  const FRESH: Status := Status(Unsent, [], [])

  predicate KnownMessageType(t: Byte) {
    t <= 0x04 || 0x10 <= t <= 0x25 || 0x50 <= t <= 0x60 || 0x70 <= t <= 0x76
  }

  function Observed(m: Message, messageType: Byte): Event {
    match m
    case SetupConnectionSuccess(v, flags) => SetupSuccess(v, flags)
    case SetupConnectionError(flags, code) => SetupError(flags, code)
    case ReconnectMessage(host, port) => Reconnect(host, port)
    case OtherMessage => Other(messageType)
  }

  function Classify(f: Frame): Event {
    if f.extensionType != 0 then Unknown(f.extensionType, f.messageType, f.length)
    else
      match f.body
      case Decoded(m, _) => Observed(m, f.messageType)
      case Undecodable(reason) =>
        if KnownMessageType(f.messageType) then Malformed(f.messageType, f.length, reason)
        else Unknown(f.extensionType, f.messageType, f.length)
  }

  /** What a setup becomes when a decoded message is the first after it. */
  function Answer(e: Event, messageType: Byte): SetupState {
    match e
    case SetupSuccess(v, flags) => Established(v, flags)
    case SetupError(flags, code) => Rejected(flags, code)
    case _ => Unexpected(messageType)
  }

  function Applied(setup: SetupState, e: Event, messageType: Byte): SetupState {
    if setup.Pending? then Answer(e, messageType) else setup
  }

  /** Only a decoded message of extension zero can answer a setup; any other frame is kept and nothing more. */
  predicate CanAnswer(f: Frame) {
    f.extensionType == 0 && f.body.Decoded?
  }

  function IssuesOf(f: Frame): seq<HeaderIssue> {
    if !CanAnswer(f) || f.body.channelBit == f.channelMsg then []
    else [if f.channelMsg then ChannelBitSet(f.messageType) else ChannelBitMissing(f.messageType)]
  }

  function Dispatch(s: Status, f: Frame): Status {
    Status(
      if CanAnswer(f) then Applied(s.setup, Classify(f), f.messageType) else s.setup,
      s.events + [Classify(f)],
      s.headerIssues + IssuesOf(f))
  }

  function DispatchAll(s: Status, frames: seq<Frame>): Status
    decreases |frames|
  {
    if frames == [] then s else DispatchAll(Dispatch(s, frames[0]), frames[1..])
  }

  class ConnectionState {
    var setup: SetupState
    var events: seq<Event>
    var headerIssues: seq<HeaderIssue>

    ghost function View(): Status
      reads this
    {
      Status(setup, events, headerIssues)
    }

    constructor ()
      ensures View() == FRESH
    {
      setup, events, headerIssues := Unsent, [], [];
    }

    /** A frame arrives: it is classified, may answer the setup, and is kept whatever is wrong with it. */
    method Receive(f: Frame) returns (event: Event)
      modifies this
      ensures View() == Dispatch(old(View()), f) && event == Classify(f)
    {
      if f.extensionType != 0 {
        event := Unknown(f.extensionType, f.messageType, f.length);
      } else {
        match f.body {
          case Decoded(message, channelBit) =>
            if channelBit != f.channelMsg {
              headerIssues := headerIssues
                + [if f.channelMsg then ChannelBitSet(f.messageType) else ChannelBitMissing(f.messageType)];
            }
            event := Observe(message, f.messageType);
          case Undecodable(reason) =>
            event := if KnownMessageType(f.messageType) then Malformed(f.messageType, f.length, reason)
                     else Unknown(f.extensionType, f.messageType, f.length);
        }
      }
      events := events + [event];
    }

    method Observe(m: Message, messageType: Byte) returns (event: Event)
      modifies this`setup
      ensures event == Observed(m, messageType) && setup == Applied(old(setup), event, messageType)
    {
      event := Observed(m, messageType);
      Apply(event, messageType);
    }

    method Apply(event: Event, messageType: Byte)
      modifies this`setup
      ensures setup == Applied(old(setup), event, messageType)
    {
      if setup != Pending {
        return;
      }
      match event {
        case SetupSuccess(v, flags) => setup := Established(v, flags);
        case SetupError(flags, code) => setup := Rejected(flags, code);
        case _ => setup := Unexpected(messageType);
      }
    }
  }

  /** The position of the first frame that can answer a setup, or the number of frames. */
  function FirstAnswer(frames: seq<Frame>): (k: nat)
    ensures k <= |frames|
    ensures k < |frames| ==> frames[k].extensionType == 0 && frames[k].body.Decoded?
    ensures forall j | 0 <= j < k :: frames[j].extensionType != 0 || frames[j].body.Undecodable?
  {
    if frames == [] || CanAnswer(frames[0]) then 0 else 1 + FirstAnswer(frames[1..])
  }

  lemma {:induction false} SettledStays(s: Status, frames: seq<Frame>)
    requires !s.setup.Pending?
    ensures DispatchAll(s, frames).setup == s.setup
    decreases |frames|
  {
    if frames != [] {
      SettledStays(Dispatch(s, frames[0]), frames[1..]);
    }
  }

  /** What a setup has become, told by the frame that answered it and nothing else. */
  predicate SettledBy(setup: SetupState, f: Frame)
    requires f.body.Decoded?
  {
    match f.body.message
    case SetupConnectionSuccess(v, flags) => setup == Established(v, flags)
    case SetupConnectionError(flags, code) => setup == Rejected(flags, code)
    case ReconnectMessage(_, _) => setup == Unexpected(f.messageType)
    case OtherMessage => setup == Unexpected(f.messageType)
  }

  lemma AnswerSettles(f: Frame)
    requires CanAnswer(f)
    ensures SettledBy(Answer(Classify(f), f.messageType), f)
  {
  }

  /**
   * A pending setup is agreed to exactly if the first decoded message of extension zero is a success, refused exactly
   * if that is an error, and unexpected exactly if it is anything else, with what that message says; whatever unknown
   * or malformed frames come before it and whatever comes after. It stays pending if there is none.
   */
  lemma {:induction false} FirstAnswerDecides(s: Status, frames: seq<Frame>)
    requires s.setup.Pending?
    ensures var k := FirstAnswer(frames);
      if k == |frames| then DispatchAll(s, frames).setup == Pending
      else SettledBy(DispatchAll(s, frames).setup, frames[k])
    decreases |frames|
  {
    hide Answer, Classify, SettledBy;
    if frames != [] {
      var next := Dispatch(s, frames[0]);
      if CanAnswer(frames[0]) {
        AnswerSettles(frames[0]);
        AnswerIsFinal(frames[0]);
        SettledStays(next, frames[1..]);
      } else {
        FirstAnswerDecides(next, frames[1..]);
      }
    }
  }

  lemma AnswerIsFinal(f: Frame)
    ensures !Answer(Classify(f), f.messageType).Pending?
  {
  }

  /** What is kept of a frame, told by its header and what it decodes to. */
  predicate ToldBy(e: Event, f: Frame) {
    var decoded := f.extensionType == 0 && f.body.Decoded?;
    var undecoded := f.extensionType == 0 && f.body.Undecodable?;
    var common := f.messageType in {0, 1, 2, 3, 4};
    var mining := 16 <= f.messageType <= 37;
    var declaration := 80 <= f.messageType <= 96;
    var distribution := 112 <= f.messageType <= 118;
    var known := common || mining || declaration || distribution;
    && (decoded ==>
          match f.body.message
          case SetupConnectionSuccess(v, flags) => e == SetupSuccess(v, flags)
          case SetupConnectionError(flags, code) => e == SetupError(flags, code)
          case ReconnectMessage(host, port) => e == Reconnect(host, port)
          case OtherMessage => e == Other(f.messageType))
    && (undecoded && known ==> e == Malformed(f.messageType, f.length, f.body.reason))
    && (f.extensionType != 0 || (undecoded && !known) ==> e == Unknown(f.extensionType, f.messageType, f.length))
  }

  /** A channel bit is reported where it is set and should not be, or should be and is not, on decoded frames alone. */
  predicate IssueTold(issues: seq<HeaderIssue>, f: Frame) {
    if f.extensionType == 0 && f.body.Decoded? && f.channelMsg && !f.body.channelBit then
      issues == [ChannelBitSet(f.messageType)]
    else if f.extensionType == 0 && f.body.Decoded? && !f.channelMsg && f.body.channelBit then
      issues == [ChannelBitMissing(f.messageType)]
    else issues == []
  }

  /**
   * Every frame leaves one event, in order, which tells what the frame was, and is reported for its channel bit alone.
   */
  lemma {:induction false} EveryFrameTold(s: Status, frames: seq<Frame>, k: nat)
    requires k < |frames|
    ensures var before, after := DispatchAll(s, frames[..k]), DispatchAll(s, frames[..k + 1]);
      && |DispatchAll(s, frames).events| == |s.events| + |frames|
      && ToldBy(DispatchAll(s, frames).events[|s.events| + k], frames[k])
      && exists issues :: after.headerIssues == before.headerIssues + issues && IssueTold(issues, frames[k])
  {
    hide Classify, ToldBy, Dispatch, IssueTold, IssuesOf;
    EveryFrameKept(s, frames);
    FrameTold(DispatchAll(s, frames[..k]), frames[k]);
    DispatchLast(s, frames, k);
  }

  lemma FrameTold(s: Status, f: Frame)
    ensures ToldBy(Classify(f), f)
    ensures IssueTold(IssuesOf(f), f) && Dispatch(s, f).headerIssues == s.headerIssues + IssuesOf(f)
  {
  }

  lemma {:induction false} DispatchLast(s: Status, frames: seq<Frame>, k: nat)
    requires k < |frames|
    ensures DispatchAll(s, frames[..k + 1]) == Dispatch(DispatchAll(s, frames[..k]), frames[k])
    decreases k
  {
    hide Dispatch;
    if k == 0 {
      assert frames[..1][1..] == [] && frames[..0] == [];
    } else {
      assert frames[..k + 1][0] == frames[0] && frames[..k + 1][1..] == frames[1..][..k];
      assert frames[..k][0] == frames[0] && frames[..k][1..] == frames[1..][..k - 1];
      DispatchLast(Dispatch(s, frames[0]), frames[1..], k - 1);
    }
  }

  /** Every frame is kept, in order, as it is classified. */
  lemma {:induction false} EveryFrameKept(s: Status, frames: seq<Frame>)
    ensures DispatchAll(s, frames).events == s.events + seq(|frames|, k requires 0 <= k < |frames| =>
        Classify(frames[k]))
    decreases |frames|
  {
    if frames != [] {
      EveryFrameKept(Dispatch(s, frames[0]), frames[1..]);
    }
  }
}
