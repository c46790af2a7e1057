/** The generators: what a conforming client sends, one departure from that at a time, and raw frames. */
module Setups {
  import opened Wrappers
  import opened Ir
  import B = Builder
  import opened Scoping
  import opened Renaming
  import opened Compiler
  import opened Soundness
  import opened Ledger
  import opened Generators
  import opened Fragments
  import H = Homomorphism
  import I = Insertion

  /** What a client does that a conforming one does not. */
  datatype Departure = EmptyVersionRange | UnknownVersion | UndefinedFlags | AfterRawFrame | SecondSetup

  /** What a generator draws, each part used only where it is needed. */
  datatype Draws = Draws(
    pick: nat, coin: bool,
    flags: bv32, undefined: bv32,
    endpoint: bool, device: bool, endpointAgain: bool, deviceAgain: bool,
    version: nat, messageType: Byte, bytes: seq<Byte>, extension: Word16)

  /** The current version, and any of the flags the subprotocol defines. */
  function ConformingSetup(protocol: Protocol, d: Draws): Setup {
    Setup.Setup(protocol, CURRENT_VERSION, CURRENT_VERSION, OnlyDefined(protocol, d.flags), d.endpoint, d.device)
  }

  const UNKNOWN_VERSIONS: seq<Word16> := [0, 1, 3, 0xFFFF]

  function LowestOne(flags: bv32): bv32 {
    flags & (!flags + 1)
  }

  /** The flags with drawn bits that the subprotocol leaves undefined; the lowest such bit where the draw has none. */
  function WithUndefined(protocol: Protocol, flags: bv32, draw: bv32): bv32 {
    var undefined := !DefinedFlags(protocol);
    var some := flags | (draw & undefined);
    if some & undefined == 0 then some | LowestOne(undefined) else some
  }

  /** What a departing client asks for in its setup, where that is what departs. */
  function DepartingSetup(departure: Departure, protocol: Protocol, d: Draws): Setup {
    var x := ConformingSetup(protocol, d);
    match departure
    case EmptyVersionRange => x.(min := CURRENT_VERSION + 1, max := CURRENT_VERSION)
    case UnknownVersion =>
      var version := UNKNOWN_VERSIONS[d.version % |UNKNOWN_VERSIONS|];
      x.(min := version, max := version)
    case UndefinedFlags => x.(flags := WithUndefined(protocol, x.flags, d.undefined))
    case _ => x
  }

  const SIX_ZEROES: seq<Byte> := [0, 0, 0, 0, 0, 0]

  /** The code after the connection, variable `connection`, is opened. */
  function DepartingCode(departure: Departure, n: nat, connection: nat, protocol: Protocol,
    d: Draws): seq<Instruction> {
    var x := DepartingSetup(departure, protocol, d);
    match departure
    case AfterRawFrame => RawCode(connection, n, SIX_ZEROES, d.messageType, 0) + SetupCode(n + 1, connection, x)
    case SecondSetup =>
      SetupCode(n, connection, x)
      + SetupCode(n + x.Count(), connection, x.(endpoint := d.endpointAgain, device := d.deviceAgain))
    case _ => SetupCode(n, connection, x)
  }

  // ---------------------------------------------------------------------------------------------
  // What a conforming client sends
  // ---------------------------------------------------------------------------------------------

  /** A mining setup has three flags, a job declaration one, and a template distribution none. */
  predicate HasUndefined(protocol: Protocol, flags: bv32) {
    match protocol
    case Mining => flags >= 8
    case JobDeclaration => flags >= 2
    case TemplateDistribution => flags >= 1
  }

  function OnlyDefined(protocol: Protocol, flags: bv32): bv32 {
    flags & DefinedFlags(protocol)
  }

  /** Version 2 and no other, defined flags only, and every other field as the default has it. */
  predicate Conforming(spec: SetupSpec, protocol: Protocol) {
    && spec.protocol == protocol
    && spec.minVersion == 2 && spec.maxVersion == 2
    && !HasUndefined(protocol, spec.flags)
    && spec == DEFAULT_SPEC.(protocol := protocol, flags := spec.flags)
  }

  /** The setup departs in the way named, and put right in that alone is what a conforming client sends. */
  predicate Departs(departure: Departure, spec: SetupSpec, protocol: Protocol) {
    match departure
    case EmptyVersionRange =>
      && spec.minVersion > spec.maxVersion
      && Conforming(spec.(minVersion := 2, maxVersion := 2), protocol)
    case UnknownVersion =>
      && spec.minVersion <= spec.maxVersion && !(spec.minVersion <= 2 <= spec.maxVersion)
      && Conforming(spec.(minVersion := 2, maxVersion := 2), protocol)
    case UndefinedFlags =>
      && HasUndefined(protocol, spec.flags)
      && Conforming(spec.(flags := OnlyDefined(protocol, spec.flags)), protocol)
    case _ => Conforming(spec, protocol)
  }

  lemma DefinedOnly(protocol: Protocol, draw: bv32)
    ensures !HasUndefined(protocol, OnlyDefined(protocol, draw))
  {
  }

  /** The undefined bits that are drawn are added; where there are none, the lowest undefined bit is. */
  lemma MiningAdded(flags: bv32, draw: bv32)
    requires flags < 8
    ensures WithUndefined(Mining, flags, draw) == flags | if draw < 8 then 8 else draw & 0xFFFF_FFF8
  {
  }

  lemma DeclarationAdded(flags: bv32, draw: bv32)
    requires flags < 2
    ensures WithUndefined(JobDeclaration, flags, draw) == flags | if draw < 2 then 2 else draw & 0xFFFF_FFFE
  {
  }

  lemma DistributionAdded(draw: bv32)
    ensures WithUndefined(TemplateDistribution, 0, draw) == if draw == 0 then 1 else draw
  {
  }

  lemma SomeUndefined(protocol: Protocol, draw: bv32, undefined: bv32)
    ensures HasUndefined(protocol, WithUndefined(protocol, OnlyDefined(protocol, draw), undefined))
  {
    match protocol {
      case Mining =>
      case JobDeclaration =>
      case TemplateDistribution =>
    }
  }

  /** No version is proposed by asking for 3 to 2; an unknown one is 0, 1, 3 or 65535. */
  lemma VersionsDrawn(protocol: Protocol, d: Draws)
    ensures var x := DepartingSetup(EmptyVersionRange, protocol, d); x.min == 3 && x.max == 2
    ensures var x := DepartingSetup(UnknownVersion, protocol, d);
      && x.min == x.max
      && x.min == match d.version % 4 { case 0 => 0 case 1 => 1 case 2 => 3 case _ => 65535 }
  {
  }

  /** Any defined flags can be drawn, and adding undefined ones to them takes none of them away. */
  lemma FlagsDrawn(protocol: Protocol, flags: bv32, undefined: bv32)
    requires !HasUndefined(protocol, flags)
    ensures OnlyDefined(protocol, flags) == flags
    ensures OnlyDefined(protocol, WithUndefined(protocol, flags, undefined)) == flags
  {
    match protocol {
      case Mining =>
      case JobDeclaration =>
      case TemplateDistribution =>
    }
  }

  lemma SetupConforms(protocol: Protocol, d: Draws)
    ensures Conforming(SpecOf(ConformingSetup(protocol, d)), protocol)
  {
    DefinedOnly(protocol, d.flags);
  }

  lemma VersionsDepart(protocol: Protocol, d: Draws)
    ensures Departs(EmptyVersionRange, SpecOf(DepartingSetup(EmptyVersionRange, protocol, d)), protocol)
    ensures Departs(UnknownVersion, SpecOf(DepartingSetup(UnknownVersion, protocol, d)), protocol)
  {
    hide HasUndefined, OnlyDefined;
    DefinedOnly(protocol, d.flags);
    assert UNKNOWN_VERSIONS[d.version % 4] in UNKNOWN_VERSIONS;
  }

  lemma FlagsDepart(protocol: Protocol, d: Draws)
    ensures Departs(UndefinedFlags, SpecOf(DepartingSetup(UndefinedFlags, protocol, d)), protocol)
  {
    hide HasUndefined, OnlyDefined, WithUndefined, Conforming, SpecOf;
    var x := DepartingSetup(UndefinedFlags, protocol, d);
    var defined := OnlyDefined(protocol, x.flags);
    SomeUndefined(protocol, d.flags, d.undefined);
    FlagsOf(x);
    DefinedOnly(protocol, x.flags);
    DefinedFlagsConform(protocol, x.(flags := defined));
    SpecWithFlags(x, defined);
  }

  lemma FlagsOf(x: Setup)
    ensures SpecOf(x).flags == x.flags
  {
  }

  lemma SpecWithFlags(x: Setup, flags: bv32)
    ensures SpecOf(x).(flags := flags) == SpecOf(x.(flags := flags))
  {
  }

  lemma DefinedFlagsConform(protocol: Protocol, x: Setup)
    requires x.protocol == protocol && x.min == 2 && x.max == 2 && !HasUndefined(protocol, x.flags)
    ensures Conforming(SpecOf(x), protocol)
  {
    hide HasUndefined;
  }

  lemma SetupDeparts(departure: Departure, protocol: Protocol, d: Draws)
    ensures Departs(departure, SpecOf(DepartingSetup(departure, protocol, d)), protocol)
  {
    hide Departs, DepartingSetup;
    match departure {
      case EmptyVersionRange => VersionsDepart(protocol, d);
      case UnknownVersion => VersionsDepart(protocol, d);
      case UndefinedFlags => FlagsDepart(protocol, d);
      case _ => OrderDeparts(departure, protocol, d);
    }
  }

  lemma OrderDeparts(departure: Departure, protocol: Protocol, d: Draws)
    requires departure.AfterRawFrame? || departure.SecondSetup?
    ensures Departs(departure, SpecOf(DepartingSetup(departure, protocol, d)), protocol)
  {
    hide Conforming, SpecOf;
    SetupConforms(protocol, d);
  }

  // ---------------------------------------------------------------------------------------------
  // After any valid program
  // ---------------------------------------------------------------------------------------------

  function After(p: Program, code: seq<Instruction>): Program {
    Program(p.context, p.instructions + code)
  }

  /** The program with a connection opened to a role, and whatever goes on it. */
  function OpenedThen(p: Program, role: nat, code: seq<Instruction>): Program {
    After(p, OpenCode(role, VariableCount(p.instructions)) + code)
  }

  /** What is added to a program compiles to exactly these actions and these notes, one connection and some sessions. */
  ghost predicate Adds(p: Program, q: Program, added: seq<Action>, noted: map<nat, seq<ClientViolation>>,
    sessions: nat) {
    && B.StaticallyValid(q) && Compile(p).Success? && Compile(q).Success?
    && Compile(q).value.actions == Compile(p).value.actions + added
    && Compile(q).value.metadata.violations == Compile(p).value.metadata.violations + noted
    && Lowered(q).connections == Lowered(p).connections + 1 && Lowered(q).sessions == Lowered(p).sessions + sessions
  }

  function Await(y: nat, session: nat, protocol: Protocol, first: bool): Action {
    AwaitSetupResponse(y, session, protocol, first)
  }

  /** The builder after a valid program. */
  lemma BuilderAfter(p: Program) returns (s: B.State)
    requires B.StaticallyValid(p)
    ensures B.FromPrefix(p.context, p.instructions) == B.Appended(s) && Wellformed(s)
    ensures |s.variables| == VariableCount(p.instructions) && |s.scopes| == 1 && s.context == p.context
  {
    hide B.Steps, Wellformed, B.Finalize;
    ValidIffGlobal(p);
    NewWellformed(p.context);
    StepsVariables(B.New(p.context), p.instructions);
    s := B.FromPrefix(p.context, p.instructions).state;
  }

  /** After a valid program, opening a connection to a role there is and going on is taken if the rest is. */
  lemma OpenedAccepted(p: Program, role: nat) returns (s: B.State, t: B.State)
    requires B.StaticallyValid(p) && role < p.context.numRoles
    ensures Wellformed(t) && |t.scopes| == 1 && |t.variables| == VariableCount(p.instructions) + 2
    ensures Has(t, VariableCount(p.instructions) + 1, ConnectionVar)
    ensures B.FromPrefix(p.context, p.instructions + OpenCode(role, VariableCount(p.instructions))) == B.Appended(t)
  {
    hide B.Steps, B.Step, Wellformed, Has, OpenCode, B.StaticallyValid, VariableCount;
    s := BuilderAfter(p);
    OpenTaken(s, role);
    var open := OpenCode(role, |s.variables|);
    t := B.Steps(s, open).state;
    assert Has(t, |s.variables| + 1, [RoleVar, ConnectionVar][1]);
    B.StepsConcat(B.New(p.context), p.instructions, open);
  }

  /** What is taken after that, and leaves every block as it was, makes a valid program. */
  lemma OpenedValid(p: Program, role: nat, code: seq<Instruction>, t: B.State)
    requires B.FromPrefix(p.context, p.instructions + OpenCode(role, VariableCount(p.instructions))) == B.Appended(t)
    requires B.Steps(t, code).Appended? && |B.Steps(t, code).state.scopes| == 1
    ensures B.StaticallyValid(OpenedThen(p, role, code))
  {
    hide B.Steps, OpenCode, B.Finalize, VariableCount;
    var before := p.instructions + OpenCode(role, VariableCount(p.instructions));
    B.StepsConcat(B.New(p.context), before, code);
    assert OpenedThen(p, role, code).instructions == before + code;
    ValidIffGlobal(OpenedThen(p, role, code));
  }

  /** The compiler once a connection is opened after a valid program: the connection is new, with nothing on it. */
  lemma OpenedCompiles(p: Program, role: nat) returns (e: State)
    requires B.StaticallyValid(p) && Compile(p).Success?
    ensures CompileAll(Initial(p.context), p.instructions + OpenCode(role, VariableCount(p.instructions)), 0)
      == Success(e)
    ensures |e.values| == VariableCount(p.instructions) + 2
    ensures e.values[VariableCount(p.instructions) + 1] == ConnectionValue(Lowered(p).connections)
    ensures Lowered(p).connections !in e.sent && Lowered(p).connections !in e.rawFramed
    ensures e.actions == Compile(p).value.actions + [Action.Connect(Lowered(p).connections, role)]
    ensures e.metadata.violations == Compile(p).value.metadata.violations && e.sessions == Lowered(p).sessions
    ensures e.connections == Lowered(p).connections + 1
    ensures forall a | a in e.metadata.violations :: a < |Compile(p).value.actions|
  {
    hide CompileAll, B.StaticallyValid, Typed, VariableCount, OpenCode;
    CompiledRecorded(p);
    var c := Lowered(p);
    H.LoweredLength(p);
    OpenCompiles(c, role, |p.instructions|);
    CompileAllConcat(Initial(p.context), p.instructions, OpenCode(role, |c.values|), 0);
    e := OpenOn(PushValues(c, [RoleValue(role)]), |p.instructions| + 1, role);
    NothingOnNew(c, p.context.numConnections);
  }

  lemma NothingOnNew(c: State, base: nat)
    requires Recorded(c, base)
    ensures c.connections !in c.sent && c.connections !in c.rawFramed
    ensures forall a | a in c.metadata.violations :: a < |c.actions|
  {
    hide IdsRecorded, AwaitRecorded;
  }

  lemma OpenedLowers(p: Program, role: nat, code: seq<Instruction>, e: State, d: State)
    requires CompileAll(Initial(p.context), p.instructions + OpenCode(role, VariableCount(p.instructions)), 0)
      == Success(e)
    requires CompileAll(e, code, |p.instructions| + |OpenCode(role, VariableCount(p.instructions))|) == Success(d)
    ensures var q := OpenedThen(p, role, code);
      Compile(q).Success? && Compile(q).value.actions == d.actions && Compile(q).value.metadata == d.metadata
        && Lowered(q) == d
  {
    hide CompileAll, OpenCode, VariableCount;
    var before := p.instructions + OpenCode(role, VariableCount(p.instructions));
    CompileTwo(Initial(p.context), e, d, before, code, 0);
    assert OpenedThen(p, role, code).instructions == before + code;
  }

  /** One setup on the new connection. */
  lemma OneSetup(p: Program, role: nat, x: Setup)
    requires B.StaticallyValid(p) && Compile(p).Success? && role < p.context.numRoles
    ensures var n, y, session := VariableCount(p.instructions), Lowered(p).connections, Lowered(p).sessions;
      Adds(p, OpenedThen(p, role, SetupCode(n + 2, n + 1, x)),
        [Action.Connect(y, role), SetupFrame(y, SpecOf(x)), Await(y, session, x.protocol, true)], map[], 1)
  {
    hide CompileAll, B.StaticallyValid, B.Steps, Wellformed, Has, OpenCode, SetupCode, VariableCount;
    var n, y, session := VariableCount(p.instructions), Lowered(p).connections, Lowered(p).sessions;
    var code := SetupCode(n + 2, n + 1, x);
    var _, t := OpenedAccepted(p, role);
    SetupTaken(t, n + 1, x);
    OpenedValid(p, role, code, t);
    var e := OpenedCompiles(p, role);
    var d, last := SetupCompiles(e, n + 1, y, x, |p.instructions| + |OpenCode(role, n)|);
    OpenedLowers(p, role, code, e, SetupOn(d, last, y, SpecOf(x), x.protocol));
    FirstSetup(d, last, y, SpecOf(x), x.protocol);
    assert e.metadata.violations + map[] == e.metadata.violations;
  }

  /** A setup on a connection with nothing on it. */
  lemma FirstSetup(c: State, index: nat, y: nat, spec: SetupSpec, protocol: Protocol)
    requires y !in c.sent && y !in c.rawFramed
    ensures var d := SetupOn(c, index, y, spec, protocol);
      && d.actions == c.actions + [SetupFrame(y, spec), Await(y, c.sessions, protocol, true)]
      && d.metadata.violations == c.metadata.violations && d.sessions == c.sessions + 1
        && d.connections == c.connections
      && y in d.sent && y !in d.rawFramed
  {
  }

  /** A setup on a connection with something on it. */
  lemma LaterSetup(c: State, index: nat, y: nat, spec: SetupSpec, protocol: Protocol)
    requires y in c.sent
    ensures var d := SetupOn(c, index, y, spec, protocol);
      && d.actions == c.actions + [SetupFrame(y, spec), Await(y, c.sessions, protocol, false)]
      && d.metadata.violations
        == c.metadata.violations[|c.actions| + 1 := [SetupNotFirst] + if y in c.rawFramed then [RawFrameBefore] else []]
      && d.sessions == c.sessions + 1 && d.connections == c.connections
  {
  }

  /** A raw frame on the new connection, and then a setup. */
  lemma RawThenSetup(p: Program, role: nat, bytes: seq<Byte>, messageType: Byte, x: Setup)
    requires B.StaticallyValid(p) && Compile(p).Success? && role < p.context.numRoles
    ensures var n, y, session := VariableCount(p.instructions), Lowered(p).connections, Lowered(p).sessions;
      Adds(p, OpenedThen(p, role, RawCode(n + 1, n + 2, bytes, messageType, 0) + SetupCode(n + 3, n + 1, x)),
        [Action.Connect(y, role), Send(y, 0, messageType, false, Raw(bytes)), SetupFrame(y, SpecOf(x)),
          Await(y, session, x.protocol, false)],
        map[|Compile(p).value.actions| + 3 := [SetupNotFirst, RawFrameBefore]], 1)
  {
    hide CompileAll, B.StaticallyValid, B.Steps, Wellformed, Has, OpenCode, SetupCode, RawCode, VariableCount;
    var n, y, session := VariableCount(p.instructions), Lowered(p).connections, Lowered(p).sessions;
    var raw, setup := RawCode(n + 1, n + 2, bytes, messageType, 0), SetupCode(n + 3, n + 1, x);
    var _, t := OpenedAccepted(p, role);
    RawTaken(t, n + 1, bytes, messageType, 0);
    var u := B.Steps(t, raw).state;
    StillHas(t, u, n + 1, ConnectionVar);
    SetupTaken(u, n + 1, x);
    B.StepsConcat(t, raw, setup);
    OpenedValid(p, role, raw + setup, t);
    var e := OpenedCompiles(p, role);
    var at := |p.instructions| + |OpenCode(role, n)|;
    RawCompiles(e, n + 1, y, bytes, messageType, 0, at);
    var f := FrameOn(PushValues(e, [BytesValue(bytes)]), at + 1, y, 0, messageType, bytes);
    var d, last := SetupCompiles(f, n + 1, y, x, at + |raw|);
    var g := SetupOn(d, last, y, SpecOf(x), x.protocol);
    CompileTwo(e, f, g, raw, setup, at);
    OpenedLowers(p, role, raw + setup, e, g);
    LaterSetup(d, last, y, SpecOf(x), x.protocol);
    var before := e.metadata.violations;
    assert [SetupNotFirst] + [RawFrameBefore] == [SetupNotFirst, RawFrameBefore];
    NotedAfter(before, |Compile(p).value.actions| + 3, [SetupNotFirst, RawFrameBefore]);
  }

  lemma NotedAfter(before: map<nat, seq<ClientViolation>>, k: nat, notes: seq<ClientViolation>)
    ensures before[k := notes] == before + map[k := notes]
  {
  }

  lemma TwoTaken(p: Program, role: nat, x: Setup, again: Setup)
    requires B.StaticallyValid(p) && Compile(p).Success? && role < p.context.numRoles
    ensures var n := VariableCount(p.instructions);
      B.StaticallyValid(OpenedThen(p, role, SetupCode(n + 2, n + 1, x) + SetupCode(n + 2 + x.Count(), n + 1, again)))
  {
    hide CompileAll, B.StaticallyValid, B.Steps, Wellformed, Has, OpenCode, SetupCode, VariableCount, OpenedThen;
    var n := VariableCount(p.instructions);
    var one, two := SetupCode(n + 2, n + 1, x), SetupCode(n + 2 + x.Count(), n + 1, again);
    var _, t := OpenedAccepted(p, role);
    SetupTaken(t, n + 1, x);
    var u := B.Steps(t, one).state;
    StillHas(t, u, n + 1, ConnectionVar);
    SetupTaken(u, n + 1, again);
    B.StepsConcat(t, one, two);
    OpenedValid(p, role, one + two, t);
  }

  /** Two setups on the new connection. */
  lemma TwoSetups(p: Program, role: nat, x: Setup, again: Setup)
    requires B.StaticallyValid(p) && Compile(p).Success? && role < p.context.numRoles
    ensures var n, y, session := VariableCount(p.instructions), Lowered(p).connections, Lowered(p).sessions;
      Adds(p, OpenedThen(p, role, SetupCode(n + 2, n + 1, x) + SetupCode(n + 2 + x.Count(), n + 1, again)),
        [Action.Connect(y, role), SetupFrame(y, SpecOf(x)), Await(y, session, x.protocol, true),
         SetupFrame(y, SpecOf(again)), Await(y, session + 1, again.protocol, false)],
        map[|Compile(p).value.actions| + 4 := [SetupNotFirst]], 2)
  {
    hide CompileAll, B.StaticallyValid, B.Steps, Wellformed, Has, OpenCode, SetupCode, VariableCount;
    var n, y, session := VariableCount(p.instructions), Lowered(p).connections, Lowered(p).sessions;
    var one, two := SetupCode(n + 2, n + 1, x), SetupCode(n + 2 + x.Count(), n + 1, again);
    TwoTaken(p, role, x, again);
    var e := OpenedCompiles(p, role);
    var at := |p.instructions| + |OpenCode(role, n)|;
    var d, last := SetupCompiles(e, n + 1, y, x, at);
    var f := SetupOn(d, last, y, SpecOf(x), x.protocol);
    FirstSetup(d, last, y, SpecOf(x), x.protocol);
    SetupValues(d, last, y, SpecOf(x), x.protocol);
    var g, last' := SetupCompiles(f, n + 1, y, again, at + |one|);
    var h := SetupOn(g, last', y, SpecOf(again), again.protocol);
    CompileTwo(e, f, h, one, two, at);
    OpenedLowers(p, role, one + two, e, h);
    LaterSetup(g, last', y, SpecOf(again), again.protocol);
    assert [SetupNotFirst] + [] == [SetupNotFirst];
    NotedAfter(e.metadata.violations, |Compile(p).value.actions| + 4, [SetupNotFirst]);
    Joined(Compile(p).value.actions, Action.Connect(y, role),
      [SetupFrame(y, SpecOf(x)), Await(y, session, x.protocol, true)],
      [SetupFrame(y, SpecOf(again)), Await(y, session + 1, again.protocol, false)]);
  }

  lemma Joined(before: seq<Action>, a: Action, b: seq<Action>, c: seq<Action>)
    requires |b| == 2 && |c| == 2
    ensures before + [a] + b + c == before + [a, b[0], b[1], c[0], c[1]]
  {
  }

  lemma SetupValues(c: State, index: nat, y: nat, spec: SetupSpec, protocol: Protocol)
    ensures SetupOn(c, index, y, spec, protocol).values == c.values + [AttemptValue(c.sessions, y)]
  {
  }

  // ---------------------------------------------------------------------------------------------
  // The generators' promises
  // ---------------------------------------------------------------------------------------------

  /**
   * After any valid program and for every draw, the conforming generator opens a new connection and sends one
   * setup on it: version 2 and no other, only flags the subprotocol defines, first on its connection, and
   * noted for nothing.
   */
  lemma ConformingFragment(p: Program, role: nat, protocol: Protocol, d: Draws)
    requires B.StaticallyValid(p) && Compile(p).Success? && role < p.context.numRoles
    ensures var n, y, session := VariableCount(p.instructions), Lowered(p).connections, Lowered(p).sessions;
      var spec := SpecOf(ConformingSetup(protocol, d));
      && Conforming(spec, protocol)
      && Adds(p, OpenedThen(p, role, SetupCode(n + 2, n + 1, ConformingSetup(protocol, d))),
           [Action.Connect(y, role), SetupFrame(y, spec), Await(y, session, protocol, true)], map[], 1)
  {
    hide Adds, Conforming, SpecOf, OpenedThen, SetupCode, VariableCount, Lowered, B.StaticallyValid, Compile;
    SetupConforms(protocol, d);
    OneSetup(p, role, ConformingSetup(protocol, d));
  }

  /** The actions a departing fragment adds. */
  function DepartingActions(departure: Departure, role: nat, y: nat, session: nat, spec: SetupSpec,
    messageType: Byte): seq<Action> {
    match departure
    case AfterRawFrame =>
      [Action.Connect(y, role), Send(y, 0, messageType, false, Raw([0, 0, 0, 0, 0, 0])), SetupFrame(y, spec),
        Await(y, session, spec.protocol, false)]
    case SecondSetup =>
      [Action.Connect(y, role), SetupFrame(y, spec), Await(y, session, spec.protocol, true),
       SetupFrame(y, spec), Await(y, session + 1, spec.protocol, false)]
    case _ => [Action.Connect(y, role), SetupFrame(y, spec), Await(y, session, spec.protocol, true)]
  }

  /** What is noted of a departing fragment, its actions coming after `n` others. */
  function DepartingNotes(departure: Departure, n: nat): map<nat, seq<ClientViolation>> {
    match departure
    case AfterRawFrame => map[n + 3 := [SetupNotFirst, RawFrameBefore]]
    case SecondSetup => map[n + 4 := [SetupNotFirst]]
    case _ => map[]
  }

  /**
   * After any valid program and for every draw, each adversarial variant departs in exactly the way it names: a
   * setup that departs in one field is first and noted for nothing, and one that departs in order is what a
   * conforming client would send, noted for just what came before it.
   */
  lemma AdversarialFragment(p: Program, role: nat, departure: Departure, protocol: Protocol, d: Draws)
    requires B.StaticallyValid(p) && Compile(p).Success? && role < p.context.numRoles
    ensures var n, y, session := VariableCount(p.instructions), Lowered(p).connections, Lowered(p).sessions;
      var spec := SpecOf(DepartingSetup(departure, protocol, d));
      && spec.protocol == protocol && Departs(departure, spec, protocol)
      && Adds(p, OpenedThen(p, role, DepartingCode(departure, n + 2, n + 1, protocol, d)),
           DepartingActions(departure, role, y, session, spec, d.messageType),
           DepartingNotes(departure, |Compile(p).value.actions|), if departure.SecondSetup? then 2 else 1)
  {
    hide Adds, Departs, SetupCode, RawCode, VariableCount, Lowered, B.StaticallyValid, Compile, OpenedThen;
    var x := DepartingSetup(departure, protocol, d);
    SetupDeparts(departure, protocol, d);
    match departure {
      case AfterRawFrame => RawThenSetup(p, role, SIX_ZEROES, d.messageType, x);
      case SecondSetup => TwoSetups(p, role, x, x.(endpoint := d.endpointAgain, device := d.deviceAgain));
      case _ => OneSetup(p, role, x);
    }
  }

  // ---------------------------------------------------------------------------------------------
  // The generators
  // ---------------------------------------------------------------------------------------------

  datatype ConnectionChoice = FreshOne | Reuse | Either

  /** The connection in scope a fragment goes on, if it is to reuse one and there is one. */
  function Reused(s: B.State, choice: ConnectionChoice, d: Draws): Option<nat> {
    if choice.Reuse? || (choice.Either? && d.coin) then B.Chosen(B.VisibleOf(s, ConnectionVar, 0), d.pick) else None
  }

  /** A connection is reused exactly if it may be, the draw is for it where it is, and there is one. */
  lemma ReusedTold(s: B.State, choice: ConnectionChoice, d: Draws)
    ensures Reused(s, choice, d).Some? <==>
            (choice == Reuse || (choice == Either && d.coin)) && exists v: nat :: Has(s, v, ConnectionVar)
    ensures Reused(s, choice, d).Some? ==> Has(s, Reused(s, choice, d).value, ConnectionVar)
  {
    hide B.State.Visible, Has;
    var found := VisibleConnections(s);
    if found != [] {
      assert found[0] in found;
    }
  }

  /** Every connection in scope can be the one reused. */
  lemma AnyIsReused(s: B.State, d: Draws, v: nat) returns (pick: nat)
    requires Has(s, v, ConnectionVar)
    ensures Reused(s, Reuse, d.(pick := pick)) == Some(v)
  {
    hide B.State.Visible, Has, B.Chosen;
    var found := VisibleConnections(s);
    pick := B.ChosenReaches(found, v);
  }

  lemma VisibleConnections(s: B.State) returns (found: seq<nat>)
    ensures found == B.VisibleOf(s, ConnectionVar, 0)
    ensures forall v: nat :: v in found <==> Has(s, v, ConnectionVar)
  {
    hide B.VisibleOf;
    found := B.VisibleOf(s, ConnectionVar, 0);
    forall v: nat ensures v in found <==> Has(s, v, ConnectionVar) {
      HasIsVisible(s, v);
    }
  }

  lemma HasIsVisible(s: B.State, v: nat)
    ensures Has(s, v, ConnectionVar) <==> v < |s.variables| && s.Visible(v) && s.variables[v].kind == ConnectionVar
  {
  }

  function ConnectionCode(s: B.State, role: nat, choice: ConnectionChoice, d: Draws): seq<Instruction> {
    if Reused(s, choice, d).Some? then [] else OpenCode(role, |s.variables|)
  }

  function ConnectionVariable(s: B.State, choice: ConnectionChoice, d: Draws): nat {
    if Reused(s, choice, d).Some? then Reused(s, choice, d).value else |s.variables| + 1
  }

  /** How many variables there are once the fragment has its connection. */
  function CountWithConnection(s: B.State, choice: ConnectionChoice, d: Draws): nat {
    |s.variables| + if Reused(s, choice, d).Some? then 0 else 2
  }

  function ConformingCode(s: B.State, role: nat, choice: ConnectionChoice, protocol: Protocol,
    d: Draws): seq<Instruction> {
    ConnectionCode(s, role, choice, d)
    + SetupCode(CountWithConnection(s, choice, d), ConnectionVariable(s, choice, d), ConformingSetup(protocol, d))
  }

  function AdversarialCode(s: B.State, role: nat, departure: Departure, protocol: Protocol,
    d: Draws): seq<Instruction> {
    OpenCode(role, |s.variables|) + DepartingCode(departure, |s.variables| + 2, |s.variables| + 1, protocol, d)
  }

  /** Fewer than 64 bytes, and an extension with the channel bit clear. */
  function RawFragment(s: B.State, role: nat, d: Draws): seq<Instruction> {
    ConnectionCode(s, role, Reuse, d)
    + RawCode(ConnectionVariable(s, Reuse, d), CountWithConnection(s, Reuse, d), d.bytes[..|d.bytes| % 64],
      d.messageType,
        if d.coin then 1 + d.extension % 0x7FFF else 0)
  }

  /** The builder has a connection to go on exactly when one is reused or the context has the role. */
  lemma ConnectionTaken(s: B.State, role: nat, choice: ConnectionChoice, d: Draws)
    requires Wellformed(s)
    ensures var r := B.Steps(s, ConnectionCode(s, role, choice, d));
      if Reused(s, choice, d).Some? || role < s.context.numRoles then
        && r.Appended? && Wellformed(r.state) && r.state.scopes == s.scopes && r.state.context == s.context
        && |r.state.variables| == CountWithConnection(s, choice, d)
        && Has(r.state, ConnectionVariable(s, choice, d), ConnectionVar)
      else r == B.Rejected(RoleNotFound(role), s)
  {
    hide B.Steps, B.Step, Wellformed, OpenCode, B.VisibleOf;
    if Reused(s, choice, d).Some? {
      NoSteps(s);
    } else {
      OpenTaken(s, role);
      if role < s.context.numRoles {
        assert Has(B.Steps(s, OpenCode(role, |s.variables|)).state, |s.variables| + 1, [RoleVar, ConnectionVar][1]);
      }
    }
  }

  /** A balanced fragment, and the one way it can be refused: before anything is appended, for a role there is not. */
  ghost predicate Fragment(s: B.State, role: nat, reused: bool, code: seq<Instruction>) {
    var r := B.Steps(s, code);
    if reused || role < s.context.numRoles then r.Appended? && Wellformed(r.state) && r.state.scopes == s.scopes
    else r == B.Rejected(RoleNotFound(role), s)
  }

  /**
   * In any block of any program, on whichever connection is chosen and for every draw, the conforming fragment is
   * taken.
   */
  lemma ConformingTaken(s: B.State, role: nat, choice: ConnectionChoice, protocol: Protocol, d: Draws)
    requires Wellformed(s)
    ensures Fragment(s, role, Reused(s, choice, d).Some?, ConformingCode(s, role, choice, protocol, d))
  {
    hide B.Steps, B.Step, Wellformed, Has, ConnectionCode, SetupCode, Reused, ConnectionVariable, CountWithConnection;
    ConnectionTaken(s, role, choice, d);
    var x, connection := ConformingSetup(protocol, d), ConnectionVariable(s, choice, d);
    var open := B.Steps(s, ConnectionCode(s, role, choice, d));
    B.StepsConcat(s, ConnectionCode(s, role, choice, d), SetupCode(CountWithConnection(s, choice, d), connection, x));
    if open.Appended? {
      SetupTaken(open.state, connection, x);
    }
  }

  lemma RawFragmentTaken(s: B.State, role: nat, d: Draws)
    requires Wellformed(s)
    ensures Fragment(s, role, Reused(s, Reuse, d).Some?, RawFragment(s, role, d))
  {
    hide B.Steps, B.Step, Wellformed, Has, ConnectionCode, RawCode, Reused, ConnectionVariable, CountWithConnection;
    ConnectionTaken(s, role, Reuse, d);
    var n, connection := CountWithConnection(s, Reuse, d), ConnectionVariable(s, Reuse, d);
    var extension: Word16 := if d.coin then 1 + d.extension % 0x7FFF else 0;
    var open := B.Steps(s, ConnectionCode(s, role, Reuse, d));
    B.StepsConcat(s, ConnectionCode(s, role, Reuse, d),
      RawCode(connection, n, d.bytes[..|d.bytes| % 64], d.messageType, extension));
    if open.Appended? {
      RawTaken(open.state, connection, d.bytes[..|d.bytes| % 64], d.messageType, extension);
    }
  }

  /** The raw frame carries fewer than 64 bytes, on extension zero or one whose number has no channel bit. */
  lemma RawFragmentBounded(s: B.State, role: nat, d: Draws)
    ensures var code, n := RawFragment(s, role, d), |RawFragment(s, role, d)|;
      && n >= 2 && code[n - 2].operation.LoadBytes? && |code[n - 2].operation.bytes| < 64
      && code[n - 1].operation.SendRawFrame? && code[n - 1].operation.messageType == d.messageType
      && code[n - 1].operation.extensionType < 0x8000
      && (code[n - 1].operation.extensionType == 0 <==> !d.coin)
      && code[n - 1].inputs == [ConnectionVariable(s, Reuse, d), CountWithConnection(s, Reuse, d)]
  {
    hide ConnectionCode;
    assert Literals([LoadBytes(d.bytes[..|d.bytes| % 64])])[0].operation.LoadBytes?;
  }

  /** Any such frame can be drawn. */
  lemma RawDrawn(bytes: seq<Byte>, messageType: Byte, extension: Word16, d: Draws) returns (e: Draws)
    requires |bytes| < 64 && extension < 0x8000
    ensures e.bytes[..|e.bytes| % 64] == bytes && e.messageType == messageType
    ensures (if e.coin then 1 + e.extension % 0x7FFF else 0) == extension
  {
    e := d.(bytes := bytes, messageType := messageType, coin := extension != 0,
      extension := if extension > 0 then extension - 1 else 0);
    assert bytes[..|bytes|] == bytes;
  }

  /** Whatever follows the connection of a departing fragment is taken on any connection in scope. */
  lemma DepartingTaken(t: B.State, departure: Departure, connection: nat, protocol: Protocol, d: Draws)
    requires Wellformed(t) && Has(t, connection, ConnectionVar)
    ensures var r := B.Steps(t, DepartingCode(departure, |t.variables|, connection, protocol, d));
      r.Appended? && Wellformed(r.state) && r.state.scopes == t.scopes
  {
    hide B.Steps, B.Step, Wellformed, Has, SetupCode, RawCode, DepartingSetup;
    var n, x := |t.variables|, DepartingSetup(departure, protocol, d);
    match departure {
      case AfterRawFrame =>
        RawTaken(t, connection, SIX_ZEROES, d.messageType, 0);
        var raw := RawCode(connection, n, SIX_ZEROES, d.messageType, 0);
        var u := B.Steps(t, raw).state;
        StillHas(t, u, connection, ConnectionVar);
        SetupTaken(u, connection, x);
        B.StepsConcat(t, raw, SetupCode(n + 1, connection, x));
      case SecondSetup =>
        var again := x.(endpoint := d.endpointAgain, device := d.deviceAgain);
        SetupTaken(t, connection, x);
        var u := B.Steps(t, SetupCode(n, connection, x)).state;
        StillHas(t, u, connection, ConnectionVar);
        SetupTaken(u, connection, again);
        B.StepsConcat(t, SetupCode(n, connection, x), SetupCode(n + x.Count(), connection, again));
      case _ => SetupTaken(t, connection, x);
    }
  }

  lemma AdversarialTaken(s: B.State, role: nat, departure: Departure, protocol: Protocol, d: Draws)
    requires Wellformed(s)
    ensures Fragment(s, role, false, AdversarialCode(s, role, departure, protocol, d))
  {
    hide B.Steps, B.Step, Wellformed, Has, OpenCode, DepartingCode, Reused;
    assert Reused(s, FreshOne, d).None? by { NothingReused(s, d); }
    ConnectionTaken(s, role, FreshOne, d);
    var open := B.Steps(s, OpenCode(role, |s.variables|));
    B.StepsConcat(s, OpenCode(role, |s.variables|),
      DepartingCode(departure, |s.variables| + 2, |s.variables| + 1, protocol, d));
    if open.Appended? {
      DepartingTaken(open.state, departure, |s.variables| + 1, protocol, d);
    }
  }

  lemma NothingReused(s: B.State, d: Draws)
    ensures Reused(s, FreshOne, d).None?
  {
  }

  /** A fragment taken at a point outside every block of a valid program can be inserted there. */
  lemma FragmentFits(p: Program, at: nat, role: nat, reused: bool, code: seq<Instruction>)
    requires B.StaticallyValid(p) && at <= |p.instructions| && I.Depth(p.instructions[..at]) == 0
    requires reused || role < p.context.numRoles
    requires B.FromPrefix(p.context, p.instructions[..at]).Appended?
    requires Fragment(B.FromPrefix(p.context, p.instructions[..at]).state, role, reused, code)
    ensures I.Fits(p, at, code) && B.StaticallyValid(I.Inserted(p, at, code))
  {
    hide B.Steps, Wellformed, B.StaticallyValid, I.Depth, I.Inserted, Lexical;
    var prefix := p.instructions[..at];
    I.PrefixAccepted(p, at);
    Reached(p.context, prefix);
    I.DepthIsBuilderDepth(p.context, prefix);
    B.StepsConcat(B.New(p.context), prefix, code);
    I.InsertedValid(p, at, code);
  }

  /** What the builder is left in, and what it said, are what appending the code does. */
  ghost predicate Follows(s: B.State, code: seq<Instruction>, t: B.State, reply: B.Reply) {
    match B.Steps(s, code)
    case Appended(last) => t == last && reply.Fresh?
    case Rejected(error, left) => t == left && reply == B.Refused(error)
    case Panicked => reply == B.Panic
  }

  lemma FollowsOn(s: B.State, a: seq<Instruction>, b: seq<Instruction>, t: B.State, reply: B.Reply)
    requires Follows(s, a, t, reply)
    ensures !reply.Fresh? ==> Follows(s, a + b, t, reply)
    ensures reply.Fresh? ==> forall u, answer :: Follows(t, b, u, answer) ==> Follows(s, a + b, u, answer)
  {
    hide B.Steps;
    B.StepsConcat(s, a, b);
  }

  /** Find the fragment's connection, opening one if none is to be reused. */
  method Connection(builder: B.ProgramBuilder, role: nat, choice: ConnectionChoice, d: Draws)
    returns (reply: B.Reply, connection: nat)
    requires Wellformed(builder.View())
    modifies builder
    ensures Follows(old(builder.View()), ConnectionCode(old(builder.View()), role, choice, d), builder.View(), reply)
    ensures connection == ConnectionVariable(old(builder.View()), choice, d)
    ensures reply.Fresh? ==> |builder.variables| == CountWithConnection(old(builder.View()), choice, d)
  {
    hide B.Steps, B.Step, Wellformed, Has, OpenCode, B.VisibleOf;
    ghost var s := builder.View();
    ConnectionTaken(s, role, choice, d);
    NoSteps(s);
    var reuse := None;
    if choice.Reuse? || (choice.Either? && d.coin) {
      reuse := builder.GetRandomVariable(ConnectionVar, d.pick);
    }
    if reuse.Some? {
      return B.Fresh([]), reuse.value;
    }
    connection := |builder.variables| + 1;
    reply := builder.AppendEach(OpenCode(role, |builder.variables|));
  }

  class SetupConnectionGenerator {
    const role: nat
    const protocol: Option<Protocol>
    const connection: ConnectionChoice

    constructor (role: nat, protocol: Option<Protocol>, connection: ConnectionChoice)
      ensures this.role == role && this.protocol == protocol && this.connection == connection
    {
      this.role, this.protocol, this.connection := role, protocol, connection;
    }

    /** Set up a connection as a conforming client would; `any` is the protocol drawn where none is asked for. */
    method Generate(builder: B.ProgramBuilder, any: Protocol, d: Draws) returns (reply: B.Reply)
      requires Wellformed(builder.View())
      modifies builder
      ensures var chosen := if protocol.Some? then protocol.value else any;
        Follows(old(builder.View()), ConformingCode(old(builder.View()), role, connection, chosen, d), builder.View(),
          reply)
    {
      hide B.Steps, B.Step, Wellformed, SetupCode, Follows, ConnectionCode, Reused, ConnectionVariable,
        CountWithConnection;
      var chosen := if protocol.Some? then protocol.value else any;
      ghost var s := builder.View();
      var begun, variable := Connection(builder, role, connection, d);
      var code := SetupCode(CountWithConnection(s, connection, d), variable, ConformingSetup(chosen, d));
      FollowsOn(s, ConnectionCode(s, role, connection, d), code, builder.View(), begun);
      if !begun.Fresh? {
        return begun;
      }
      ghost var t := builder.View();
      reply := builder.AppendEach(SetupCode(|builder.variables|, variable, ConformingSetup(chosen, d)));
      assert Follows(t, code, builder.View(), reply) by { FollowsDef(t, code, builder.View(), reply); }
    }
  }

  lemma FollowsDef(s: B.State, code: seq<Instruction>, t: B.State, reply: B.Reply)
    requires match B.Steps(s, code)
             case Appended(last) => t == last && reply.Fresh?
             case Rejected(error, left) => t == left && reply == B.Refused(error)
             case Panicked => reply == B.Panic
    ensures Follows(s, code, t, reply)
  {
  }

  class AdversarialSetupGenerator {
    const role: nat
    const protocol: Option<Protocol>
    const departure: Departure

    constructor (role: nat, protocol: Option<Protocol>, departure: Departure)
      ensures this.role == role && this.protocol == protocol && this.departure == departure
    {
      this.role, this.protocol, this.departure := role, protocol, departure;
    }

    method Generate(builder: B.ProgramBuilder, any: Protocol, d: Draws) returns (reply: B.Reply)
      requires Wellformed(builder.View())
      modifies builder
      ensures var chosen := if protocol.Some? then protocol.value else any;
        Follows(old(builder.View()), AdversarialCode(old(builder.View()), role, departure, chosen, d), builder.View(),
          reply)
    {
      hide B.Steps, B.Step, Wellformed, DepartingCode, Follows, OpenCode;
      var chosen := if protocol.Some? then protocol.value else any;
      ghost var s := builder.View();
      var begun, variable := Connection(builder, role, FreshOne, d);
      FollowsOn(s, OpenCode(role, |s.variables|), DepartingCode(departure, |s.variables| + 2, variable, chosen, d),
        builder.View(), begun);
      if !begun.Fresh? {
        return begun;
      }
      ghost var t := builder.View();
      var code := DepartingCode(departure, |builder.variables|, variable, chosen, d);
      reply := builder.AppendEach(code);
      assert Follows(t, code, builder.View(), reply) by { FollowsDef(t, code, builder.View(), reply); }
    }
  }

  class RawFrameGenerator {
    const role: nat

    constructor (role: nat)
      ensures this.role == role
    {
      this.role := role;
    }

    /** Send arbitrary bytes on a connection already in scope, opening one only if there is none. */
    method Generate(builder: B.ProgramBuilder, d: Draws) returns (reply: B.Reply)
      requires Wellformed(builder.View())
      modifies builder
      ensures Follows(old(builder.View()), RawFragment(old(builder.View()), role, d), builder.View(), reply)
    {
      hide B.Steps, B.Step, Wellformed, RawCode, Follows, ConnectionCode, Reused, ConnectionVariable,
        CountWithConnection;
      ghost var s := builder.View();
      var begun, variable := Connection(builder, role, Reuse, d);
      var bytes := d.bytes[..|d.bytes| % 64];
      var extension: Word16 := if d.coin then 1 + d.extension % 0x7FFF else 0;
      FollowsOn(s, ConnectionCode(s, role, Reuse, d),
        RawCode(variable, CountWithConnection(s, Reuse, d), bytes, d.messageType, extension), builder.View(), begun);
      if !begun.Fresh? {
        return begun;
      }
      ghost var t := builder.View();
      var code := RawCode(variable, |builder.variables|, bytes, d.messageType, extension);
      reply := builder.AppendEach(code);
      assert Follows(t, code, builder.View(), reply) by { FollowsDef(t, code, builder.View(), reply); }
    }
  }
}
