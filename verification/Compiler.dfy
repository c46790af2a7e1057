/** Lowering a program to the flat actions that carry it out. */
module Compiler {
  import opened Wrappers
  import opened Ir

  /** The fields of a setup that a program can write, with no bytes chosen yet. */
  datatype SetupSpec = SetupSpec(
    protocol: Protocol,
    minVersion: Word16,
    maxVersion: Word16,
    flags: bv32,
    endpointHost: Text,
    endpointPort: Word16,
    vendor: Text,
    hardwareVersion: Text,
    firmware: Text,
    deviceId: Text)

  // The text "0.0.0.0" and the text "stratamoto".
  const DEFAULT_HOST: Text := [48, 46, 48, 46, 48, 46, 48]
  const DEFAULT_VENDOR: Text := [115, 116, 114, 97, 116, 97, 109, 111, 116, 111]

  const DEFAULT_SPEC: SetupSpec := SetupSpec(Mining, 2, 2, 0, DEFAULT_HOST, 0, DEFAULT_VENDOR, [], [], [])

  datatype ClientViolation = SetupNotFirst | RawFrameBefore

  /** What a frame carries: bytes of the program's choosing, or the encoding of a setup. */
  datatype Payload = Raw(bytes: seq<Byte>) | Encoded(spec: SetupSpec)

  datatype Action =
    | Connect(connection: nat, role: nat)
    | Send(connection: nat, extensionType: Word16, messageType: Byte, channelMsg: bool, payload: Payload)
    | AwaitSetupResponse(connection: nat, session: nat, protocol: Protocol, firstOnConnection: bool)
    | EnterOnSetupSuccess(session: nat, end: nat)
    | ExitBlock
    | AdvanceTime(duration: nat)
    | Probe

  datatype Metadata = Metadata(
    actionInstructions: seq<nat>,
    sessionVariables: map<nat, nat>,
    connectionVariables: map<nat, nat>,
    sessionSetups: map<nat, SetupSpec>,
    violations: map<nat, seq<ClientViolation>>)

  datatype CompiledProgram = CompiledProgram(context: ProgramContext, actions: seq<Action>, metadata: Metadata)

  /** `ShortInputs` is the panic of reading an input an instruction does not have. */
  datatype CompilerError =
    | MissingValue(index: nat)
    | UnexpectedValue(index: nat)
    | StringTooLong(index: nat)
    | UnbalancedBlock
    | ShortInputs

  datatype Value =
    | NopValue
    | RoleValue(role: nat)
    | ConnectionValue(connection: nat)
    | AttemptValue(session: nat, connection: nat)
    | SessionValue
    | VersionValue(version: Word16)
    | FlagsValue(flags: bv32)
    | PortValue(port: Word16)
    | StrValue(text: Text)
    | BytesValue(bytes: seq<Byte>)
    | DurationValue(duration: nat)
    | SetupValue(spec: SetupSpec)

  // The end of a success block whose exit is not compiled yet.
  const PENDING: nat := 0xFFFF_FFFF_FFFF_FFFF

  const MESSAGE_TYPE_SETUP_CONNECTION: Byte := 0x00

  const MAX_TEXT: nat := 255

  predicate TextFits(t: Text) {
    |t| <= MAX_TEXT
  }

  /** Whether the setup encodes: it does unless one of its strings is longer than the field allows. */
  predicate Encodable(spec: SetupSpec) {
    && TextFits(spec.endpointHost) && TextFits(spec.vendor) && TextFits(spec.hardwareVersion)
    && TextFits(spec.firmware) && TextFits(spec.deviceId)
  }

  // ---------------------------------------------------------------------------------------------
  // Reading inputs
  // ---------------------------------------------------------------------------------------------

  type Lookup<+T> = Result<T, CompilerError>

  function ValueAt(values: seq<Value>, inputs: seq<nat>, k: nat): Lookup<Value> {
    if k >= |inputs| then Failure(ShortInputs)
    else if inputs[k] >= |values| then Failure(MissingValue(inputs[k]))
    else Success(values[inputs[k]])
  }

  function Wrong(inputs: seq<nat>, k: nat): CompilerError {
    if k < |inputs| then UnexpectedValue(inputs[k]) else ShortInputs
  }

  function RoleAt(values: seq<Value>, inputs: seq<nat>, k: nat): Lookup<nat> {
    var v :- ValueAt(values, inputs, k);
    if v.RoleValue? then Success(v.role) else Failure(Wrong(inputs, k))
  }

  function ConnectionAt(values: seq<Value>, inputs: seq<nat>, k: nat): Lookup<nat> {
    var v :- ValueAt(values, inputs, k);
    if v.ConnectionValue? then Success(v.connection) else Failure(Wrong(inputs, k))
  }

  function VersionAt(values: seq<Value>, inputs: seq<nat>, k: nat): Lookup<Word16> {
    var v :- ValueAt(values, inputs, k);
    if v.VersionValue? then Success(v.version) else Failure(Wrong(inputs, k))
  }

  function FlagsAt(values: seq<Value>, inputs: seq<nat>, k: nat): Lookup<bv32> {
    var v :- ValueAt(values, inputs, k);
    if v.FlagsValue? then Success(v.flags) else Failure(Wrong(inputs, k))
  }

  function PortAt(values: seq<Value>, inputs: seq<nat>, k: nat): Lookup<Word16> {
    var v :- ValueAt(values, inputs, k);
    if v.PortValue? then Success(v.port) else Failure(Wrong(inputs, k))
  }

  function StringAt(values: seq<Value>, inputs: seq<nat>, k: nat): Lookup<Text> {
    var v :- ValueAt(values, inputs, k);
    if v.StrValue? then Success(v.text) else Failure(Wrong(inputs, k))
  }

  function BytesAt(values: seq<Value>, inputs: seq<nat>, k: nat): Lookup<seq<Byte>> {
    var v :- ValueAt(values, inputs, k);
    if v.BytesValue? then Success(v.bytes) else Failure(Wrong(inputs, k))
  }

  function DurationAt(values: seq<Value>, inputs: seq<nat>, k: nat): Lookup<nat> {
    var v :- ValueAt(values, inputs, k);
    if v.DurationValue? then Success(v.duration) else Failure(Wrong(inputs, k))
  }

  function AttemptAt(values: seq<Value>, inputs: seq<nat>, k: nat): Lookup<nat> {
    var v :- ValueAt(values, inputs, k);
    if v.AttemptValue? then Success(v.session) else Failure(Wrong(inputs, k))
  }

  function SetupAt(values: seq<Value>, inputs: seq<nat>, k: nat): Lookup<SetupSpec> {
    var v :- ValueAt(values, inputs, k);
    if v.SetupValue? then Success(v.spec) else Failure(Wrong(inputs, k))
  }

  // ---------------------------------------------------------------------------------------------
  // One instruction: what it asks for, then what that does
  // ---------------------------------------------------------------------------------------------

  /** What an instruction asks of the compiler, its inputs read. */
  datatype Plan =
    | Define(values: seq<Value>)
    | Edit(at: nat, spec: SetupSpec)
    | Open(role: nat)
    | Setup(connection: nat, spec: SetupSpec, protocol: Protocol)
    | Enter(session: nat)
    | Exit
    | Frame(connection: nat, extensionType: Word16, messageType: Byte, bytes: seq<Byte>)
    | Emit(action: Action)

  function Nops(n: nat): (r: seq<Value>)
    ensures |r| == n
  {
    seq(n, _ => NopValue)
  }

  function Lower(values: seq<Value>, i: Instruction): Lookup<Plan> {
    match i.operation
    case Nop(outputs, inner) => Success(Define(Nops(outputs + inner)))
    case LoadRole(v) => Success(Define([RoleValue(v)]))
    case LoadConnection(v) => Success(Define([ConnectionValue(v)]))
    case LoadVersion(v) => Success(Define([VersionValue(v)]))
    case LoadFlags(v) => Success(Define([FlagsValue(v)]))
    case LoadPort(v) => Success(Define([PortValue(v)]))
    case LoadStr(v) => Success(Define([StrValue(v)]))
    case LoadBytes(v) => Success(Define([BytesValue(v)]))
    case LoadDuration(v) => Success(Define([DurationValue(v)]))
    case Connect =>
      var role :- RoleAt(values, i.inputs, 0);
      Success(Open(role))
    case BeginBuildSetupConnection => Success(Define([SetupValue(DEFAULT_SPEC)]))
    case SetVersions =>
      var min :- VersionAt(values, i.inputs, 1);
      var max :- VersionAt(values, i.inputs, 2);
      var spec :- SetupAt(values, i.inputs, 0);
      Success(Edit(i.inputs[0], spec.(minVersion := min, maxVersion := max)))
    case SetFlags =>
      var flags :- FlagsAt(values, i.inputs, 1);
      var spec :- SetupAt(values, i.inputs, 0);
      Success(Edit(i.inputs[0], spec.(flags := flags)))
    case SetEndpoint =>
      var host :- StringAt(values, i.inputs, 1);
      var port :- PortAt(values, i.inputs, 2);
      var spec :- SetupAt(values, i.inputs, 0);
      Success(Edit(i.inputs[0], spec.(endpointHost := host, endpointPort := port)))
    case SetDeviceInfo =>
      var vendor :- StringAt(values, i.inputs, 1);
      var hardware :- StringAt(values, i.inputs, 2);
      var firmware :- StringAt(values, i.inputs, 3);
      var device :- StringAt(values, i.inputs, 4);
      var spec :- SetupAt(values, i.inputs, 0);
      Success(Edit(i.inputs[0],
        spec.(vendor := vendor, hardwareVersion := hardware, firmware := firmware, deviceId := device)))
    case EndBuildSetupConnection(protocol) =>
      var spec :- SetupAt(values, i.inputs, 0);
      Success(Define([SetupValue(spec.(protocol := protocol))]))
    case SendSetupConnection(protocol) =>
      var connection :- ConnectionAt(values, i.inputs, 0);
      var spec :- SetupAt(values, i.inputs, 1);
      if Encodable(spec) then Success(Setup(connection, spec, protocol)) else Failure(StringTooLong(i.inputs[1]))
    case BeginOnSetupSuccess(_) =>
      var session :- AttemptAt(values, i.inputs, 0);
      Success(Enter(session))
    case EndOnSetupSuccess => Success(Exit)
    case SendRawFrame(messageType, extensionType) =>
      var connection :- ConnectionAt(values, i.inputs, 0);
      var bytes :- BytesAt(values, i.inputs, 1);
      Success(Frame(connection, extensionType, messageType, bytes))
    case AdvanceTime =>
      var duration :- DurationAt(values, i.inputs, 0);
      Success(Emit(Action.AdvanceTime(duration)))
    case Probe => Success(Emit(Action.Probe))
  }

  /** What the compiler holds. */
  datatype State = State(
    values: seq<Value>,
    actions: seq<Action>,
    metadata: Metadata,
    connections: nat,
    sessions: nat,
    sent: set<nat>,
    rawFramed: set<nat>,
    blocks: seq<nat>)

  const EMPTY_METADATA: Metadata := Metadata([], map[], map[], map[], map[])

  /** Nothing is first on a connection the context brings along: it counts as sent on. */
  function Initial(context: ProgramContext): State {
    State([], [], EMPTY_METADATA, context.numConnections, 0, Range(0, context.numConnections), {}, [])
  }

  function PushValues(c: State, values: seq<Value>): State {
    c.(values := c.values + values)
  }

  function PushAction(c: State, index: nat, action: Action): State {
    c.(actions := c.actions + [action],
       metadata := c.metadata.(actionInstructions := c.metadata.actionInstructions + [index]))
  }

  function OpenOn(c: State, index: nat, role: nat): State {
    var defined := c.(
      connections := c.connections + 1,
      metadata := c.metadata.(connectionVariables := c.metadata.connectionVariables[c.connections := |c.values|]),
      values := c.values + [ConnectionValue(c.connections)]);
    PushAction(defined, index, Action.Connect(c.connections, role))
  }

  function SetupFrame(connection: nat, spec: SetupSpec): Action {
    Send(connection, 0, MESSAGE_TYPE_SETUP_CONNECTION, false, Encoded(spec))
  }

  /** How a setup on a connection departs from the protocol, given what is already on it. */
  function SetupViolations(c: State, connection: nat): seq<ClientViolation> {
    (if connection in c.sent then [SetupNotFirst] else [])
    + (if connection in c.rawFramed then [RawFrameBefore] else [])
  }

  function SetupOn(c: State, index: nat, connection: nat, spec: SetupSpec, protocol: Protocol): State {
    var violations := SetupViolations(c, connection);
    var await := |c.actions| + 1;
    c.(sessions := c.sessions + 1,
       sent := c.sent + {connection},
       values := c.values + [AttemptValue(c.sessions, connection)],
       actions := c.actions
         + [SetupFrame(connection, spec), AwaitSetupResponse(connection, c.sessions, protocol, connection !in c.sent)],
       metadata := c.metadata.(
         actionInstructions := c.metadata.actionInstructions + [index, index],
         sessionVariables := c.metadata.sessionVariables[c.sessions := |c.values|],
         sessionSetups := c.metadata.sessionSetups[c.sessions := spec],
         violations := if violations == [] then c.metadata.violations else c.metadata.violations[await := violations]))
  }

  function FrameOn(c: State, index: nat, connection: nat, extensionType: Word16, messageType: Byte,
    bytes: seq<Byte>): State {
    PushAction(c.(sent := c.sent + {connection}, rawFramed := c.rawFramed + {connection}), index,
      Send(connection, extensionType, messageType, false, Raw(bytes)))
  }

  function EnterOn(c: State, index: nat, session: nat): State {
    PushValues(PushAction(c.(blocks := c.blocks + [|c.actions|]), index, EnterOnSetupSuccess(session, PENDING)),
      [SessionValue])
  }

  /** Close the innermost success block, writing its exit into the action that entered it. */
  function ExitOn(c: State, index: nat): Lookup<State> {
    if c.blocks == [] then Failure(UnbalancedBlock)
    else
      var enter := c.blocks[|c.blocks| - 1];
      if enter >= |c.actions| || !c.actions[enter].EnterOnSetupSuccess? then Failure(UnbalancedBlock)
      else
        var exited := PushAction(c.(blocks := c.blocks[..|c.blocks| - 1]), index, ExitBlock);
        Success(exited.(actions := exited.actions[enter := exited.actions[enter].(end := |c.actions|)]))
  }

  function Apply(c: State, index: nat, plan: Plan): Lookup<State> {
    match plan
    case Define(values) => Success(PushValues(c, values))
    case Edit(at, spec) =>
      if at < |c.values| then Success(c.(values := c.values[at := SetupValue(spec)])) else Failure(MissingValue(at))
    case Open(role) => Success(OpenOn(c, index, role))
    case Setup(connection, spec, protocol) => Success(SetupOn(c, index, connection, spec, protocol))
    case Enter(session) => Success(EnterOn(c, index, session))
    case Exit => ExitOn(c, index)
    case Frame(connection, extensionType, messageType, bytes) =>
      Success(FrameOn(c, index, connection, extensionType, messageType, bytes))
    case Emit(action) => Success(PushAction(c, index, action))
  }

  function CompileStep(c: State, index: nat, i: Instruction): Lookup<State> {
    var plan :- Lower(c.values, i);
    Apply(c, index, plan)
  }

  /** Compile some code, its first instruction being number `index`. */
  function CompileAll(c: State, code: seq<Instruction>, index: nat): Lookup<State>
    decreases |code|
  {
    if code == [] then Success(c)
    else
      var next :- CompileStep(c, index, code[0]);
      CompileAll(next, code[1..], index + 1)
  }

  function Compile(p: Program): Lookup<CompiledProgram> {
    var c :- CompileAll(Initial(p.context), p.instructions, 0);
    Success(CompiledProgram(p.context, c.actions, c.metadata))
  }

  lemma {:induction false} CompileAllConcat(c: State, a: seq<Instruction>, b: seq<Instruction>, index: nat)
    ensures CompileAll(c, a + b, index) ==
            var first := CompileAll(c, a, index);
            if first.Success? then CompileAll(first.value, b, index + |a|) else first
    decreases |a|
  {
    if a == [] {
      assert a + b == b;
    } else {
      assert (a + b)[1..] == a[1..] + b;
      var first := CompileStep(c, index, a[0]);
      if first.Success? {
        CompileAllConcat(first.value, a[1..], b, index + 1);
      }
    }
  }

  // ---------------------------------------------------------------------------------------------
  // The compiler
  // ---------------------------------------------------------------------------------------------

  class Compiler {
    var values: seq<Value>
    var actions: seq<Action>
    var metadata: Metadata
    var connections: nat
    var sessions: nat
    var sent: set<nat>
    var rawFramed: set<nat>
    var blocks: seq<nat>

    ghost function View(): State
      reads this
    {
      State(values, actions, metadata, connections, sessions, sent, rawFramed, blocks)
    }

    constructor ()
      ensures View() == State([], [], EMPTY_METADATA, 0, 0, {}, {}, [])
    {
      values, actions, metadata := [], [], EMPTY_METADATA;
      connections, sessions := 0, 0;
      sent, rawFramed, blocks := {}, {}, [];
    }

    method Push(instruction: nat, action: Action) returns (id: nat)
      modifies this`actions, this`metadata
      ensures View() == PushAction(old(View()), instruction, action) && id == |old(actions)|
    {
      metadata := metadata.(actionInstructions := metadata.actionInstructions + [instruction]);
      actions := actions + [action];
      id := |actions| - 1;
    }

    method Note(action: nat, violations: seq<ClientViolation>)
      modifies this`metadata
      ensures metadata == old(metadata).(violations :=
                if violations == [] then old(metadata).violations else old(metadata).violations[action := violations])
    {
      if violations != [] {
        metadata := metadata.(violations := metadata.violations[action := violations]);
      }
    }

    method CompileConnect(index: nat, role: nat)
      modifies this
      ensures View() == OpenOn(old(View()), index, role)
    {
      var connection := connections;
      connections := connections + 1;
      metadata := metadata.(connectionVariables := metadata.connectionVariables[connection := |values|]);
      values := values + [ConnectionValue(connection)];
      var _ := Push(index, Action.Connect(connection, role));
    }

    method CompileSetup(index: nat, connection: nat, spec: SetupSpec, protocol: Protocol)
      modifies this
      ensures View() == SetupOn(old(View()), index, connection, spec, protocol)
    {
      var first := connection !in sent;
      sent := sent + {connection};
      var session := sessions;
      sessions := sessions + 1;
      metadata := metadata.(sessionVariables := metadata.sessionVariables[session := |values|]);
      metadata := metadata.(sessionSetups := metadata.sessionSetups[session := spec]);
      values := values + [AttemptValue(session, connection)];
      var _ := Push(index, SetupFrame(connection, spec));
      var action := Push(index, AwaitSetupResponse(connection, session, protocol, first));
      var violations := [];
      if !first {
        violations := violations + [SetupNotFirst];
      }
      if connection in rawFramed {
        violations := violations + [RawFrameBefore];
      }
      assert violations == SetupViolations(old(View()), connection);
      assert actions == old(actions)
        + [SetupFrame(connection, spec), AwaitSetupResponse(connection, session, protocol, first)];
      assert metadata.actionInstructions == old(metadata).actionInstructions + [index, index];
      Note(action, violations);
    }

    method CompileExit(index: nat) returns (failed: Option<CompilerError>)
      modifies this
      ensures match ExitOn(old(View()), index)
              case Success(next) => View() == next && failed == None
              case Failure(error) => failed == Some(error)
    {
      if blocks == [] {
        return Some(UnbalancedBlock);
      }
      var enter := blocks[|blocks| - 1];
      blocks := blocks[..|blocks| - 1];
      if enter >= |actions| {
        return Some(UnbalancedBlock);
      }
      var exit := Push(index, ExitBlock);
      match actions[enter] {
        case EnterOnSetupSuccess(session, _) =>
          actions := actions[enter := EnterOnSetupSuccess(session, exit)];
          return None;
        case _ =>
          return Some(UnbalancedBlock);
      }
    }

    /** Carry out what an instruction asks for. */
    method Perform(index: nat, plan: Plan) returns (failed: Option<CompilerError>)
      modifies this
      ensures match Apply(old(View()), index, plan)
              case Success(next) => View() == next && failed == None
              case Failure(error) => failed == Some(error)
    {
      failed := None;
      match plan {
        case Define(defined) =>
          values := values + defined;
        case Edit(at, spec) =>
          if at >= |values| {
            return Some(MissingValue(at));
          }
          values := values[at := SetupValue(spec)];
        case Open(role) =>
          CompileConnect(index, role);
        case Setup(connection, spec, protocol) =>
          CompileSetup(index, connection, spec, protocol);
        case Enter(session) =>
          var enter := Push(index, EnterOnSetupSuccess(session, PENDING));
          blocks := blocks + [enter];
          values := values + [SessionValue];
        case Exit =>
          failed := CompileExit(index);
        case Frame(connection, extensionType, messageType, bytes) =>
          sent := sent + {connection};
          rawFramed := rawFramed + {connection};
          var _ := Push(index, Send(connection, extensionType, messageType, false, Raw(bytes)));
        case Emit(action) =>
          var _ := Push(index, action);
      }
    }

    method CompileInstruction(index: nat, i: Instruction) returns (failed: Option<CompilerError>)
      modifies this
      ensures match CompileStep(old(View()), index, i)
              case Success(next) => View() == next && failed == None
              case Failure(error) => failed == Some(error)
    {
      hide Lower, Apply;
      var plan := Lower(values, i);
      match plan {
        case Failure(error) => return Some(error);
        case Success(asked) => failed := Perform(index, asked);
      }
    }

    method CompileProgram(p: Program) returns (r: Lookup<CompiledProgram>)
      requires View() == State([], [], EMPTY_METADATA, 0, 0, {}, {}, [])
      modifies this
      ensures r == Compile(p)
    {
      hide CompileStep;
      connections := p.context.numConnections;
      sent := sent + Range(0, p.context.numConnections);
      assert sent == Range(0, p.context.numConnections);
      var code := p.instructions;
      assert code[0..] == code;
      for k := 0 to |code|
        invariant CompileAll(Initial(p.context), code, 0) == CompileAll(View(), code[k..], k)
      {
        assert code[k..][0] == code[k] && code[k..][1..] == code[k + 1..];
        var failed := CompileInstruction(k, code[k]);
        if failed.Some? {
          return Failure(failed.value);
        }
      }
      return Success(CompiledProgram(p.context, actions, metadata));
    }
  }
}
