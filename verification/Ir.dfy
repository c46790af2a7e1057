/** Programs: operations with typed inputs and outputs, instructions in single assignment form. */
module Ir {
  import opened Wrappers

  type Byte = n: int | 0 <= n < 0x100
  type Word16 = n: int | 0 <= n < 0x1_0000

  /** A string as its UTF-8 bytes, which is what its length is measured in. */
  type Text = seq<Byte>

  datatype Protocol = Mining | JobDeclaration | TemplateDistribution

  /** The type of a value an operation produces. */
  datatype Variable =
    | NopVar
    | RoleVar
    | ConnectionVar
    | AttemptVar(protocol: Protocol)
    | SessionVar(protocol: Protocol)
    | VersionVar
    | FlagsVar
    | PortVar
    | StrVar
    | BytesVar
    | DurationVar
    | MutSetupVar
    | ConstSetupVar(protocol: Protocol)

  datatype InstructionContext = Global | BuildSetupConnection | OnSetupSuccess

  datatype Operation =
    | Nop(outputs: nat, innerOutputs: nat)
    | LoadRole(role: nat)
    | LoadConnection(connection: nat)
    | LoadVersion(version: Word16)
    | LoadFlags(flags: bv32)
    | LoadPort(port: Word16)
    | LoadStr(text: Text)
    | LoadBytes(bytes: seq<Byte>)
    | LoadDuration(duration: nat)
    | Connect
    | BeginBuildSetupConnection
    | SetVersions
    | SetFlags
    | SetEndpoint
    | SetDeviceInfo
    | EndBuildSetupConnection(protocol: Protocol)
    | SendSetupConnection(protocol: Protocol)
    | BeginOnSetupSuccess(protocol: Protocol)
    | EndOnSetupSuccess
    | SendRawFrame(messageType: Byte, extensionType: Word16)
    | AdvanceTime
    | Probe
  {
    predicate IsBlockBegin() {
      BeginBuildSetupConnection? || BeginOnSetupSuccess?
    }

    predicate IsBlockEnd() {
      EndBuildSetupConnection? || EndOnSetupSuccess?
    }

    /** Whether this end closes a block that `begin` opened. */
    predicate Closes(begin: Operation) {
      || (EndBuildSetupConnection? && begin.BeginBuildSetupConnection?)
      || (EndOnSetupSuccess? && begin.BeginOnSetupSuccess?)
    }

    /** Which context the code in a block is in, if the operation begins one. */
    function EnteredContext(): Option<InstructionContext> {
      match this
      case BeginBuildSetupConnection => Some(BuildSetupConnection)
      case BeginOnSetupSuccess(_) => Some(OnSetupSuccess)
      case _ => None
    }

    /** What it defines for the code that follows it in its own block. */
    function OutputVariables(): seq<Variable> {
      match this
      case Nop(n, _) => seq(n, _ => NopVar)
      case LoadRole(_) => [RoleVar]
      case LoadConnection(_) => [ConnectionVar]
      case LoadVersion(_) => [VersionVar]
      case LoadFlags(_) => [FlagsVar]
      case LoadPort(_) => [PortVar]
      case LoadStr(_) => [StrVar]
      case LoadBytes(_) => [BytesVar]
      case LoadDuration(_) => [DurationVar]
      case Connect => [ConnectionVar]
      case EndBuildSetupConnection(p) => [ConstSetupVar(p)]
      case SendSetupConnection(p) => [AttemptVar(p)]
      case _ => []
    }

    /** What the beginning of a block defines for the code in that block. */
    function InnerOutputVariables(): seq<Variable> {
      match this
      case Nop(_, n) => seq(n, _ => NopVar)
      case BeginBuildSetupConnection => [MutSetupVar]
      case BeginOnSetupSuccess(p) => [SessionVar(p)]
      case _ => []
    }

    function InputVariables(): seq<Variable> {
      match this
      case Connect => [RoleVar]
      case SetVersions => [MutSetupVar, VersionVar, VersionVar]
      case SetFlags => [MutSetupVar, FlagsVar]
      case SetEndpoint => [MutSetupVar, StrVar, PortVar]
      case SetDeviceInfo => [MutSetupVar, StrVar, StrVar, StrVar, StrVar]
      case EndBuildSetupConnection(_) => [MutSetupVar]
      case SendSetupConnection(p) => [ConnectionVar, ConstSetupVar(p)]
      case BeginOnSetupSuccess(p) => [AttemptVar(p)]
      case SendRawFrame(_, _) => [ConnectionVar, BytesVar]
      case AdvanceTime => [DurationVar]
      case _ => []
    }

    /** How many variables the operation defines, inside its scope and out. */
    function Defines(): nat {
      |OutputVariables()| + |InnerOutputVariables()|
    }
  }

  /** An operation and the variables it consumes, by the order they were defined in. */
  datatype Instruction = Instruction(operation: Operation, inputs: seq<nat>) {
    predicate IsNoppable() {
      !operation.IsBlockBegin() && !operation.IsBlockEnd()
    }

    function Nopped(): Instruction {
      Instruction(Nop(|operation.OutputVariables()|, |operation.InnerOutputVariables()|), [])
    }
  }

  datatype ProgramContext = ProgramContext(numRoles: nat, numConnections: nat, seed: nat)

  datatype Program = Program(context: ProgramContext, instructions: seq<Instruction>)

  datatype ValidationError =
    | InvalidNumberOfInputs(got: nat, expected: nat)
    | InvalidVariableType(found: Variable, wanted: Variable)
    | VariableNotDefined(index: nat)
    | RoleNotFound(role: nat)
    | ConnectionNotFound(connection: nat)
    | InvalidBlockEnd(begin: Operation, end: Operation)
    | UnfinishedBlock(block: Operation)

  /** Why a mutator left a program as it was; the last is not an error it returns but a panic of the builder's. */
  datatype MutatorError = NoMutationsAvailable | CreatedInvalidProgram | BuilderPanic

  /** One thing over and over. */
  function Repeated<T>(x: T, n: nat): (r: seq<T>)
    ensures |r| == n
  {
    seq(n, _ => x)
  }

  /** The numbers from `lo` up to `hi`. */
  function Range(lo: nat, hi: nat): (r: set<nat>)
    ensures forall v: nat :: v in r <==> lo <= v < hi
    decreases hi - lo
  {
    if lo >= hi then {} else {lo} + Range(lo + 1, hi)
  }

  /** The number of variables a list of instructions defines. */
  function VariableCount(instructions: seq<Instruction>): nat {
    if instructions == [] then 0
    else instructions[0].operation.Defines() + VariableCount(instructions[1..])
  }

  lemma {:induction false} VariableCountConcat(a: seq<Instruction>, b: seq<Instruction>)
    ensures VariableCount(a + b) == VariableCount(a) + VariableCount(b)
  {
    if a == [] {
      assert a + b == b;
    } else {
      assert (a + b)[1..] == a[1..] + b;
      VariableCountConcat(a[1..], b);
    }
  }
}
