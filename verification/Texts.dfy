/**
 * What a program compiles to, read off its text: each value by the instruction that defines it, each setup by what was
 * last written to it, and each instruction's actions by those.
 */
module Texts {
  import opened Wrappers
  import opened Ir
  import B = Builder
  import opened Scoping
  import opened Compiler
  import opened Soundness
  import opened Ledger

  // ---------------------------------------------------------------------------------------------
  // The values of variables
  // ---------------------------------------------------------------------------------------------

  /** The parts of a setup that are written together. */
  datatype Part = Versions | Flags | Endpoint | Device

  predicate Writes(i: Instruction, setup: nat, part: Part) {
    && |i.inputs| > 0 && i.inputs[0] == setup
    && match part
       case Versions => i.operation.SetVersions?
       case Flags => i.operation.SetFlags?
       case Endpoint => i.operation.SetEndpoint?
       case Device => i.operation.SetDeviceInfo?
  }

  /** The last instruction that writes a part of a setup. */
  function LastWrite(code: seq<Instruction>, setup: nat, part: Part): (r: Option<nat>)
    ensures r.Some? ==> r.value < |code| && Writes(code[r.value], setup, part)
  {
    if code == [] then None
    else
      var last := |code| - 1;
      if Writes(code[last], setup, part) then Some(last) else LastWrite(code[..last], setup, part)
  }

  function Connects(code: seq<Instruction>): nat {
    if code == [] then 0
    else Connects(code[..|code| - 1]) + if code[|code| - 1].operation.Connect? then 1 else 0
  }

  function Sends(code: seq<Instruction>): nat {
    if code == [] then 0
    else Sends(code[..|code| - 1]) + if code[|code| - 1].operation.SendSetupConnection? then 1 else 0
  }

  /** The characters of a text that has only such as take one byte. */
  function Ascii(s: string): Text {
    seq(|s|, k requires 0 <= k < |s| => if s[k] as int < 128 then s[k] as int as Byte else 0)
  }

  /** Input `n` of instruction `j`, as said before it. */
  function SaidInput(code: seq<Instruction>, base: nat, j: nat, n: nat): Value
    requires j < |code|
    decreases j, 1, n
  {
    if n < |code[j].inputs| then Said(code[..j], base, code[j].inputs[n]) else NopValue
  }

  function TextOf(v: Value): Text {
    if v.StrValue? then v.text else []
  }

  function VersionOf(v: Value): Word16 {
    if v.VersionValue? then v.version else 0
  }

  function FlagsOf(v: Value): bv32 {
    if v.FlagsValue? then v.flags else 0
  }

  function PortOf(v: Value): Word16 {
    if v.PortValue? then v.port else 0
  }

  function ConnectionOf(v: Value): nat {
    if v.ConnectionValue? then v.connection else 0
  }

  /** A setup as last written: each part by the inputs of its last write, or what it is to begin with. */
  function Written(code: seq<Instruction>, base: nat, setup: nat): SetupSpec
    decreases |code|, 2, 0
  {
    var versions, flags := LastWrite(code, setup, Versions), LastWrite(code, setup, Flags);
    var endpoint, device := LastWrite(code, setup, Endpoint), LastWrite(code, setup, Device);
    SetupSpec(
      Mining,
      if versions.Some? then VersionOf(SaidInput(code, base, versions.value, 1)) else 2,
      if versions.Some? then VersionOf(SaidInput(code, base, versions.value, 2)) else 2,
      if flags.Some? then FlagsOf(SaidInput(code, base, flags.value, 1)) else 0,
      if endpoint.Some? then TextOf(SaidInput(code, base, endpoint.value, 1)) else Ascii("0.0.0.0"),
      if endpoint.Some? then PortOf(SaidInput(code, base, endpoint.value, 2)) else 0,
      if device.Some? then TextOf(SaidInput(code, base, device.value, 1)) else Ascii("stratamoto"),
      if device.Some? then TextOf(SaidInput(code, base, device.value, 2)) else [],
      if device.Some? then TextOf(SaidInput(code, base, device.value, 3)) else [],
      if device.Some? then TextOf(SaidInput(code, base, device.value, 4)) else [])
  }

  /** The value of a variable, by the instruction that defines it; a setup being built is as last written. */
  function Said(code: seq<Instruction>, base: nat, v: nat): Value
    decreases |code|, 0, 0
  {
    if code == [] then NopValue
    else
      var last := |code| - 1;
      var before := code[..last];
      if v < VariableCount(before) then Said(before, base, v)
      else
        match code[last].operation
        case LoadRole(x) => RoleValue(x)
        case LoadConnection(x) => ConnectionValue(x)
        case LoadVersion(x) => VersionValue(x)
        case LoadFlags(x) => FlagsValue(x)
        case LoadPort(x) => PortValue(x)
        case LoadStr(x) => StrValue(x)
        case LoadBytes(x) => BytesValue(x)
        case LoadDuration(x) => DurationValue(x)
        case Connect => ConnectionValue(base + Connects(before))
        case EndBuildSetupConnection(protocol) =>
          if |code[last].inputs| == 1
          then SetupValue(Written(before, base, code[last].inputs[0]).(protocol := protocol))
          else NopValue
        case SendSetupConnection(_) =>
          AttemptValue(Sends(before),
            if |code[last].inputs| == 2 then ConnectionOf(Said(before, base, code[last].inputs[0])) else 0)
        case BeginOnSetupSuccess(_) => SessionValue
        case _ => NopValue
  }

  // ---------------------------------------------------------------------------------------------
  // The actions of instructions
  // ---------------------------------------------------------------------------------------------

  function RoleOf(v: Value): nat {
    if v.RoleValue? then v.role else 0
  }

  function SpecOf(v: Value): SetupSpec {
    if v.SetupValue? then v.spec else DEFAULT_SPEC
  }

  function SessionOf(v: Value): nat {
    if v.AttemptValue? then v.session else 0
  }

  function BytesOf(v: Value): seq<Byte> {
    if v.BytesValue? then v.bytes else []
  }

  function DurationOf(v: Value): nat {
    if v.DurationValue? then v.duration else 0
  }

  /** Instruction `j` sends something on a connection. */
  predicate SendsAt(code: seq<Instruction>, base: nat, j: nat, connection: nat)
    requires j < |code|
  {
    && (code[j].operation.SendSetupConnection? || code[j].operation.SendRawFrame?)
    && ConnectionOf(SaidInput(code, base, j, 0)) == connection
  }

  ghost predicate SendsOn(code: seq<Instruction>, base: nat, connection: nat) {
    exists j :: 0 <= j < |code| && SendsAt(code, base, j, connection)
  }

  /** What instruction `k` has done, its block's end left open. */
  ghost function SaidActions(code: seq<Instruction>, base: nat, k: nat): seq<Action>
    requires k < |code|
  {
    var x := SaidInput(code, base, k, 0);
    match code[k].operation
    case Connect => [Action.Connect(base + Connects(code[..k]), RoleOf(x))]
    case SendSetupConnection(protocol) =>
      var c, spec := ConnectionOf(x), SpecOf(SaidInput(code, base, k, 1));
      [Send(c, 0, 0, false, Encoded(spec)),
       AwaitSetupResponse(c, Sends(code[..k]), protocol, c >= base && !SendsOn(code[..k], base, c))]
    case BeginOnSetupSuccess(_) => [EnterOnSetupSuccess(SessionOf(x), PENDING)]
    case EndOnSetupSuccess => [ExitBlock]
    case SendRawFrame(messageType, extension) =>
      [Send(ConnectionOf(x), extension, messageType, false, Raw(BytesOf(SaidInput(code, base, k, 1))))]
    case AdvanceTime => [Action.AdvanceTime(DurationOf(x))]
    case Probe => [Action.Probe]
    case _ => []
  }

  ghost function AllSaid(code: seq<Instruction>, base: nat): seq<Action> {
    if code == [] then [] else AllSaid(code[..|code| - 1], base) + SaidActions(code, base, |code| - 1)
  }

  /** The same actions, but for where blocks end. */
  ghost predicate SameButEnds(a: seq<Action>, b: seq<Action>) {
    |a| == |b| && forall j | 0 <= j < |a| :: SameButEnd(a[j], b[j])
  }

  // ---------------------------------------------------------------------------------------------
  // The compiler says the same
  // ---------------------------------------------------------------------------------------------

  function Meaning(code: seq<Instruction>, base: nat, v: nat, kind: Variable): Value {
    if kind.MutSetupVar? then SetupValue(Written(code, base, v)) else Said(code, base, v)
  }

  ghost predicate ValuesSaid(b: B.State, values: seq<Value>, code: seq<Instruction>, base: nat) {
    && |values| == |b.variables| == VariableCount(code)
    && (forall v | 0 <= v < |values| :: values[v] == Meaning(code, base, v, b.variables[v].kind))
    && (forall j, n | 0 <= j < |code| && 0 <= n < |code[j].inputs| :: code[j].inputs[n] < |values|)
  }

  ghost predicate SentSaid(sent: set<nat>, code: seq<Instruction>, base: nat) {
    forall x: nat :: x in sent <==> x < base || SendsOn(code, base, x)
  }

  /** The instruction each action came from. */
  ghost function SaidOrigins(code: seq<Instruction>, base: nat): seq<nat> {
    if code == [] then []
    else
      var last := |code| - 1;
      SaidOrigins(code[..last], base) + Repeated(last, |SaidActions(code, base, last)|)
  }

  /** The connection the code's next connect opens. */
  function NextId(code: seq<Instruction>, base: nat): nat {
    base + Connects(code)
  }

  /** The variable each connect defines. */
  ghost predicate ConnectionsSaid(variables: map<nat, nat>, code: seq<Instruction>, base: nat) {
    forall j | 0 <= j < |code| && code[j].operation.Connect? ::
      var id := NextId(code[..j], base);
      id in variables && variables[id] == VariableCount(code[..j])
  }

  /** The variable each send defines. */
  ghost predicate SessionsSaid(variables: map<nat, nat>, code: seq<Instruction>) {
    forall j | 0 <= j < |code| && code[j].operation.SendSetupConnection? ::
      var id := Sends(code[..j]);
      id in variables && variables[id] == VariableCount(code[..j])
  }

  /** What each send sends. */
  ghost predicate SetupsSaid(setups: map<nat, SetupSpec>, code: seq<Instruction>, base: nat) {
    forall j | 0 <= j < |code| && code[j].operation.SendSetupConnection? ::
      var id := Sends(code[..j]);
      id in setups && setups[id] == SpecOf(SaidInput(code, base, j, 1))
  }

  ghost predicate TablesSaid(m: Metadata, code: seq<Instruction>, base: nat) {
    && ConnectionsSaid(m.connectionVariables, code, base)
    && SessionsSaid(m.sessionVariables, code)
    && SetupsSaid(m.sessionSetups, code, base)
  }

  ghost predicate Speaks(b: B.State, c: State, code: seq<Instruction>, base: nat) {
    && ValuesSaid(b, c.values, code, base)
    && c.connections == base + Connects(code) && c.sessions == Sends(code)
    && SentSaid(c.sent, code, base)
    && SameButEnds(AllSaid(code, base), c.actions)
    && c.metadata.actionInstructions == SaidOrigins(code, base)
    && TablesSaid(c.metadata, code, base)
  }

  lemma OneMore(code: seq<Instruction>, i: Instruction)
    ensures var more := code + [i];
      && more[|code|] == i && more[..|code|] == code
      && VariableCount(more) == VariableCount(code) + i.operation.Defines()
      && Connects(more) == Connects(code) + (if i.operation.Connect? then 1 else 0)
      && Sends(more) == Sends(code) + (if i.operation.SendSetupConnection? then 1 else 0)
  {
    VariableCountConcat(code, [i]);
    assert [i][1..] == [];
  }

  /** What was said is said still. */
  lemma SaidStays(code: seq<Instruction>, i: Instruction, base: nat, v: nat)
    requires v < VariableCount(code)
    ensures Said(code + [i], base, v) == Said(code, base, v)
  {
    OneMore(code, i);
  }

  lemma InputStays(code: seq<Instruction>, i: Instruction, base: nat, j: nat, n: nat)
    requires j < |code|
    ensures SaidInput(code + [i], base, j, n) == SaidInput(code, base, j, n)
  {
    assert (code + [i])[..j] == code[..j];
  }

  lemma LastWriteStays(code: seq<Instruction>, i: Instruction, setup: nat, part: Part)
    ensures LastWrite(code + [i], setup, part) ==
            if Writes(i, setup, part) then Some(|code|) else LastWrite(code, setup, part)
  {
    OneMore(code, i);
  }

  /** What is last written of a part stays unless it is written again. */
  lemma WrittenStays(code: seq<Instruction>, i: Instruction, base: nat, setup: nat)
    requires forall part :: !Writes(i, setup, part)
    ensures Written(code + [i], base, setup) == Written(code, base, setup)
  {
    hide LastWrite, Writes, SaidInput, Said;
    forall part, n | LastWrite(code, setup, part).Some?
      ensures SaidInput(code + [i], base, LastWrite(code, setup, part).value, n)
           == SaidInput(code, base, LastWrite(code, setup, part).value, n)
    {
      InputStays(code, i, base, LastWrite(code, setup, part).value, n);
    }
    forall part ensures LastWrite(code + [i], setup, part) == LastWrite(code, setup, part) {
      LastWriteStays(code, i, setup, part);
    }
  }

  /** A setup nothing reads has nothing written to it. */
  lemma {:induction false} NeverWritten(code: seq<Instruction>, setup: nat, part: Part)
    requires forall j, n | 0 <= j < |code| && 0 <= n < |code[j].inputs| :: code[j].inputs[n] < setup
    ensures LastWrite(code, setup, part) == None
    decreases |code|
  {
    if code != [] {
      NeverWritten(code[..|code| - 1], setup, part);
    }
  }

  lemma DefaultTexts()
    ensures Ascii("0.0.0.0") == DEFAULT_HOST && Ascii("stratamoto") == DEFAULT_VENDOR
  {
  }

  lemma FreshIsDefault(code: seq<Instruction>, base: nat, setup: nat)
    requires forall j, n | 0 <= j < |code| && 0 <= n < |code[j].inputs| :: code[j].inputs[n] < setup
    ensures Written(code, base, setup) == DEFAULT_SPEC
  {
    hide LastWrite, Ascii, SaidInput;
    NeverWritten(code, setup, Versions);
    NeverWritten(code, setup, Flags);
    NeverWritten(code, setup, Endpoint);
    NeverWritten(code, setup, Device);
    DefaultTexts();
  }

  // ---------------------------------------------------------------------------------------------
  // One instruction more
  // ---------------------------------------------------------------------------------------------

  /** An input that is not a setup being built is read as it was said. */
  lemma ReadsSaid(b: B.State, c: State, code: seq<Instruction>, base: nat, i: Instruction, n: nat)
    requires ValuesSaid(b, c.values, code, base) && Admissible(b, i) && n < |i.operation.InputVariables()|
    ensures n < |i.inputs| && i.inputs[n] < |c.values|
    ensures i.operation.InputVariables()[n] != MutSetupVar ==>
              c.values[i.inputs[n]] == SaidInput(code + [i], base, |code|, n)
    ensures i.operation.InputVariables()[n] == MutSetupVar ==>
              c.values[i.inputs[n]] == SetupValue(Written(code, base, i.inputs[n]))
  {
    hide Said, Written, Operation.InputVariables;
    assert b.Visible(i.inputs[n]) && B.KindOf(b, i.inputs[n]) == i.operation.InputVariables()[n];
    assert (code + [i])[|code|] == i && (code + [i])[..|code|] == code;
  }

  /** The inputs of an admissible instruction are there. */
  lemma InputsThere(b: B.State, c: State, code: seq<Instruction>, base: nat, i: Instruction)
    requires ValuesSaid(b, c.values, code, base) && Admissible(b, i)
    ensures forall j, n | 0 <= j < |code + [i]| && 0 <= n < |(code + [i])[j].inputs| ::
              (code + [i])[j].inputs[n] < |c.values|
  {
    hide Said, Written;
    forall n | 0 <= n < |i.inputs| ensures i.inputs[n] < |c.values| {
      assert b.Visible(i.inputs[n]);
    }
  }

  /** The values from before, after an instruction that writes to none of them. */
  lemma OldValuesSaid(b: B.State, values: seq<Value>, code: seq<Instruction>, base: nat, i: Instruction, v: nat)
    requires ValuesSaid(b, values, code, base) && v < |values| && forall part :: !Writes(i, v, part)
    ensures values[v] == Meaning(code + [i], base, v, b.variables[v].kind)
  {
    hide Said, Written, Writes;
    SaidStays(code, i, base, v);
    WrittenStays(code, i, base, v);
  }

  predicate IsEdit(op: Operation) {
    op.SetVersions? || op.SetFlags? || op.SetEndpoint? || op.SetDeviceInfo?
  }

  lemma KindCount(op: Operation)
    ensures |NewKinds(op)| == op.Defines()
  {
  }

  /** The kinds a builder gives what an instruction defines. */
  lemma GrownKinds(b: B.State, i: Instruction, b': B.State)
    requires Grew(Left(b, i.operation), i, b')
    ensures |b'.variables| == |b.variables| + i.operation.Defines()
    ensures forall v | 0 <= v < |b.variables| :: b'.variables[v] == b.variables[v]
    ensures |NewKinds(i.operation)| == i.operation.Defines()
    ensures forall n | 0 <= n < i.operation.Defines() ::
        b'.variables[|b.variables| + n].kind == NewKinds(i.operation)[n]
  {
    KindCount(i.operation);
    hide NewVariable, Operation.Defines, NewKinds, NewScopes;
    assert Left(b, i.operation).variables == b.variables by { LeftKeepsVariables(b, i.operation); }
    forall n | 0 <= n < i.operation.Defines()
      ensures b'.variables[|b.variables| + n].kind == NewKinds(i.operation)[n]
    {
      assert b'.variables[|b.variables| + n] == NewVariable(Left(b, i.operation), i.operation, n);
      NewKind(Left(b, i.operation), i.operation, n);
    }
  }

  lemma LeftKeepsVariables(b: B.State, op: Operation)
    ensures Left(b, op).variables == b.variables
  {
  }

  /** What an instruction that edits nothing defines. */
  function NewSaid(code: seq<Instruction>, base: nat, i: Instruction, n: nat): Value
    requires n < |NewKinds(i.operation)|
  {
    Meaning(code + [i], base, VariableCount(code) + n, NewKinds(i.operation)[n])
  }

  /** If what is defined is as said, and nothing from before is written to, all values are as said. */
  lemma ValuesAppended(b: B.State, c: State, code: seq<Instruction>, base: nat, i: Instruction, b': B.State,
    values: seq<Value>)
    requires ValuesSaid(b, c.values, code, base) && Admissible(b, i) && Grew(Left(b, i.operation), i, b')
    requires !IsEdit(i.operation) && |values| == i.operation.Defines()
    requires |NewKinds(i.operation)| == |values|
    requires forall n | 0 <= n < |values| :: values[n] == NewSaid(code, base, i, n)
    ensures ValuesSaid(b', c.values + values, code + [i], base)
  {
    hide Meaning, Operation.Defines, NewKinds, Admissible, Grew;
    GrownKinds(b, i, b');
    OneMore(code, i);
    InputsThere(b, c, code, base, i);
    var all := c.values + values;
    forall v | 0 <= v < |all| ensures all[v] == Meaning(code + [i], base, v, b'.variables[v].kind) {
      if v < |c.values| {
        OldValuesSaid(b, c.values, code, base, i, v);
      } else {
        assert values[v - |c.values|] == NewSaid(code, base, i, v - |c.values|);
      }
    }
  }

  /** The values are those from before and then what the instruction defines, as said. */
  ghost predicate Appends(c: State, d: State, code: seq<Instruction>, base: nat, i: Instruction, values: seq<Value>) {
    && d.values == c.values + values && |values| == |NewKinds(i.operation)| == i.operation.Defines()
    && forall n | 0 <= n < |values| :: values[n] == NewSaid(code, base, i, n)
  }

  /** What one variable an instruction defines is said to be. */
  lemma SaidNow(code: seq<Instruction>, base: nat, i: Instruction)
    ensures var said := Said(code + [i], base, VariableCount(code));
      match i.operation
      case LoadRole(x) => said == RoleValue(x)
      case LoadConnection(x) => said == ConnectionValue(x)
      case LoadVersion(x) => said == VersionValue(x)
      case LoadFlags(x) => said == FlagsValue(x)
      case LoadPort(x) => said == PortValue(x)
      case LoadStr(x) => said == StrValue(x)
      case LoadBytes(x) => said == BytesValue(x)
      case LoadDuration(x) => said == DurationValue(x)
      case Connect => said == ConnectionValue(base + Connects(code))
      case EndBuildSetupConnection(protocol) =>
        |i.inputs| == 1 ==> said == SetupValue(Written(code, base, i.inputs[0]).(protocol := protocol))
      case SendSetupConnection(_) =>
        |i.inputs| == 2 ==> said == AttemptValue(Sends(code), ConnectionOf(Said(code, base, i.inputs[0])))
      case BeginOnSetupSuccess(_) => said == SessionValue
      case _ => true
  {
    hide Written;
    OneMore(code, i);
  }

  lemma {:induction false} NopsSaid(code: seq<Instruction>, base: nat, i: Instruction, v: nat)
    requires i.operation.Nop? && VariableCount(code) <= v
    ensures Said(code + [i], base, v) == NopValue
  {
    OneMore(code, i);
  }

  predicate IsLoad(op: Operation) {
    op.LoadRole? || op.LoadConnection? || op.LoadVersion? || op.LoadFlags? || op.LoadPort? || op.LoadStr?
      || op.LoadBytes?
    || op.LoadDuration?
  }

  lemma LoadsSaid(c: State, code: seq<Instruction>, base: nat, i: Instruction, index: nat) returns (values: seq<Value>)
    requires IsLoad(i.operation) && CompileStep(c, index, i).Success?
    ensures Appends(c, CompileStep(c, index, i).value, code, base, i, values)
  {
    hide Said, Written;
    SaidNow(code, base, i);
    values := [Said(code + [i], base, VariableCount(code))];
  }

  lemma NopSaid(c: State, code: seq<Instruction>, base: nat, i: Instruction, index: nat) returns (values: seq<Value>)
    requires i.operation.Nop? && CompileStep(c, index, i).Success?
    ensures Appends(c, CompileStep(c, index, i).value, code, base, i, values)
  {
    hide Said, Written;
    values := Nops(i.operation.Defines());
    forall n | 0 <= n < |values| ensures values[n] == NewSaid(code, base, i, n) {
      NopsSaid(code, base, i, VariableCount(code) + n);
    }
  }

  lemma BeginSaid(b: B.State, c: State, code: seq<Instruction>, base: nat, i: Instruction, index: nat)
    returns (values: seq<Value>)
    requires ValuesSaid(b, c.values, code, base) && Admissible(b, i) && i.operation.BeginBuildSetupConnection?
    requires CompileStep(c, index, i).Success?
    ensures Appends(c, CompileStep(c, index, i).value, code, base, i, values)
  {
    hide Said, Written;
    InputsThere(b, c, code, base, i);
    FreshIsDefault(code + [i], base, |c.values|);
    values := [SetupValue(DEFAULT_SPEC)];
  }

  lemma EndSaid(b: B.State, c: State, code: seq<Instruction>, base: nat, i: Instruction, index: nat)
    returns (values: seq<Value>)
    requires ValuesSaid(b, c.values, code, base) && Admissible(b, i) && i.operation.EndBuildSetupConnection?
    requires CompileStep(c, index, i).Success?
    ensures Appends(c, CompileStep(c, index, i).value, code, base, i, values)
  {
    hide Said, Written, Admissible;
    ReadsSaid(b, c, code, base, i, 0);
    InputCount(b, i);
    SaidNow(code, base, i);
    values := [Said(code + [i], base, VariableCount(code))];
  }

  lemma InputCount(b: B.State, i: Instruction)
    requires Admissible(b, i)
    ensures |i.inputs| == |i.operation.InputVariables()|
  {
  }

  lemma ConnectSaid(b: B.State, c: State, code: seq<Instruction>, base: nat, i: Instruction, index: nat)
    returns (values: seq<Value>)
    requires i.operation.Connect? && c.connections == base + Connects(code) && CompileStep(c, index, i).Success?
    ensures Appends(c, CompileStep(c, index, i).value, code, base, i, values)
  {
    hide Said, Written;
    SaidNow(code, base, i);
    values := [Said(code + [i], base, VariableCount(code))];
  }

  lemma SendSaid(b: B.State, c: State, code: seq<Instruction>, base: nat, i: Instruction, index: nat)
    returns (values: seq<Value>)
    requires ValuesSaid(b, c.values, code, base) && Admissible(b, i) && i.operation.SendSetupConnection?
    requires c.sessions == Sends(code) && CompileStep(c, index, i).Success?
    ensures Appends(c, CompileStep(c, index, i).value, code, base, i, values)
  {
    hide Said, Written, Admissible, Encodable, SetupViolations;
    ReadsSaid(b, c, code, base, i, 0);
    InputCount(b, i);
    SaidNow(code, base, i);
    OneMore(code, i);
    values := [Said(code + [i], base, VariableCount(code))];
  }

  lemma EnterSaid(c: State, code: seq<Instruction>, base: nat, i: Instruction, index: nat) returns (values: seq<Value>)
    requires i.operation.BeginOnSetupSuccess? && CompileStep(c, index, i).Success?
    ensures Appends(c, CompileStep(c, index, i).value, code, base, i, values)
  {
    hide Said, Written;
    SaidNow(code, base, i);
    values := [Said(code + [i], base, VariableCount(code))];
  }

  lemma NothingSaid(c: State, code: seq<Instruction>, base: nat, i: Instruction, index: nat)
    requires i.operation.EndOnSetupSuccess? || i.operation.SendRawFrame? || i.operation.AdvanceTime?
      || i.operation.Probe?
    requires CompileStep(c, index, i).Success?
    ensures Appends(c, CompileStep(c, index, i).value, code, base, i, [])
  {
  }

  /** What an instruction that edits nothing defines is as said. */
  lemma DefinesSaid(b: B.State, c: State, code: seq<Instruction>, base: nat, i: Instruction, index: nat)
    returns (values: seq<Value>)
    requires ValuesSaid(b, c.values, code, base) && Admissible(b, i) && !IsEdit(i.operation)
    requires c.connections == base + Connects(code) && c.sessions == Sends(code)
    requires CompileStep(c, index, i).Success?
    ensures Appends(c, CompileStep(c, index, i).value, code, base, i, values)
  {
    hide ValuesSaid, Admissible, CompileStep, Appends;
    var op := i.operation;
    if IsLoad(op) {
      values := LoadsSaid(c, code, base, i, index);
    } else {
      match op {
        case Nop(_, _) => values := NopSaid(c, code, base, i, index);
        case BeginBuildSetupConnection => values := BeginSaid(b, c, code, base, i, index);
        case EndBuildSetupConnection(_) => values := EndSaid(b, c, code, base, i, index);
        case Connect => values := ConnectSaid(b, c, code, base, i, index);
        case SendSetupConnection(_) => values := SendSaid(b, c, code, base, i, index);
        case BeginOnSetupSuccess(_) => values := EnterSaid(c, code, base, i, index);
        case _ =>
          values := [];
          NothingSaid(c, code, base, i, index);
      }
    }
  }

  /** What a write changes of a setup: its own part, to what its inputs were said to be. */
  lemma WrittenNow(code: seq<Instruction>, i: Instruction, base: nat)
    requires |i.inputs| > 0
    ensures var w, now := Written(code, base, i.inputs[0]), Written(code + [i], base, i.inputs[0]);
      var more, k := code + [i], |code|;
      match i.operation
      case SetVersions =>
        now == w.(
          minVersion := VersionOf(SaidInput(more, base, k, 1)),
          maxVersion := VersionOf(SaidInput(more, base, k, 2)))
      case SetFlags => now == w.(flags := FlagsOf(SaidInput(more, base, k, 1)))
      case SetEndpoint =>
        now == w.(
          endpointHost := TextOf(SaidInput(more, base, k, 1)),
          endpointPort := PortOf(SaidInput(more, base, k, 2)))
      case SetDeviceInfo =>
        now == w.(
          vendor := TextOf(SaidInput(more, base, k, 1)),
          hardwareVersion := TextOf(SaidInput(more, base, k, 2)),
          firmware := TextOf(SaidInput(more, base, k, 3)),
          deviceId := TextOf(SaidInput(more, base, k, 4)))
      case _ => true
  {
    hide LastWrite, SaidInput, Said, Ascii;
    var setup := i.inputs[0];
    forall part, n | LastWrite(code, setup, part).Some?
      ensures SaidInput(code + [i], base, LastWrite(code, setup, part).value, n)
           == SaidInput(code, base, LastWrite(code, setup, part).value, n)
    {
      InputStays(code, i, base, LastWrite(code, setup, part).value, n);
    }
    LastWriteStays(code, i, setup, Versions);
    LastWriteStays(code, i, setup, Flags);
    LastWriteStays(code, i, setup, Endpoint);
    LastWriteStays(code, i, setup, Device);
  }

  /** What an edit leaves in the setup is what has been written to it. */
  lemma EditSaid(b: B.State, c: State, code: seq<Instruction>, base: nat, i: Instruction)
    requires ValuesSaid(b, c.values, code, base) && Admissible(b, i) && IsEdit(i.operation)
    requires Lower(c.values, i).Success?
    ensures |i.inputs| > 0 && Lower(c.values, i).value == Edit(i.inputs[0], Written(code + [i], base, i.inputs[0]))
  {
    hide ValuesSaid, Admissible, Written, SaidInput;
    var n := |i.operation.InputVariables()|;
    WrittenReads(b, c, code, base, i);
    InputCount(b, i);
    WrittenNow(code, i, base);
  }

  /** All inputs of an edit are read as they were said. */
  lemma WrittenReads(b: B.State, c: State, code: seq<Instruction>, base: nat, i: Instruction)
    requires ValuesSaid(b, c.values, code, base) && Admissible(b, i) && IsEdit(i.operation)
    ensures |i.inputs| == |i.operation.InputVariables()| && forall n | 0 <= n < |i.inputs| :: i.inputs[n] < |c.values|
    ensures c.values[i.inputs[0]] == SetupValue(Written(code, base, i.inputs[0]))
    ensures forall n | 1 <= n < |i.inputs| :: c.values[i.inputs[n]] == SaidInput(code + [i], base, |code|, n)
  {
    hide ValuesSaid, Admissible, Written, SaidInput;
    InputCount(b, i);
    ReadsSaid(b, c, code, base, i, 0);
    forall n | 1 <= n < |i.inputs|
      ensures i.inputs[n] < |c.values| && c.values[i.inputs[n]] == SaidInput(code + [i], base, |code|, n)
    {
      ReadsSaid(b, c, code, base, i, n);
    }
  }

  lemma ValuesEdited(b: B.State, c: State, code: seq<Instruction>, base: nat, i: Instruction, b': B.State)
    requires ValuesSaid(b, c.values, code, base) && Admissible(b, i) && Grew(Left(b, i.operation), i, b')
    requires IsEdit(i.operation) && Lower(c.values, i).Success? && i.operation.Defines() == 0
    ensures |i.inputs| > 0 && i.inputs[0] < |c.values|
    ensures var at := i.inputs[0];
      ValuesSaid(b', c.values[at := SetupValue(Written(code + [i], base, at))], code + [i], base)
  {
    hide Meaning, Operation.Defines, NewKinds, Admissible, Grew, Written, Lower;
    GrownKinds(b, i, b');
    OneMore(code, i);
    InputsThere(b, c, code, base, i);
    WrittenReads(b, c, code, base, i);
    MutableInput(b, i);
    var at := i.inputs[0];
    var all := c.values[at := SetupValue(Written(code + [i], base, at))];
    forall v | 0 <= v < |all| ensures all[v] == Meaning(code + [i], base, v, b'.variables[v].kind) {
      if v == at {
        MeaningOfSetup(code + [i], base, v);
      } else {
        OldValuesSaid(b, c.values, code, base, i, v);
      }
    }
  }

  lemma MeaningOfSetup(code: seq<Instruction>, base: nat, v: nat)
    ensures Meaning(code, base, v, MutSetupVar) == SetupValue(Written(code, base, v))
  {
  }

  lemma MutableInput(b: B.State, i: Instruction)
    requires Admissible(b, i) && IsEdit(i.operation)
    ensures |i.inputs| > 0 && i.inputs[0] < |b.variables| && b.variables[i.inputs[0]].kind == MutSetupVar
  {
    assert b.Visible(i.inputs[0]) && B.KindOf(b, i.inputs[0]) == i.operation.InputVariables()[0];
  }

  /** The values after one instruction more. */
  lemma ValuesStep(b: B.State, c: State, code: seq<Instruction>, base: nat, i: Instruction, index: nat, b': B.State)
    requires ValuesSaid(b, c.values, code, base) && Admissible(b, i) && Grew(Left(b, i.operation), i, b')
    requires c.connections == base + Connects(code) && c.sessions == Sends(code)
    requires CompileStep(c, index, i).Success?
    ensures ValuesSaid(b', CompileStep(c, index, i).value.values, code + [i], base)
  {
    hide ValuesSaid, Admissible, Grew, Lower, Written;
    if IsEdit(i.operation) {
      EditsNothing(i.operation);
      EditSaid(b, c, code, base, i);
      ValuesEdited(b, c, code, base, i, b');
    } else {
      var values := DefinesSaid(b, c, code, base, i, index);
      ValuesAppended(b, c, code, base, i, b', values);
    }
  }

  lemma EditsNothing(op: Operation)
    requires IsEdit(op)
    ensures op.Defines() == 0
  {
  }

  // ---------------------------------------------------------------------------------------------
  // Actions and tables
  // ---------------------------------------------------------------------------------------------

  predicate IsSend(op: Operation) {
    op.SendSetupConnection? || op.SendRawFrame?
  }

  lemma SendsOneMore(code: seq<Instruction>, base: nat, i: Instruction, x: nat)
    ensures SendsOn(code + [i], base, x) <==>
            SendsOn(code, base, x) || (IsSend(i.operation) && ConnectionOf(SaidInput(code + [i], base, |code|, 0)) == x)
  {
    hide SaidInput;
    var more := code + [i];
    forall j | 0 <= j < |code| ensures SendsAt(more, base, j, x) == SendsAt(code, base, j, x) {
      InputStays(code, i, base, j, 0);
    }
    assert more[|code|] == i;
    if SendsOn(code, base, x) {
      var j :| 0 <= j < |code| && SendsAt(code, base, j, x);
      assert SendsAt(more, base, j, x);
    }
    if IsSend(i.operation) && ConnectionOf(SaidInput(more, base, |code|, 0)) == x {
      assert SendsAt(more, base, |code|, x);
    }
    if SendsOn(more, base, x) {
      var j :| 0 <= j < |more| && SendsAt(more, base, j, x);
      assert j < |code| ==> SendsAt(code, base, j, x);
    }
  }

  /** What reading the inputs of an instruction comes to, as said. */
  lemma PlanSaid(b: B.State, c: State, code: seq<Instruction>, base: nat, i: Instruction)
    requires ValuesSaid(b, c.values, code, base) && Admissible(b, i) && Lower(c.values, i).Success?
    ensures var plan := Lower(c.values, i).value;
      var x, y := SaidInput(code + [i], base, |code|, 0), SaidInput(code + [i], base, |code|, 1);
      match i.operation
      case Connect => plan == Open(RoleOf(x))
      case SendSetupConnection(protocol) => plan == Plan.Setup(ConnectionOf(x), SpecOf(y), protocol)
      case BeginOnSetupSuccess(_) => plan == Plan.Enter(SessionOf(x))
      case EndOnSetupSuccess => plan == Exit
      case SendRawFrame(messageType, extension) =>
        plan == Plan.Frame(ConnectionOf(x), extension, messageType, BytesOf(y))
      case AdvanceTime => plan == Emit(Action.AdvanceTime(DurationOf(x)))
      case Probe => plan == Emit(Action.Probe)
      case _ => plan.Define? || plan.Edit?
  {
    hide ValuesSaid, Admissible, SaidInput, Encodable, Operation.InputVariables;
    if 0 < |i.operation.InputVariables()| {
      ReadsSaid(b, c, code, base, i, 0);
    }
    if 1 < |i.operation.InputVariables()| {
      ReadsSaid(b, c, code, base, i, 1);
    }
    KindsRead(i.operation);
  }

  /** What the instructions that act read. */
  lemma KindsRead(op: Operation)
    ensures var kinds := op.InputVariables();
      match op
      case Connect => kinds == [RoleVar]
      case SendSetupConnection(p) => kinds == [ConnectionVar, ConstSetupVar(p)]
      case BeginOnSetupSuccess(p) => kinds == [AttemptVar(p)]
      case SendRawFrame(_, _) => kinds == [ConnectionVar, BytesVar]
      case AdvanceTime => kinds == [DurationVar]
      case _ => true
  {
  }

  /** What an instruction emits is what it is said to do. */
  lemma EmittedSaid(b: B.State, c: State, code: seq<Instruction>, base: nat, i: Instruction)
    requires Speaks(b, c, code, base) && Admissible(b, i) && Lower(c.values, i).Success?
    ensures Emitted(c, Lower(c.values, i).value) == SaidActions(code + [i], base, |code|)
  {
    hide ValuesSaid, Admissible, SaidInput, Lower, SendsOn, SameButEnds, TablesSaid;
    PlanSaid(b, c, code, base, i);
    assert (code + [i])[|code|] == i && (code + [i])[..|code|] == code;
  }

  /** The counts, the connections sent on and the tables after a plan. */
  lemma PlanKeeps(c: State, index: nat, plan: Plan, d: State)
    requires Apply(c, index, plan) == Success(d)
    ensures d.connections == c.connections + (if plan.Open? then 1 else 0)
    ensures d.sessions == c.sessions + (if plan.Setup? then 1 else 0)
    ensures d.sent == c.sent + (if plan.Setup? || plan.Frame? then {plan.connection} else {})
    ensures d.metadata.actionInstructions == c.metadata.actionInstructions + Repeated(index, |Emitted(c, plan)|)
    ensures d.metadata.connectionVariables ==
            if plan.Open? then c.metadata.connectionVariables[c.connections := |c.values|]
            else c.metadata.connectionVariables
    ensures d.metadata.sessionVariables ==
            if plan.Setup? then c.metadata.sessionVariables[c.sessions := |c.values|] else c.metadata.sessionVariables
    ensures d.metadata.sessionSetups ==
            if plan.Setup? then c.metadata.sessionSetups[c.sessions := plan.spec] else c.metadata.sessionSetups
  {
  }

  lemma {:induction false} NumbersBelow(code: seq<Instruction>, j: nat)
    requires j < |code|
    ensures Connects(code[..j]) + (if code[j].operation.Connect? then 1 else 0) <= Connects(code)
    ensures Sends(code[..j]) + (if code[j].operation.SendSetupConnection? then 1 else 0) <= Sends(code)
    decreases |code|
  {
    var last := |code| - 1;
    if j < last {
      NumbersBelow(code[..last], j);
      assert code[..last][..j] == code[..j];
    }
  }

  /** One instruction of the code before, and its numbers, are as they were. */
  lemma OldInstruction(code: seq<Instruction>, i: Instruction, base: nat, j: nat)
    requires j < |code|
    ensures (code + [i])[j] == code[j] && (code + [i])[..j] == code[..j]
    ensures SaidInput(code + [i], base, j, 1) == SaidInput(code, base, j, 1)
    ensures code[j].operation.Connect? ==> Connects(code[..j]) < Connects(code)
    ensures code[j].operation.SendSetupConnection? ==> Sends(code[..j]) < Sends(code)
  {
    InputStays(code, i, base, j, 1);
    NumbersBelow(code, j);
  }

  lemma ConnectionsStep(
    variables: map<nat, nat>, code: seq<Instruction>, base: nat, i: Instruction, after: map<nat, nat>)
    requires ConnectionsSaid(variables, code, base)
    requires after == if i.operation.Connect? then variables[NextId(code, base) := VariableCount(code)] else variables
    ensures ConnectionsSaid(after, code + [i], base)
  {
    hide NextId, VariableCount, SaidInput;
    var more := code + [i];
    forall j | 0 <= j < |more| && more[j].operation.Connect?
      ensures var id := NextId(more[..j], base); id in after && after[id] == VariableCount(more[..j])
    {
      if j < |code| {
        OldInstruction(code, i, base, j);
        IdsDiffer(code, base, j);
      } else {
        assert more[..j] == code;
      }
    }
  }

  lemma IdsDiffer(code: seq<Instruction>, base: nat, j: nat)
    requires j < |code| && Connects(code[..j]) < Connects(code)
    ensures NextId(code[..j], base) != NextId(code, base)
  {
  }

  lemma SessionsStep(variables: map<nat, nat>, code: seq<Instruction>, i: Instruction, after: map<nat, nat>)
    requires SessionsSaid(variables, code)
    requires after ==
      if i.operation.SendSetupConnection? then variables[Sends(code) := VariableCount(code)] else variables
    ensures SessionsSaid(after, code + [i])
  {
    hide Sends, VariableCount, SaidInput;
    var more := code + [i];
    forall j | 0 <= j < |more| && more[j].operation.SendSetupConnection?
      ensures var id := Sends(more[..j]); id in after && after[id] == VariableCount(more[..j])
    {
      if j < |code| {
        OldInstruction(code, i, 0, j);
      } else {
        assert more[..j] == code;
      }
    }
  }

  lemma SetupsStep(
    setups: map<nat, SetupSpec>, code: seq<Instruction>, base: nat, i: Instruction, after: map<nat, SetupSpec>)
    requires SetupsSaid(setups, code, base)
    requires after ==
      if i.operation.SendSetupConnection?
      then setups[Sends(code) := SpecOf(SaidInput(code + [i], base, |code|, 1))]
      else setups
    ensures SetupsSaid(after, code + [i], base)
  {
    hide Sends, SaidInput, SpecOf;
    var more := code + [i];
    forall j | 0 <= j < |more| && more[j].operation.SendSetupConnection?
      ensures var id := Sends(more[..j]); id in after && after[id] == SpecOf(SaidInput(more, base, j, 1))
    {
      if j < |code| {
        OldInstruction(code, i, base, j);
      } else {
        assert more[..j] == code;
      }
    }
  }

  lemma TablesStep(c: State, code: seq<Instruction>, base: nat, i: Instruction, index: nat, plan: Plan, d: State)
    requires TablesSaid(c.metadata, code, base) && Apply(c, index, plan) == Success(d)
    requires c.connections == base + Connects(code) && c.sessions == Sends(code) && |c.values| == VariableCount(code)
    requires plan.Open? <==> i.operation.Connect?
    requires plan.Setup? <==> i.operation.SendSetupConnection?
    requires plan.Setup? ==> plan.spec == SpecOf(SaidInput(code + [i], base, |code|, 1))
    ensures TablesSaid(d.metadata, code + [i], base)
  {
    hide SaidInput, Apply, ConnectionsSaid, SessionsSaid, SetupsSaid;
    PlanKeeps(c, index, plan, d);
    ConnectionsStep(c.metadata.connectionVariables, code, base, i, d.metadata.connectionVariables);
    SessionsStep(c.metadata.sessionVariables, code, i, d.metadata.sessionVariables);
    SetupsStep(c.metadata.sessionSetups, code, base, i, d.metadata.sessionSetups);
  }

  /** Which plan an instruction comes to. */
  lemma PlanKind(b: B.State, c: State, code: seq<Instruction>, base: nat, i: Instruction)
    requires ValuesSaid(b, c.values, code, base) && Admissible(b, i) && Lower(c.values, i).Success?
    ensures var plan, more := Lower(c.values, i).value, code + [i];
      && (plan.Open? <==> i.operation.Connect?)
      && (plan.Setup? <==> i.operation.SendSetupConnection?)
      && (plan.Setup? || plan.Frame? <==> IsSend(i.operation))
      && (plan.Setup? ==> plan.spec == SpecOf(SaidInput(more, base, |code|, 1)))
      && (plan.Setup? || plan.Frame? ==> plan.connection == ConnectionOf(SaidInput(more, base, |code|, 0)))
  {
    hide ValuesSaid, Admissible, SaidInput, Lower;
    PlanSaid(b, c, code, base, i);
  }

  lemma SentStep(c: State, code: seq<Instruction>, base: nat, i: Instruction, sent: set<nat>)
    requires SentSaid(c.sent, code, base)
    requires sent == c.sent + if IsSend(i.operation) then {ConnectionOf(SaidInput(code + [i], base, |code|, 0))} else {}
    ensures SentSaid(sent, code + [i], base)
  {
    hide SaidInput, SendsOn;
    forall x: nat ensures x in sent <==> x < base || SendsOn(code + [i], base, x) {
      SendsOneMore(code, base, i, x);
    }
  }

  lemma ActionsStep(code: seq<Instruction>, base: nat, i: Instruction, before: seq<Action>, after: seq<Action>)
    requires SameButEnds(AllSaid(code, base), before) && Emits(before, SaidActions(code + [i], base, |code|), after)
    ensures SameButEnds(AllSaid(code + [i], base), after)
    ensures SaidOrigins(code + [i], base) == SaidOrigins(code, base)
      + Repeated(|code|, |SaidActions(code + [i], base, |code|)|)
  {
    hide SaidActions;
    assert (code + [i])[..|code|] == code;
    var all := AllSaid(code + [i], base);
    forall j | 0 <= j < |all| ensures SameButEnd(all[j], after[j]) {
      if j < |before| {
        assert SameButEnd(AllSaid(code, base)[j], before[j]) && SameButEnd(before[j], after[j]);
      }
    }
  }

  lemma SpeaksStep(b: B.State, c: State, code: seq<Instruction>, base: nat, i: Instruction)
    requires Wellformed(b) && Speaks(b, c, code, base) && B.Step(b, i).Appended? && CompileStep(c, |code|, i).Success?
    ensures Speaks(B.Step(b, i).state, CompileStep(c, |code|, i).value, code + [i], base)
  {
    hide B.Step, Wellformed, Admissible, Grew, Lower, Apply, ValuesSaid, SentSaid, SameButEnds, TablesSaid, SaidActions,
      Emits, Emitted, SaidInput, AllSaid, SaidOrigins;
    StepTaken(b, i);
    AcceptsAdmissible(b, i);
    var plan, d := Lower(c.values, i).value, CompileStep(c, |code|, i).value;
    ValuesStep(b, c, code, base, i, |code|, B.Step(b, i).state);
    PlanKind(b, c, code, base, i);
    PlanKeeps(c, |code|, plan, d);
    OneMore(code, i);
    SaidLength(b, c, code, base);
    TablesStep(c, code, base, i, |code|, plan, d);
    SentStep(c, code, base, i, d.sent);
    EmittedSaid(b, c, code, base, i);
    ApplyEmits(c, |code|, plan, d);
    ActionsStep(code, base, i, c.actions, d.actions);
  }

  lemma SaidLength(b: B.State, c: State, code: seq<Instruction>, base: nat)
    requires ValuesSaid(b, c.values, code, base)
    ensures |c.values| == VariableCount(code)
  {
  }

  lemma NothingSpeaks(context: ProgramContext)
    ensures Speaks(B.FromPrefix(context, []).state, CompileAll(Initial(context), [], 0).value, [],
      context.numConnections)
  {
  }

  /** Taking code and compiling it, by its last instruction. */
  lemma LastTaken(context: ProgramContext, before: seq<Instruction>, i: Instruction)
    requires B.FromPrefix(context, before + [i]).Appended? && CompileAll(Initial(context), before + [i], 0).Success?
    ensures B.FromPrefix(context, before).Appended? && CompileAll(Initial(context), before, 0).Success?
    ensures var b, c := B.FromPrefix(context, before).state, CompileAll(Initial(context), before, 0).value;
      && B.Step(b, i) == B.FromPrefix(context, before + [i])
      && CompileStep(c, |before|, i) == CompileAll(Initial(context), before + [i], 0)
  {
    hide B.Steps, CompileAll, B.Step, CompileStep;
    B.StepsConcat(B.New(context), before, [i]);
    CompileAllConcat(Initial(context), before, [i], 0);
    var b, c := B.FromPrefix(context, before).state, CompileAll(Initial(context), before, 0).value;
    OneStep(b, c, i, |before|);
  }

  lemma OneStep(b: B.State, c: State, i: Instruction, index: nat)
    ensures B.Steps(b, [i]) == B.Step(b, i) && CompileAll(c, [i], index) == CompileStep(c, index, i)
  {
    assert [i][1..] == [];
  }

  lemma {:induction false} CodeSpeaks(context: ProgramContext, code: seq<Instruction>)
    requires B.FromPrefix(context, code).Appended? && CompileAll(Initial(context), code, 0).Success?
    ensures Speaks(B.FromPrefix(context, code).state, CompileAll(Initial(context), code, 0).value, code,
              context.numConnections)
    decreases |code|
  {
    hide B.Step, B.Steps, CompileAll, CompileStep, Speaks, Wellformed, Lexical;
    if code == [] {
      NothingSpeaks(context);
    } else {
      var before, i := code[..|code| - 1], code[|code| - 1];
      assert code == before + [i];
      LastTaken(context, before, i);
      CodeSpeaks(context, before);
      NewWellformed(context);
      Reached(context, before);
      SpeaksStep(B.FromPrefix(context, before).state, CompileAll(Initial(context), before, 0).value, before,
        context.numConnections, i);
    }
  }

  /**
   * A valid program that compiles compiles to what its text says: the actions of its instructions, one after another,
   * every value in them the one its variable's own instruction says, every setup as last written, each action traced to
   * its instruction and each connection and session to its variable.
   */
  lemma CompiledAsSaid(p: Program)
    requires B.StaticallyValid(p) && Compile(p).Success?
    ensures var cp, base := Compile(p).value, p.context.numConnections;
      && SameButEnds(AllSaid(p.instructions, base), cp.actions)
      && cp.metadata.actionInstructions == SaidOrigins(p.instructions, base)
      && TablesSaid(cp.metadata, p.instructions, base)
  {
    hide B.Steps, CompileAll, SameButEnds, TablesSaid, SentSaid, ValuesSaid, AllSaid, SaidOrigins, B.Finalize;
    CodeSpeaks(p.context, p.instructions);
  }
}
