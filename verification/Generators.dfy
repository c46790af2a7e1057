/** Fragments that open a connection and set it up, or send raw frames: their code, and that the builder takes it. */
module Generators {
  import opened Ir
  import opened Builder
  import opened Scoping
  import C = Compiler

  const CURRENT_VERSION: Word16 := 2

  /** The flag bits a subprotocol defines (Stratum V2 specification, sections 5.1 and 6.1). */
  function DefinedFlags(protocol: Protocol): bv32 {
    match protocol
    case Mining => 7
    case JobDeclaration => 1
    case TemplateDistribution => 0
  }

  // ---------------------------------------------------------------------------------------------
  // The code of each fragment, `n` variables being defined before it
  // ---------------------------------------------------------------------------------------------

  /** Operations that read nothing. */
  function Literals(ops: seq<Operation>): seq<Instruction> {
    seq(|ops|, k requires 0 <= k < |ops| => Instruction(ops[k], []))
  }

  function OpenCode(role: nat, n: nat): seq<Instruction> {
    Literals([LoadRole(role)]) + [Instruction(Connect, [n])]
  }

  /** Versions and flags, and the setup they will go in. */
  function BeginCode(min: Word16, max: Word16, flags: bv32): seq<Instruction> {
    Literals([LoadVersion(min), LoadVersion(max), LoadFlags(flags)]) + [Instruction(BeginBuildSetupConnection, [])]
  }

  function FieldsCode(n: nat): seq<Instruction> {
    [Instruction(SetVersions, [n + 3, n, n + 1])] + [Instruction(SetFlags, [n + 3, n + 2])]
  }

  function EndpointCode(n: nat, at: nat): seq<Instruction> {
    Literals([LoadStr(C.DEFAULT_HOST), LoadPort(0)]) + [Instruction(SetEndpoint, [n + 3, at, at + 1])]
  }

  function DeviceCode(n: nat, at: nat): seq<Instruction> {
    Literals([LoadStr(C.DEFAULT_VENDOR), LoadStr([]), LoadStr([]), LoadStr([])])
    + [Instruction(SetDeviceInfo, [n + 3, at, at + 1, at + 2, at + 3])]
  }

  /** The optional fields, set to what a client would send anyway so that a mutation can reach them. */
  function OptionalCode(n: nat, endpoint: bool, device: bool): seq<Instruction> {
    (if endpoint then EndpointCode(n, n + 4) else [])
    + (if device then DeviceCode(n, n + 4 + if endpoint then 2 else 0) else [])
  }

  function SendCode(n: nat, at: nat, connection: nat, protocol: Protocol): seq<Instruction> {
    [Instruction(EndBuildSetupConnection(protocol), [n + 3])]
    + [Instruction(SendSetupConnection(protocol), [connection, at])]
  }

  /** What a setup asks for, and which of the optional fields it writes. */
  datatype Setup = Setup(protocol: Protocol, min: Word16, max: Word16, flags: bv32, endpoint: bool, device: bool) {
    /** How many variables the fragment defines. */
    function Count(): nat {
      6 + (if endpoint then 2 else 0) + if device then 4 else 0
    }
  }

  function SetupCode(n: nat, connection: nat, x: Setup): seq<Instruction> {
    BeginCode(x.min, x.max, x.flags)
    + (FieldsCode(n) + (OptionalCode(n, x.endpoint, x.device) + SendCode(n, n + x.Count() - 2, connection, x.protocol)))
  }

  function RawCode(connection: nat, n: nat, bytes: seq<Byte>, messageType: Byte, extension: Word16): seq<Instruction> {
    Literals([LoadBytes(bytes)]) + [Instruction(SendRawFrame(messageType, extension), [connection, n])]
  }

  // ---------------------------------------------------------------------------------------------
  // The builder takes them
  // ---------------------------------------------------------------------------------------------

  /** `t` is `s` further on, everything open in `s` still open. */
  ghost predicate Over(s: State, t: State) {
    && Wellformed(s) && Wellformed(t)
    && s.scopes <= t.scopes && s.variables <= t.variables && t.context == s.context
  }

  predicate Has(s: State, v: nat, kind: Variable) {
    s.Visible(v) && s.variables[v].kind == kind
  }

  /** What could be seen still can. */
  lemma StillHas(s: State, t: State, v: nat, kind: Variable)
    requires Over(s, t) && Has(s, v, kind)
    ensures Has(t, v, kind)
  {
    hide ScopeOpenedBy, Housed;
    var k: nat :| k < |s.scopes| && s.scopes[k].id == s.variables[v].scopeId;
    assert t.scopes[k] == s.scopes[k] && t.variables[v] == s.variables[v];
  }

  /** `t` is `s` with variables of these kinds defined where `s` is, and nothing opened or closed. */
  ghost predicate Defined(s: State, t: State, kinds: seq<Variable>) {
    && Over(s, t) && t.scopes == s.scopes
    && |t.variables| == |s.variables| + |kinds|
    && forall j: nat | j < |kinds| :: Has(t, |s.variables| + j, kinds[j])
  }

  lemma DefinedThen(s: State, t: State, u: State, a: seq<Variable>, b: seq<Variable>)
    requires Defined(s, t, a) && Defined(t, u, b)
    ensures Defined(s, u, a + b)
  {
    hide Wellformed, Has;
    forall j: nat | j < |a + b| ensures Has(u, |s.variables| + j, (a + b)[j]) {
      if j < |a| {
        StillHas(t, u, |s.variables| + j, a[j]);
      } else {
        assert Has(u, |t.variables| + (j - |a|), b[j - |a|]);
      }
    }
  }

  predicate IsPlain(op: Operation) {
    !op.IsBlockBegin() && !op.IsBlockEnd() && !op.Nop?
  }

  lemma NoInner(op: Operation)
    requires IsPlain(op)
    ensures op.InnerOutputVariables() == []
  {
  }

  /** Where its inputs can be seen an instruction is taken, and what it defines can be seen after. */
  lemma Taken(s: State, i: Instruction)
    requires Wellformed(s) && Admissible(s, i) && IsPlain(i.operation)
    ensures Step(s, i).Appended? && Defined(s, Step(s, i).state, i.operation.OutputVariables())
  {
    hide Step, ScopeOpenedBy, Housed, Admissible, Operation.OutputVariables;
    StepTaken(s, i);
    NoInner(i.operation);
    var t := Step(s, i).state;
    forall j: nat | j < |i.operation.OutputVariables()|
      ensures Has(t, |s.variables| + j, i.operation.OutputVariables()[j])
    {
      assert t.variables[|s.variables| + j] == NewVariable(s, i.operation, j);
    }
  }

  /** Reads nothing and defines one variable, of the kind given. */
  predicate IsLiteral(op: Operation, kind: Variable, context: ProgramContext) {
    && op.InputVariables() == [] && op.OutputVariables() == [kind] && IsPlain(op)
    && !op.LoadConnection? && (op.LoadRole? ==> op.role < context.numRoles)
  }

  predicate AreLiterals(ops: seq<Operation>, kinds: seq<Variable>, context: ProgramContext) {
    |kinds| == |ops| && forall j | 0 <= j < |ops| :: IsLiteral(ops[j], kinds[j], context)
  }

  lemma {:induction false} LiteralsTaken(s: State, ops: seq<Operation>, kinds: seq<Variable>)
    requires Wellformed(s) && AreLiterals(ops, kinds, s.context)
    ensures Steps(s, Literals(ops)).Appended? && Defined(s, Steps(s, Literals(ops)).state, kinds)
    decreases |ops|
  {
    hide Step, Wellformed, Has;
    if ops == [] {
      assert Literals(ops) == [];
    } else {
      var i := Instruction(ops[0], []);
      assert Literals(ops)[0] == i && Literals(ops)[1..] == Literals(ops[1..]);
      assert IsLiteral(ops[0], kinds[0], s.context);
      Taken(s, i);
      var t := Step(s, i).state;
      LiteralsTaken(t, ops[1..], kinds[1..]);
      assert kinds == [kinds[0]] + kinds[1..];
      DefinedThen(s, t, Steps(s, Literals(ops)).state, [kinds[0]], kinds[1..]);
    }
  }

  lemma StepsOnce(s: State, i: Instruction)
    ensures Step(s, i).Appended? ==> Steps(s, [i]) == Step(s, i)
  {
    assert [i][1..] == [];
  }

  /** Literals, and then an instruction that reads them or what could be seen before. */
  lemma LiteralsThen(s: State, ops: seq<Operation>, kinds: seq<Variable>, i: Instruction)
    requires Wellformed(s) && AreLiterals(ops, kinds, s.context)
    requires IsPlain(i.operation) && !i.operation.LoadRole? && !i.operation.LoadConnection?
    requires |i.inputs| == |i.operation.InputVariables()|
    requires forall k | 0 <= k < |i.inputs| ::
      || Has(s, i.inputs[k], i.operation.InputVariables()[k])
      || (|s.variables| <= i.inputs[k] < |s.variables| + |ops|
        && kinds[i.inputs[k] - |s.variables|] == i.operation.InputVariables()[k])
    ensures var code := Literals(ops) + [i];
      Steps(s, code).Appended? && Defined(s, Steps(s, code).state, kinds + i.operation.OutputVariables())
  {
    hide Step, Steps, Wellformed, Operation.InputVariables, Operation.OutputVariables, AreLiterals, Literals;
    LiteralsTaken(s, ops, kinds);
    var t := Steps(s, Literals(ops)).state;
    LiteralsLength(ops, kinds, s.context);
    forall k | 0 <= k < |i.inputs| ensures Has(t, i.inputs[k], i.operation.InputVariables()[k]) {
      if Has(s, i.inputs[k], i.operation.InputVariables()[k]) {
        StillHas(s, t, i.inputs[k], i.operation.InputVariables()[k]);
      } else {
        assert Has(t, |s.variables| + (i.inputs[k] - |s.variables|), kinds[i.inputs[k] - |s.variables|]);
      }
    }
    Taken(t, i);
    StepsConcat(s, Literals(ops), [i]);
    StepsOnce(t, i);
    DefinedThen(s, t, Step(t, i).state, kinds, i.operation.OutputVariables());
  }

  lemma LiteralsLength(ops: seq<Operation>, kinds: seq<Variable>, context: ProgramContext)
    requires AreLiterals(ops, kinds, context)
    ensures |kinds| == |ops|
  {
  }

  /** Opening a connection is taken exactly when the context has the role. */
  lemma OpenTaken(s: State, role: nat)
    requires Wellformed(s)
    ensures var r := Steps(s, OpenCode(role, |s.variables|));
      if role < s.context.numRoles then r.Appended? && Defined(s, r.state, [RoleVar, ConnectionVar])
      else r == Rejected(RoleNotFound(role), s)
  {
    hide Step, Wellformed, Defined;
    if role < s.context.numRoles {
      LiteralsThen(s, [LoadRole(role)], [RoleVar], Instruction(Connect, [|s.variables|]));
      assert [RoleVar] + Connect.OutputVariables() == [RoleVar, ConnectionVar];
    } else {
      var i := Instruction(LoadRole(role), []);
      assert OpenCode(role, |s.variables|)[0] == i;
      RoleRefused(s, role);
    }
  }

  lemma RoleRefused(s: State, role: nat)
    requires role >= s.context.numRoles
    ensures Step(s, Instruction(LoadRole(role), [])) == Rejected(RoleNotFound(role), s)
  {
  }

  /** `t` is `s` with a setup being built in a block of its own, in variable `n + 3`, its values before it. */
  ghost predicate Building(s: State, t: State, n: nat) {
    && Over(s, t) && |t.scopes| == |s.scopes| + 1 && t.scopes[|s.scopes|].context == BuildSetupConnection
    && Has(t, n, VersionVar) && Has(t, n + 1, VersionVar) && Has(t, n + 2, FlagsVar) && Has(t, n + 3, MutSetupVar)
  }

  lemma BeginTaken(s: State)
    requires Wellformed(s)
    ensures var r := Step(s, Instruction(BeginBuildSetupConnection, []));
      && r.Appended? && Over(s, r.state) && |r.state.variables| == |s.variables| + 1
      && |r.state.scopes| == |s.scopes| + 1 && r.state.scopes[|s.scopes|].context == BuildSetupConnection
      && Has(r.state, |s.variables|, MutSetupVar)
  {
    hide Step, ScopeOpenedBy, Housed;
    var i := Instruction(BeginBuildSetupConnection, []);
    StepTaken(s, i);
    var t := Step(s, i).state;
    assert t.variables[|s.variables|] == NewVariable(s, i.operation, 0);
  }

  lemma BeginCodeTaken(s: State, min: Word16, max: Word16, flags: bv32)
    requires Wellformed(s)
    ensures var r := Steps(s, BeginCode(min, max, flags));
      r.Appended? && Building(s, r.state, |s.variables|) && |r.state.variables| == |s.variables| + 4
  {
    hide Step, Steps, Wellformed, Has, Literals;
    var n := |s.variables|;
    var ops, kinds := [LoadVersion(min), LoadVersion(max), LoadFlags(flags)], [VersionVar, VersionVar, FlagsVar];
    var begin := Instruction(BeginBuildSetupConnection, []);
    LiteralsTaken(s, ops, kinds);
    var t := Steps(s, Literals(ops)).state;
    BeginTaken(t);
    var u := Step(t, begin).state;
    StepsConcat(s, Literals(ops), [begin]);
    StepsOnce(t, begin);
    assert Has(t, n + 0, kinds[0]) && Has(t, n + 1, kinds[1]) && Has(t, n + 2, kinds[2]);
    StillHas(t, u, n, VersionVar);
    StillHas(t, u, n + 1, VersionVar);
    StillHas(t, u, n + 2, FlagsVar);
  }

  /** Building goes on over whatever is defined in the block. */
  lemma StillBuilding(s: State, t: State, u: State, n: nat, kinds: seq<Variable>)
    requires Building(s, t, n) && Defined(t, u, kinds)
    ensures Building(s, u, n) && |u.variables| == |t.variables| + |kinds|
  {
    hide Wellformed, Has;
    StillHas(t, u, n, VersionVar);
    StillHas(t, u, n + 1, VersionVar);
    StillHas(t, u, n + 2, FlagsVar);
    StillHas(t, u, n + 3, MutSetupVar);
  }

  lemma FieldsTaken(s: State, t: State, n: nat)
    requires Building(s, t, n)
    ensures var r := Steps(t, FieldsCode(n));
      r.Appended? && Building(s, r.state, n) && |r.state.variables| == |t.variables|
  {
    hide Step, Steps, Wellformed, Has, Building;
    BuildingHas(s, t, n);
    var a, b := Instruction(SetVersions, [n + 3, n, n + 1]), Instruction(SetFlags, [n + 3, n + 2]);
    assert Literals([]) == [] && Literals([]) + [a] == [a] && Literals([]) + [b] == [b];
    LiteralsThen(t, [], [], a);
    var u := Steps(t, [a]).state;
    StillBuilding(s, t, u, n, []);
    BuildingHas(s, u, n);
    LiteralsThen(u, [], [], b);
    StillBuilding(s, u, Steps(u, [b]).state, n, []);
    StepsConcat(t, [a], [b]);
  }

  lemma BuildingHas(s: State, t: State, n: nat)
    requires Building(s, t, n)
    ensures Wellformed(t) && Wellformed(s)
    ensures Has(t, n, VersionVar) && Has(t, n + 1, VersionVar) && Has(t, n + 2, FlagsVar) && Has(t, n + 3, MutSetupVar)
  {
    hide Wellformed, Has;
  }

  lemma EndpointTaken(s: State, t: State, n: nat)
    requires Building(s, t, n)
    ensures var r := Steps(t, EndpointCode(n, |t.variables|));
      r.Appended? && Building(s, r.state, n) && |r.state.variables| == |t.variables| + 2
  {
    hide Step, Steps, Wellformed, Has, Building, Literals;
    BuildingHas(s, t, n);
    var at, kinds := |t.variables|, [StrVar, PortVar];
    var i := Instruction(SetEndpoint, [n + 3, at, at + 1]);
    LiteralsThen(t, [LoadStr(C.DEFAULT_HOST), LoadPort(0)], kinds, i);
    assert kinds + i.operation.OutputVariables() == kinds;
    StillBuilding(s, t, Steps(t, EndpointCode(n, at)).state, n, kinds);
  }

  lemma DeviceTaken(s: State, t: State, n: nat)
    requires Building(s, t, n)
    ensures var r := Steps(t, DeviceCode(n, |t.variables|));
      r.Appended? && Building(s, r.state, n) && |r.state.variables| == |t.variables| + 4
  {
    hide Step, Steps, Wellformed, Has, Building, Literals;
    BuildingHas(s, t, n);
    var at, kinds := |t.variables|, [StrVar, StrVar, StrVar, StrVar];
    var i := Instruction(SetDeviceInfo, [n + 3, at, at + 1, at + 2, at + 3]);
    LiteralsThen(t, [LoadStr(C.DEFAULT_VENDOR), LoadStr([]), LoadStr([]), LoadStr([])], kinds, i);
    assert kinds + i.operation.OutputVariables() == kinds;
    StillBuilding(s, t, Steps(t, DeviceCode(n, at)).state, n, kinds);
  }

  lemma OptionalTaken(s: State, t: State, n: nat, endpoint: bool, device: bool)
    requires Building(s, t, n) && |t.variables| == n + 4
    ensures var r := Steps(t, OptionalCode(n, endpoint, device));
      && r.Appended? && Building(s, r.state, n)
      && |r.state.variables| == n + 4 + (if endpoint then 2 else 0) + (if device then 4 else 0)
  {
    hide Step, Steps, Wellformed, Has, Building, EndpointCode, DeviceCode;
    var a := if endpoint then EndpointCode(n, n + 4) else [];
    var b := if device then DeviceCode(n, n + 4 + if endpoint then 2 else 0) else [];
    NoSteps(t);
    if endpoint {
      EndpointTaken(s, t, n);
    }
    var u := Steps(t, a).state;
    NoSteps(u);
    if device {
      DeviceTaken(s, u, n);
    }
    StepsConcat(t, a, b);
  }

  lemma NoSteps(s: State)
    ensures Steps(s, []) == Appended(s)
  {
  }

  /** Ending the block leaves the scopes as they were before it. */
  lemma EndTaken(s: State, t: State, n: nat, protocol: Protocol)
    requires Building(s, t, n)
    ensures var r := Step(t, Instruction(EndBuildSetupConnection(protocol), [n + 3]));
      && r.Appended? && Over(s, r.state) && r.state.scopes == s.scopes
      && |r.state.variables| == |t.variables| + 1 && Has(r.state, |t.variables|, ConstSetupVar(protocol))
  {
    hide Step, Wellformed, Has, Grew, Accepts;
    var i := Instruction(EndBuildSetupConnection(protocol), [n + 3]);
    assert Accepts(t, i) by { EndAccepted(s, t, n, protocol); }
    StepTaken(t, i);
    EndGrew(s, t, i, Step(t, i).state, protocol);
  }

  lemma EndAccepted(s: State, t: State, n: nat, protocol: Protocol)
    requires Building(s, t, n)
    ensures Accepts(t, Instruction(EndBuildSetupConnection(protocol), [n + 3]))
  {
    hide Wellformed;
  }

  lemma EndGrew(s: State, t: State, i: Instruction, u: State, protocol: Protocol)
    requires Over(s, t) && |t.scopes| == |s.scopes| + 1 && i.operation == EndBuildSetupConnection(protocol)
    requires Wellformed(u) && Grew(Left(t, i.operation), i, u)
    ensures Over(s, u) && u.scopes == s.scopes && |u.variables| == |t.variables| + 1
    ensures Has(u, |t.variables|, ConstSetupVar(protocol))
  {
    hide ScopeOpenedBy, Housed;
    assert t.scopes[..|t.scopes| - 1] == s.scopes;
    assert u.variables[|t.variables|] == NewVariable(Left(t, i.operation), i.operation, 0);
  }

  lemma SendTaken(s: State, t: State, n: nat, connection: nat, protocol: Protocol)
    requires Building(s, t, n) && Has(s, connection, ConnectionVar)
    ensures var r := Steps(t, SendCode(n, |t.variables|, connection, protocol));
      && r.Appended? && Over(s, r.state) && r.state.scopes == s.scopes
      && |r.state.variables| == |t.variables| + 2 && Has(r.state, |t.variables| + 1, AttemptVar(protocol))
  {
    hide Step, Steps, Wellformed, Has, Building;
    var end := Instruction(EndBuildSetupConnection(protocol), [n + 3]);
    var send := Instruction(SendSetupConnection(protocol), [connection, |t.variables|]);
    EndTaken(s, t, n, protocol);
    var u := Step(t, end).state;
    StepsOnce(t, end);
    StillHas(s, u, connection, ConnectionVar);
    assert Literals([]) == [] && Literals([]) + [send] == [send];
    LiteralsThen(u, [], [], send);
    var v := Steps(u, [send]).state;
    assert [] + send.operation.OutputVariables() == [AttemptVar(protocol)];
    assert Has(v, |u.variables| + 0, [AttemptVar(protocol)][0]);
    StepsConcat(t, [end], [send]);
  }

  /** A setup is taken on any connection that can be seen, whatever is asked for, and leaves every block as it was. */
  lemma SetupTaken(s: State, connection: nat, x: Setup)
    requires Wellformed(s) && Has(s, connection, ConnectionVar)
    ensures var r := Steps(s, SetupCode(|s.variables|, connection, x));
      && r.Appended? && Over(s, r.state) && r.state.scopes == s.scopes
      && |r.state.variables| == |s.variables| + x.Count()
      && Has(r.state, |s.variables| + x.Count() - 1, AttemptVar(x.protocol))
  {
    hide Step, Steps, Wellformed, Has, Building, BeginCode, FieldsCode, OptionalCode, SendCode, Over;
    var n := |s.variables|;
    var a, b := BeginCode(x.min, x.max, x.flags), FieldsCode(n);
    var c, d := OptionalCode(n, x.endpoint, x.device), SendCode(n, n + x.Count() - 2, connection, x.protocol);
    BeginCodeTaken(s, x.min, x.max, x.flags);
    var t := Steps(s, a).state;
    FieldsTaken(s, t, n);
    var u := Steps(t, b).state;
    OptionalTaken(s, u, n, x.endpoint, x.device);
    var v := Steps(u, c).state;
    SendTaken(s, v, n, connection, x.protocol);
    StepsConcat(s, a, b + (c + d));
    StepsConcat(t, b, c + d);
    StepsConcat(u, c, d);
  }

  /** So is a raw frame. */
  lemma RawTaken(s: State, connection: nat, bytes: seq<Byte>, messageType: Byte, extension: Word16)
    requires Wellformed(s) && Has(s, connection, ConnectionVar)
    ensures var r := Steps(s, RawCode(connection, |s.variables|, bytes, messageType, extension));
      r.Appended? && Defined(s, r.state, [BytesVar])
  {
    hide Step, Steps, Wellformed, Has, Literals;
    var i := Instruction(SendRawFrame(messageType, extension), [connection, |s.variables|]);
    LiteralsThen(s, [LoadBytes(bytes)], [BytesVar], i);
    assert [BytesVar] + i.operation.OutputVariables() == [BytesVar];
  }
}
