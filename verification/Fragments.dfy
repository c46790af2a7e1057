/** What the generators' fragments compile to. */
module Fragments {
  import opened Wrappers
  import opened Ir
  import opened Compiler
  import opened Generators

  function LiteralValue(op: Operation): Value {
    match op
    case LoadRole(v) => RoleValue(v)
    case LoadVersion(v) => VersionValue(v)
    case LoadFlags(v) => FlagsValue(v)
    case LoadPort(v) => PortValue(v)
    case LoadStr(v) => StrValue(v)
    case LoadBytes(v) => BytesValue(v)
    case _ => NopValue
  }

  function LiteralValues(ops: seq<Operation>): (r: seq<Value>)
    ensures |r| == |ops|
  {
    seq(|ops|, k requires 0 <= k < |ops| => LiteralValue(ops[k]))
  }

  predicate Loads(op: Operation) {
    op.LoadRole? || op.LoadVersion? || op.LoadFlags? || op.LoadPort? || op.LoadStr? || op.LoadBytes?
  }

  lemma CompileOne(c: State, i: Instruction, index: nat)
    ensures CompileAll(c, [i], index) == CompileStep(c, index, i)
  {
    assert [i][1..] == [];
    var r := CompileStep(c, index, i);
    if r.Success? {
      assert CompileAll(r.value, [], index + 1) == Success(r.value);
    }
  }

  lemma CompileTwo(c: State, mid: State, d: State, a: seq<Instruction>, b: seq<Instruction>, index: nat)
    requires CompileAll(c, a, index) == Success(mid) && CompileAll(mid, b, index + |a|) == Success(d)
    ensures CompileAll(c, a + b, index) == Success(d)
  {
    hide CompileAll;
    CompileAllConcat(c, a, b, index);
  }

  lemma {:induction false} LiteralsCompile(c: State, ops: seq<Operation>, index: nat)
    requires forall k | 0 <= k < |ops| :: Loads(ops[k])
    ensures CompileAll(c, Literals(ops), index) == Success(PushValues(c, LiteralValues(ops)))
    decreases |ops|
  {
    if ops == [] {
      assert Literals(ops) == [];
      assert PushValues(c, LiteralValues(ops)) == c;
    } else {
      var i := Instruction(ops[0], []);
      assert Literals(ops)[0] == i && Literals(ops)[1..] == Literals(ops[1..]);
      assert Loads(ops[0]);
      var mid := PushValues(c, [LiteralValue(ops[0])]);
      LiteralStep(c, i, index);
      LiteralsCompile(mid, ops[1..], index + 1);
      assert LiteralValues(ops) == [LiteralValue(ops[0])] + LiteralValues(ops[1..]);
      assert PushValues(c, LiteralValues(ops)) == PushValues(mid, LiteralValues(ops[1..]));
    }
  }

  lemma LiteralStep(c: State, i: Instruction, index: nat)
    requires Loads(i.operation)
    ensures CompileStep(c, index, i) == Success(PushValues(c, [LiteralValue(i.operation)]))
  {
  }

  lemma OpenCompiles(c: State, role: nat, index: nat)
    ensures CompileAll(c, OpenCode(role, |c.values|), index)
      == Success(OpenOn(PushValues(c, [RoleValue(role)]), index + 1, role))
  {
    hide CompileAll, Literals, CompileStep;
    var ops, i := [LoadRole(role)], Instruction(Operation.Connect, [|c.values|]);
    LiteralsCompile(c, ops, index);
    assert LiteralValues(ops) == [RoleValue(role)];
    var mid := PushValues(c, [RoleValue(role)]);
    assert |Literals(ops)| == 1 by { LiteralsCount(ops); }
    ConnectStep(mid, i, index + 1, role);
    CompileOne(mid, i, index + 1);
    CompileTwo(c, mid, OpenOn(mid, index + 1, role), Literals(ops), [i], index);
  }

  lemma LiteralsCount(ops: seq<Operation>)
    ensures |Literals(ops)| == |ops|
  {
  }

  lemma ConnectStep(c: State, i: Instruction, index: nat, role: nat)
    requires i.operation.Connect? && |i.inputs| == 1 && i.inputs[0] < |c.values|
      && c.values[i.inputs[0]] == RoleValue(role)
    ensures CompileStep(c, index, i) == Success(OpenOn(c, index, role))
  {
  }

  /** `d` is `c` with more values, the setup being built among them. */
  predicate Staged(c: State, d: State, x: Setup, spec: SetupSpec) {
    var n := |c.values|;
    && d == c.(values := d.values) && c.values <= d.values && |d.values| >= n + 4
    && d.values[n] == VersionValue(x.min) && d.values[n + 1] == VersionValue(x.max)
      && d.values[n + 2] == FlagsValue(x.flags)
    && d.values[n + 3] == SetupValue(spec)
  }

  lemma BeginCompiles(c: State, x: Setup, index: nat) returns (d: State)
    ensures CompileAll(c, BeginCode(x.min, x.max, x.flags), index) == Success(d)
      && |BeginCode(x.min, x.max, x.flags)| == 4
    ensures Staged(c, d, x, DEFAULT_SPEC) && |d.values| == |c.values| + 4
  {
    hide CompileAll, Literals, CompileStep;
    var ops, i := [LoadVersion(x.min), LoadVersion(x.max), LoadFlags(x.flags)],
      Instruction(BeginBuildSetupConnection, []);
    LiteralsCompile(c, ops, index);
    LiteralsCount(ops);
    var mid := PushValues(c, LiteralValues(ops));
    d := PushValues(mid, [SetupValue(DEFAULT_SPEC)]);
    BeginStep(mid, i, index + 3);
    CompileOne(mid, i, index + 3);
    CompileTwo(c, mid, d, Literals(ops), [i], index);
  }

  lemma BeginStep(c: State, i: Instruction, index: nat)
    requires i.operation.BeginBuildSetupConnection?
    ensures CompileStep(c, index, i) == Success(PushValues(c, [SetupValue(DEFAULT_SPEC)]))
  {
  }

  /** One edit of the setup being built. */
  lemma EditStep(c: State, d: State, x: Setup, spec: SetupSpec, i: Instruction, spec': SetupSpec, index: nat)
    returns (e: State)
    requires Staged(c, d, x, spec) && Lower(d.values, i) == Success(Edit(|c.values| + 3, spec'))
    ensures CompileStep(d, index, i) == Success(e) && Staged(c, e, x, spec') && |e.values| == |d.values|
    ensures CompileAll(d, [i], index) == Success(e)
  {
    hide CompileAll, Lower;
    e := d.(values := d.values[|c.values| + 3 := SetupValue(spec')]);
    CompileOne(d, i, index);
  }

  lemma FieldsCompile(c: State, d: State, x: Setup, index: nat) returns (e: State)
    requires Staged(c, d, x, DEFAULT_SPEC)
    ensures CompileAll(d, FieldsCode(|c.values|), index) == Success(e) && |FieldsCode(|c.values|)| == 2
    ensures Staged(c, e, x, DEFAULT_SPEC.(minVersion := x.min, maxVersion := x.max, flags := x.flags))
      && |e.values| == |d.values|
  {
    hide CompileAll, CompileStep;
    var n := |c.values|;
    var i, j := Instruction(SetVersions, [n + 3, n, n + 1]), Instruction(SetFlags, [n + 3, n + 2]);
    var mid := EditStep(c, d, x, DEFAULT_SPEC, i, DEFAULT_SPEC.(minVersion := x.min, maxVersion := x.max), index);
    e := EditStep(c, mid, x, DEFAULT_SPEC.(minVersion := x.min, maxVersion := x.max), j,
      DEFAULT_SPEC.(minVersion := x.min, maxVersion := x.max, flags := x.flags), index + 1);
    CompileTwo(d, mid, e, [i], [j], index);
  }

  lemma StagedMore(c: State, d: State, x: Setup, spec: SetupSpec, more: seq<Value>)
    requires Staged(c, d, x, spec)
    ensures Staged(c, PushValues(d, more), x, spec)
  {
  }

  lemma EndpointCompiles(c: State, d: State, x: Setup, spec: SetupSpec, index: nat) returns (e: State)
    requires Staged(c, d, x, spec) && spec.endpointHost == DEFAULT_HOST && spec.endpointPort == 0
    ensures CompileAll(d, EndpointCode(|c.values|, |d.values|), index) == Success(e)
    ensures Staged(c, e, x, spec) && |e.values| == |d.values| + 2
  {
    hide CompileAll, Literals, CompileStep;
    var ops, at := [LoadStr(DEFAULT_HOST), LoadPort(0)], |d.values|;
    var i := Instruction(SetEndpoint, [|c.values| + 3, at, at + 1]);
    LiteralsCompile(d, ops, index);
    LiteralsCount(ops);
    var mid := PushValues(d, LiteralValues(ops));
    StagedMore(c, d, x, spec, LiteralValues(ops));
    e := EditStep(c, mid, x, spec, i, spec, index + 2);
    CompileTwo(d, mid, e, Literals(ops), [i], index);
  }

  lemma DeviceCompiles(c: State, d: State, x: Setup, spec: SetupSpec, index: nat) returns (e: State)
    requires Staged(c, d, x, spec)
    requires spec.vendor == DEFAULT_VENDOR && spec.hardwareVersion == [] && spec.firmware == [] && spec.deviceId == []
    ensures CompileAll(d, DeviceCode(|c.values|, |d.values|), index) == Success(e)
    ensures Staged(c, e, x, spec) && |e.values| == |d.values| + 4
  {
    hide CompileAll, Literals, CompileStep;
    var ops, at := [LoadStr(DEFAULT_VENDOR), LoadStr([]), LoadStr([]), LoadStr([])], |d.values|;
    var i := Instruction(SetDeviceInfo, [|c.values| + 3, at, at + 1, at + 2, at + 3]);
    LiteralsCompile(d, ops, index);
    LiteralsCount(ops);
    var mid := PushValues(d, LiteralValues(ops));
    StagedMore(c, d, x, spec, LiteralValues(ops));
    e := EditStep(c, mid, x, spec, i, spec, index + 4);
    CompileTwo(d, mid, e, Literals(ops), [i], index);
  }

  lemma OptionalCompiles(c: State, d: State, x: Setup, spec: SetupSpec, index: nat) returns (e: State)
    requires Staged(c, d, x, spec) && |d.values| == |c.values| + 4
    requires spec == DEFAULT_SPEC.(minVersion := spec.minVersion, maxVersion := spec.maxVersion, flags := spec.flags)
    ensures CompileAll(d, OptionalCode(|c.values|, x.endpoint, x.device), index) == Success(e)
    ensures Staged(c, e, x, spec) && |e.values| == |c.values| + x.Count() - 2
  {
    hide CompileAll, Staged, EndpointCode, DeviceCode;
    var n := |c.values|;
    var a := if x.endpoint then EndpointCode(n, n + 4) else [];
    var b := if x.device then DeviceCode(n, n + 4 + if x.endpoint then 2 else 0) else [];
    NothingCompiles(d, index);
    var mid := d;
    if x.endpoint {
      mid := EndpointCompiles(c, d, x, spec, index);
    }
    NothingCompiles(mid, index + |a|);
    e := mid;
    if x.device {
      e := DeviceCompiles(c, mid, x, spec, index + |a|);
    }
    CompileTwo(d, mid, e, a, b, index);
  }

  lemma NothingCompiles(c: State, index: nat)
    ensures CompileAll(c, [], index) == Success(c)
  {
  }

  /** The setup a fragment sends. */
  function SpecOf(x: Setup): SetupSpec {
    DEFAULT_SPEC.(protocol := x.protocol, minVersion := x.min, maxVersion := x.max, flags := x.flags)
  }

  lemma SendCompiles(c: State, d: State, x: Setup, spec: SetupSpec, connection: nat, y: nat, index: nat)
    requires Staged(c, d, x, spec) && spec.(protocol := x.protocol) == SpecOf(x)
    requires connection < |c.values| && c.values[connection] == ConnectionValue(y)
    ensures CompileAll(d, SendCode(|c.values|, |d.values|, connection, x.protocol), index) ==
      Success(SetupOn(PushValues(d, [SetupValue(SpecOf(x))]), index + 1, y, SpecOf(x), x.protocol))
  {
    hide CompileAll, CompileStep, SetupOn;
    var i := Instruction(EndBuildSetupConnection(x.protocol), [|c.values| + 3]);
    var j := Instruction(SendSetupConnection(x.protocol), [connection, |d.values|]);
    var mid := PushValues(d, [SetupValue(SpecOf(x))]);
    EndStep(d, i, index, spec, x.protocol);
    CompileOne(d, i, index);
    SendStep(mid, j, index + 1, y, SpecOf(x), x.protocol);
    CompileOne(mid, j, index + 1);
    CompileTwo(d, mid, SetupOn(mid, index + 1, y, SpecOf(x), x.protocol), [i], [j], index);
  }

  lemma EndStep(c: State, i: Instruction, index: nat, spec: SetupSpec, protocol: Protocol)
    requires i.operation == EndBuildSetupConnection(protocol) && |i.inputs| == 1
    requires i.inputs[0] < |c.values| && c.values[i.inputs[0]] == SetupValue(spec)
    ensures CompileStep(c, index, i) == Success(PushValues(c, [SetupValue(spec.(protocol := protocol))]))
  {
  }

  lemma SendStep(c: State, i: Instruction, index: nat, y: nat, spec: SetupSpec, protocol: Protocol)
    requires i.operation == SendSetupConnection(protocol) && |i.inputs| == 2 && Encodable(spec)
    requires i.inputs[0] < |c.values| && c.values[i.inputs[0]] == ConnectionValue(y)
    requires i.inputs[1] < |c.values| && c.values[i.inputs[1]] == SetupValue(spec)
    ensures CompileStep(c, index, i) == Success(SetupOn(c, index, y, spec, protocol))
  {
    hide Encodable, SetupOn;
  }

  /** A setup fragment compiles to sending exactly the setup it asks for, whichever optional fields it writes. */
  lemma SetupCompiles(c: State, connection: nat, y: nat, x: Setup, index: nat) returns (d: State, last: nat)
    requires connection < |c.values| && c.values[connection] == ConnectionValue(y)
    ensures CompileAll(c, SetupCode(|c.values|, connection, x), index)
      == Success(SetupOn(d, last, y, SpecOf(x), x.protocol))
    ensures d == c.(values := d.values) && c.values <= d.values && |d.values| == |c.values| + x.Count() - 1
  {
    hide CompileAll, CompileStep, SetupOn, BeginCode, FieldsCode, OptionalCode, SendCode;
    var n := |c.values|;
    var a, b := BeginCode(x.min, x.max, x.flags), FieldsCode(n);
    var o, s := OptionalCode(n, x.endpoint, x.device), SendCode(n, n + x.Count() - 2, connection, x.protocol);
    var spec := DEFAULT_SPEC.(minVersion := x.min, maxVersion := x.max, flags := x.flags);
    var t := BeginCompiles(c, x, index);
    var u := FieldsCompile(c, t, x, index + |a|);
    var v := OptionalCompiles(c, u, x, spec, index + |a| + |b|);
    SendCompiles(c, v, x, spec, connection, y, index + |a| + |b| + |o|);
    d := PushValues(v, [SetupValue(SpecOf(x))]);
    last := index + |a| + |b| + |o| + 1;
    var r := SetupOn(d, last, y, SpecOf(x), x.protocol);
    CompileTwo(u, v, r, o, s, index + |a| + |b|);
    CompileTwo(t, u, r, b, o + s, index + |a|);
    CompileTwo(c, t, r, a, b + (o + s), index);
  }

  lemma RawCompiles(c: State, connection: nat, y: nat, bytes: seq<Byte>, messageType: Byte, extension: Word16,
    index: nat)
    requires connection < |c.values| && c.values[connection] == ConnectionValue(y)
    ensures CompileAll(c, RawCode(connection, |c.values|, bytes, messageType, extension), index) ==
      Success(FrameOn(PushValues(c, [BytesValue(bytes)]), index + 1, y, extension, messageType, bytes))
  {
    hide CompileAll, CompileStep, Literals;
    var ops, i := [LoadBytes(bytes)], Instruction(SendRawFrame(messageType, extension), [connection, |c.values|]);
    LiteralsCompile(c, ops, index);
    LiteralsCount(ops);
    assert LiteralValues(ops) == [BytesValue(bytes)];
    var mid := PushValues(c, [BytesValue(bytes)]);
    FrameStep(mid, i, index + 1, y, bytes);
    CompileOne(mid, i, index + 1);
    CompileTwo(c, mid, FrameOn(mid, index + 1, y, extension, messageType, bytes), Literals(ops), [i], index);
  }

  lemma FrameStep(c: State, i: Instruction, index: nat, y: nat, bytes: seq<Byte>)
    requires i.operation.SendRawFrame? && |i.inputs| == 2
    requires i.inputs[0] < |c.values| && c.values[i.inputs[0]] == ConnectionValue(y)
    requires i.inputs[1] < |c.values| && c.values[i.inputs[1]] == BytesValue(bytes)
    ensures CompileStep(c, index, i)
      == Success(FrameOn(c, index, y, i.operation.extensionType, i.operation.messageType, bytes))
  {
    hide FrameOn;
  }
}
