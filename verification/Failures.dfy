/** Why a program does not compile: the first instruction that cannot, and the first of its inputs that is at fault. */
module Failures {
  import opened Wrappers
  import opened Ir
  import opened Compiler

  /** An input an instruction reads, and what it has to be. */
  datatype Read = Read(slot: nat, fits: Value -> bool)

  /** What an instruction reads, in order: the setup it edits after what it writes there. */
  function Reads(o: Operation): seq<Read> {
    var version, text, setup := (v: Value) => v.VersionValue?, (v: Value) => v.StrValue?, (v: Value) => v.SetupValue?;
    match o
    case Connect => [Read(0, (v: Value) => v.RoleValue?)]
    case SetVersions => [Read(1, version), Read(2, version), Read(0, setup)]
    case SetFlags => [Read(1, (v: Value) => v.FlagsValue?), Read(0, setup)]
    case SetEndpoint => [Read(1, text), Read(2, (v: Value) => v.PortValue?), Read(0, setup)]
    case SetDeviceInfo => [Read(1, text), Read(2, text), Read(3, text), Read(4, text), Read(0, setup)]
    case EndBuildSetupConnection(_) => [Read(0, setup)]
    case SendSetupConnection(_) => [Read(0, (v: Value) => v.ConnectionValue?), Read(1, setup)]
    case BeginOnSetupSuccess(_) => [Read(0, (v: Value) => v.AttemptValue?)]
    case SendRawFrame(_, _) => [Read(0, (v: Value) => v.ConnectionValue?), Read(1, (v: Value) => v.BytesValue?)]
    case AdvanceTime => [Read(0, (v: Value) => v.DurationValue?)]
    case _ => []
  }

  /** What is wrong with a read, if anything: no such input, no such value, or a value of another kind. */
  function Fault(values: seq<Value>, inputs: seq<nat>, r: Read): Option<CompilerError> {
    if r.slot >= |inputs| then Some(ShortInputs)
    else if inputs[r.slot] >= |values| then Some(MissingValue(inputs[r.slot]))
    else if !r.fits(values[inputs[r.slot]]) then Some(UnexpectedValue(inputs[r.slot]))
    else None
  }

  function FirstFault(values: seq<Value>, inputs: seq<nat>, wanted: seq<Read>): Option<CompilerError> {
    if wanted == [] then None
    else if Fault(values, inputs, wanted[0]).Some? then Fault(values, inputs, wanted[0])
    else FirstFault(values, inputs, wanted[1..])
  }

  /** A setup with a text of over 255 bytes has no encoding. */
  predicate Overlong(x: SetupSpec) {
    || |x.endpointHost| > 255 || |x.vendor| > 255 || |x.hardwareVersion| > 255 || |x.firmware| > 255
    || |x.deviceId| > 255
  }

  /** How many success blocks some code leaves open, ends with none open not counting. */
  function OpenAt(code: seq<Instruction>): nat {
    if code == [] then 0
    else
      var open, last := OpenAt(code[..|code| - 1]), code[|code| - 1].operation;
      if last.BeginOnSetupSuccess? then open + 1 else if last.EndOnSetupSuccess? && open > 0 then open - 1 else open
  }

  /** Why an instruction does not compile after some code that left these values, if it does not. */
  function Why(values: seq<Value>, code: seq<Instruction>, i: Instruction): Option<CompilerError> {
    var fault := FirstFault(values, i.inputs, Reads(i.operation));
    if fault.Some? then fault
    else if i.operation.EndOnSetupSuccess? && OpenAt(code) == 0 then Some(UnbalancedBlock)
    else if Unencodable(values, i) then Some(StringTooLong(i.inputs[1]))
    else None
  }

  function FaultAt(values: seq<Value>, inputs: seq<nat>, wanted: seq<Read>, k: nat): Option<CompilerError> {
    if k < |wanted| then Fault(values, inputs, wanted[k]) else None
  }

  lemma {:induction false} FirstOfFive(values: seq<Value>, inputs: seq<nat>, wanted: seq<Read>)
    requires |wanted| <= 5
    ensures FirstFault(values, inputs, wanted) ==
      if FaultAt(values, inputs, wanted, 0).Some? then FaultAt(values, inputs, wanted, 0)
      else if FaultAt(values, inputs, wanted, 1).Some? then FaultAt(values, inputs, wanted, 1)
      else if FaultAt(values, inputs, wanted, 2).Some? then FaultAt(values, inputs, wanted, 2)
      else if FaultAt(values, inputs, wanted, 3).Some? then FaultAt(values, inputs, wanted, 3)
      else FaultAt(values, inputs, wanted, 4)
    decreases |wanted|
  {
    hide Fault;
    if wanted != [] {
      FirstOfFive(values, inputs, wanted[1..]);
    }
  }

  /** Whether an instruction sends a setup that has no encoding. */
  predicate Unencodable(values: seq<Value>, i: Instruction) {
    && i.operation.SendSetupConnection? && |i.inputs| > 1 && i.inputs[1] < |values|
    && values[i.inputs[1]].SetupValue? && Overlong(values[i.inputs[1]].spec)
  }

  /** What an instruction asks for is refused by the first read at fault, or for a text that is too long. */
  lemma LowerFails(values: seq<Value>, i: Instruction)
    ensures var fault := FirstFault(values, i.inputs, Reads(i.operation));
      if fault.Some? then Lower(values, i) == Failure(fault.value)
      else if Unencodable(values, i) then Lower(values, i) == Failure(StringTooLong(i.inputs[1]))
      else Lower(values, i).Success?
  {
    hide FirstFault;
    FirstOfFive(values, i.inputs, Reads(i.operation));
    if i.operation.SetDeviceInfo? {
      DeviceFails(values, i);
    }
  }

  lemma DeviceFails(values: seq<Value>, i: Instruction)
    requires i.operation.SetDeviceInfo?
    ensures var fault := FirstFault(values, i.inputs, Reads(i.operation));
      if fault.Some? then Lower(values, i) == Failure(fault.value) else Lower(values, i).Success?
  {
    hide FirstFault;
    FirstOfFive(values, i.inputs, Reads(i.operation));
  }

  /** Blocks entered are still to be exited. */
  ghost predicate BlocksEntered(c: State) {
    forall b | b in c.blocks :: b < |c.actions| && c.actions[b].EnterOnSetupSuccess?
  }

  lemma StepFails(c: State, code: seq<Instruction>, index: nat, i: Instruction)
    requires BlocksEntered(c) && |c.blocks| == OpenAt(code)
    ensures var why := Why(c.values, code, i);
      if why.Some? then CompileStep(c, index, i) == Failure(why.value) else CompileStep(c, index, i).Success?
  {
    hide Lower, FirstFault, Reads, Encodable;
    LowerFails(c.values, i);
    if Lower(c.values, i).Success? {
      PlanTold(c.values, i);
      assert c.blocks != [] ==> c.blocks[|c.blocks| - 1] in c.blocks;
    }
  }

  /** What kind of thing an instruction asks for. */
  lemma PlanTold(values: seq<Value>, i: Instruction)
    requires Lower(values, i).Success?
    ensures var plan := Lower(values, i).value;
      && (plan.Edit? ==> plan.at < |values|) && (plan.Exit? <==> i.operation.EndOnSetupSuccess?)
      && (plan.Enter? <==> i.operation.BeginOnSetupSuccess?)
  {
  }

  lemma StepEnters(c: State, code: seq<Instruction>, index: nat, i: Instruction)
    requires BlocksEntered(c) && |c.blocks| == OpenAt(code) && CompileStep(c, index, i).Success?
    ensures BlocksEntered(CompileStep(c, index, i).value)
    ensures |CompileStep(c, index, i).value.blocks| == OpenAt(code + [i])
  {
    hide Lower, BlocksEntered, Apply;
    var plan := Lower(c.values, i).value;
    PlanTold(c.values, i);
    assert (code + [i])[..|code|] == code;
    ApplyEnters(c, index, plan);
  }

  lemma ApplyEnters(c: State, index: nat, plan: Plan)
    requires BlocksEntered(c) && Apply(c, index, plan).Success?
    ensures var c' := Apply(c, index, plan).value;
      && BlocksEntered(c') && (plan.Exit? ==> |c.blocks| > 0)
      && |c'.blocks| == if plan.Enter? then |c.blocks| + 1 else if plan.Exit? then |c.blocks| - 1 else |c.blocks|
  {
    hide SetupViolations;
    var c' := Apply(c, index, plan).value;
    forall b | b in c'.blocks ensures b < |c'.actions| && c'.actions[b].EnterOnSetupSuccess? {
      assert b in c.blocks || b == |c.actions|;
    }
  }

  lemma {:induction false} CompiledEnters(p: Program, n: nat)
    requires n <= |p.instructions| && CompileAll(Initial(p.context), p.instructions[..n], 0).Success?
    ensures var c := CompileAll(Initial(p.context), p.instructions[..n], 0).value;
      BlocksEntered(c) && |c.blocks| == OpenAt(p.instructions[..n])
    decreases n
  {
    hide BlocksEntered, CompileStep;
    if n == 0 {
      NoneEntered(p.context);
    } else {
      OneMore(p, n - 1);
      CompiledEnters(p, n - 1);
      var before := CompileAll(Initial(p.context), p.instructions[..n - 1], 0).value;
      assert p.instructions[..n] == p.instructions[..n - 1] + [p.instructions[n - 1]];
      StepEnters(before, p.instructions[..n - 1], n - 1, p.instructions[n - 1]);
    }
  }

  lemma NoneEntered(context: ProgramContext)
    ensures BlocksEntered(Initial(context)) && |Initial(context).blocks| == 0
  {
  }

  lemma OneMore(p: Program, n: nat)
    requires n < |p.instructions|
    ensures CompileAll(Initial(p.context), p.instructions[..n + 1], 0) ==
      var before := CompileAll(Initial(p.context), p.instructions[..n], 0);
      if before.Failure? then before else CompileStep(before.value, n, p.instructions[n])
  {
    hide CompileStep;
    assert p.instructions[..n + 1] == p.instructions[..n] + [p.instructions[n]];
    CompileAllConcat(Initial(p.context), p.instructions[..n], [p.instructions[n]], 0);
    assert [p.instructions[n]][1..] == [];
  }

  /** Instruction `n` is the first that does not compile, for this reason. */
  predicate FailsAt(p: Program, n: nat, e: CompilerError) {
    && n < |p.instructions|
    && var before := CompileAll(Initial(p.context), p.instructions[..n], 0);
    before.Success? && Why(before.value.values, p.instructions[..n], p.instructions[n]) == Some(e)
  }

  lemma {:induction false} PrefixFails(p: Program, n: nat)
    requires n <= |p.instructions|
    ensures CompileAll(Initial(p.context), p.instructions[..n], 0).Failure? <==>
            exists k: nat, e :: k < n && FailsAt(p, k, e)
    ensures forall k: nat, e | k < n && FailsAt(p, k, e) ::
      CompileAll(Initial(p.context), p.instructions[..n], 0) == Failure(e)
    decreases n
  {
    hide CompileStep, Why, BlocksEntered;
    if n > 0 {
      PrefixFails(p, n - 1);
      OneMore(p, n - 1);
      var before := CompileAll(Initial(p.context), p.instructions[..n - 1], 0);
      if before.Success? {
        CompiledEnters(p, n - 1);
        StepFails(before.value, p.instructions[..n - 1], n - 1, p.instructions[n - 1]);
        var why := Why(before.value.values, p.instructions[..n - 1], p.instructions[n - 1]);
        assert why.Some? ==> FailsAt(p, n - 1, why.value);
      }
    }
  }

  /**
   * Any program at all fails to compile exactly if there is an instruction that does not after those before it did, for
   * the first fault in reading its inputs, a success block to end that is not there, or a text too long to encode.
   */
  lemma FailsExactly(p: Program)
    ensures Compile(p).Failure? <==> exists n: nat, e :: FailsAt(p, n, e)
    ensures forall n: nat, e | FailsAt(p, n, e) :: Compile(p) == Failure(e)
  {
    hide FailsAt;
    var n := |p.instructions|;
    assert p.instructions[..n] == p.instructions;
    PrefixFails(p, n);
    forall k: nat, e | FailsAt(p, k, e) ensures k < n {
      FailsInside(p, k, e);
    }
  }

  lemma FailsInside(p: Program, k: nat, e: CompilerError)
    requires FailsAt(p, k, e)
    ensures k < |p.instructions|
  {
  }
}
