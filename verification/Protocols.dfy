/** The protocol a type names is the protocol a setup is for, from where it is built to where its success is awaited. */
module Protocols {
  import opened Wrappers
  import opened Ir
  import B = Builder
  import opened Scoping
  import opened Compiler
  import opened Soundness

  type Setups = map<nat, SetupSpec>

  /** A value is for the protocol its variable's type names, if it names one. */
  predicate IsFor(setups: Setups, kind: Variable, v: Value) {
    match kind
    case ConstSetupVar(p) => v.SetupValue? && v.spec.protocol == p
    case AttemptVar(p) => v.AttemptValue? && SessionFor(setups, v.session, p)
    case _ => true
  }

  /** The setup a session sent is for the protocol. */
  predicate SessionFor(setups: Setups, session: nat, p: Protocol) {
    session in setups && setups[session].protocol == p
  }

  ghost predicate ValuesFor(b: B.State, c: State) {
    && |c.values| == |b.variables|
    && forall v | 0 <= v < |c.values| :: IsFor(c.metadata.sessionSetups, b.variables[v].kind, c.values[v])
  }

  /** The instruction an action comes from begins a success block for the protocol. */
  predicate BeginsFor(code: seq<Instruction>, origin: nat, setups: Setups, session: nat) {
    && origin < |code| && code[origin].operation.BeginOnSetupSuccess?
    && SessionFor(setups, session, code[origin].operation.protocol)
  }

  /** Answers are awaited, and success blocks entered, for the protocol of the setup that was sent. */
  predicate ActionFor(code: seq<Instruction>, setups: Setups, a: Action, origin: nat) {
    && (a.AwaitSetupResponse? ==> SessionFor(setups, a.session, a.protocol))
    && (a.EnterOnSetupSuccess? ==> BeginsFor(code, origin, setups, a.session))
  }

  ghost predicate ActionsFor(code: seq<Instruction>, c: State) {
    && |c.metadata.actionInstructions| == |c.actions|
    && forall j | 0 <= j < |c.actions| ::
         ActionFor(code, c.metadata.sessionSetups, c.actions[j], c.metadata.actionInstructions[j])
  }

  ghost predicate ProtocolsKept(b: B.State, c: State) {
    && ValuesFor(b, c) && ActionsFor(b.instructions, c)
    && forall s | s in c.metadata.sessionSetups :: s < c.sessions
  }

  // ---------------------------------------------------------------------------------------------
  // One instruction
  // ---------------------------------------------------------------------------------------------

  /** What an admissible instruction asks for is for the protocol it names. */
  ghost predicate PlanFor(b: B.State, c: State, op: Operation, plan: Plan) {
    match plan
    case Define(vs) =>
      |vs| == op.Defines() && forall n | 0 <= n < |vs| :: IsFor(c.metadata.sessionSetups, NewKinds(op)[n], vs[n])
    case Edit(at, _) => at < |b.variables| && b.variables[at].kind == MutSetupVar && op.Defines() == 0
    case Open(_) => op.Connect?
    case Setup(_, spec, protocol) => op == SendSetupConnection(protocol) && spec.protocol == protocol
    case Enter(session) => op.BeginOnSetupSuccess? && SessionFor(c.metadata.sessionSetups, session, op.protocol)
    case Emit(action) => op.Defines() == 0 && (action.AdvanceTime? || action.Probe?)
    case _ => op.Defines() == 0
  }

  /** An input is of the kind that is wanted, and its value for the protocol that kind names. */
  lemma InputFor(b: B.State, c: State, i: Instruction, k: nat)
    requires ValuesFor(b, c) && Admissible(b, i) && k < |i.operation.InputVariables()|
    ensures k < |i.inputs| && i.inputs[k] < |c.values| && i.inputs[k] < |b.variables|
    ensures b.variables[i.inputs[k]].kind == i.operation.InputVariables()[k]
    ensures IsFor(c.metadata.sessionSetups, i.operation.InputVariables()[k], c.values[i.inputs[k]])
  {
    hide IsFor, Operation.InputVariables;
  }

  lemma LowerFor(b: B.State, c: State, i: Instruction)
    requires ValuesFor(b, c) && Admissible(b, i) && Lower(c.values, i).Success?
    ensures PlanFor(b, c, i.operation, Lower(c.values, i).value)
  {
    hide ValuesFor, Admissible, Encodable, PlanFor, Lower;
    var n := |i.operation.InputVariables()|;
    if n > 0 {
      InputFor(b, c, i, 0);
    }
    if n > 1 {
      InputFor(b, c, i, 1);
    }
    if i.operation.SetVersions? || i.operation.SetFlags? || i.operation.SetEndpoint? || i.operation.SetDeviceInfo? {
      EditFor(b, c, i);
    } else {
      OtherFor(b, c, i);
    }
  }

  lemma EditFor(b: B.State, c: State, i: Instruction)
    requires i.operation.SetVersions? || i.operation.SetFlags? || i.operation.SetEndpoint? || i.operation.SetDeviceInfo?
    requires Lower(c.values, i).Success? && |i.inputs| > 0 && i.inputs[0] < |b.variables|
    requires b.variables[i.inputs[0]].kind == MutSetupVar
    ensures PlanFor(b, c, i.operation, Lower(c.values, i).value)
  {
  }

  lemma OtherFor(b: B.State, c: State, i: Instruction)
    requires Lower(c.values, i).Success?
    requires !(i.operation.SetVersions? || i.operation.SetFlags? || i.operation.SetEndpoint?
               || i.operation.SetDeviceInfo?)
    requires forall k | 0 <= k < |i.operation.InputVariables()| && k < 2 ::
        k < |i.inputs| && i.inputs[k] < |c.values|
        && IsFor(c.metadata.sessionSetups, i.operation.InputVariables()[k], c.values[i.inputs[k]])
    ensures PlanFor(b, c, i.operation, Lower(c.values, i).value)
  {
    hide Encodable;
  }

  /** Sessions sent before still have their setup. */
  lemma ForStays(setups: Setups, more: Setups, kind: Variable, v: Value)
    requires IsFor(setups, kind, v) && forall s | s in setups :: s in more && more[s] == setups[s]
    ensures IsFor(more, kind, v)
  {
  }

  /** What carrying it out adds to the values is for the protocols their kinds name; what it edits names none. */
  lemma ApplyValuesFor(b: B.State, c: State, op: Operation, plan: Plan, index: nat, c': State)
    requires ProtocolsKept(b, c) && PlanFor(b, c, op, plan) && Apply(c, index, plan) == Success(c')
    ensures |c'.values| == |c.values| + op.Defines()
    ensures forall v | 0 <= v < |c.values| :: IsFor(c'.metadata.sessionSetups, b.variables[v].kind, c'.values[v])
    ensures forall n | 0 <= n < op.Defines() ::
      IsFor(c'.metadata.sessionSetups, NewKinds(op)[n], c'.values[|c.values| + n])
  {
    hide SetupViolations, ActionsFor, PlanFor, Apply, Operation.Defines, NewKinds, IsFor;
    NewValuesFor(b, c, op, plan, index, c');
    SetupsStay(c, plan, index, c');
    forall v | 0 <= v < |c.values| ensures IsFor(c'.metadata.sessionSetups, b.variables[v].kind, c'.values[v]) {
      ForStays(c.metadata.sessionSetups, c'.metadata.sessionSetups, b.variables[v].kind, c.values[v]);
      OldValueFor(b, c, op, plan, index, c', v);
    }
  }

  lemma OldValueFor(b: B.State, c: State, op: Operation, plan: Plan, index: nat, c': State, v: nat)
    requires v < |c.values| == |b.variables| && PlanFor(b, c, op, plan) && Apply(c, index, plan) == Success(c')
    ensures v < |c'.values| && (c'.values[v] == c.values[v] || b.variables[v].kind == MutSetupVar)
    ensures b.variables[v].kind == MutSetupVar ==>
      IsFor(c'.metadata.sessionSetups, b.variables[v].kind, c'.values[v])
  {
    hide SetupViolations;
  }

  lemma NewValuesFor(b: B.State, c: State, op: Operation, plan: Plan, index: nat, c': State)
    requires ProtocolsKept(b, c) && PlanFor(b, c, op, plan) && Apply(c, index, plan) == Success(c')
    ensures |c'.values| == |c.values| + op.Defines()
    ensures forall n | 0 <= n < op.Defines() ::
      IsFor(c'.metadata.sessionSetups, NewKinds(op)[n], c'.values[|c.values| + n])
  {
    hide SetupViolations, ActionsFor, ValuesFor;
    SetupsStay(c, plan, index, c');
    if plan.Define? {
      forall n | 0 <= n < op.Defines() ensures IsFor(c'.metadata.sessionSetups, NewKinds(op)[n], plan.values[n]) {
        ForStays(c.metadata.sessionSetups, c'.metadata.sessionSetups, NewKinds(op)[n], plan.values[n]);
      }
    }
  }

  lemma SetupsStay(c: State, plan: Plan, index: nat, c': State)
    requires Apply(c, index, plan) == Success(c') && forall s | s in c.metadata.sessionSetups :: s < c.sessions
    ensures forall s | s in c.metadata.sessionSetups ::
      s in c'.metadata.sessionSetups && c'.metadata.sessionSetups[s] == c.metadata.sessionSetups[s]
    ensures forall s | s in c'.metadata.sessionSetups :: s < c'.sessions
  {
    hide SetupViolations;
  }

  lemma ActionStays(code: seq<Instruction>, i: Instruction, setups: Setups, more: Setups, a: Action, origin: nat)
    requires ActionFor(code, setups, a, origin) && forall s | s in setups :: s in more && more[s] == setups[s]
    ensures ActionFor(code + [i], more, a, origin)
  {
  }

  lemma ApplyActionsFor(b: B.State, c: State, i: Instruction, plan: Plan, c': State)
    requires ProtocolsKept(b, c) && PlanFor(b, c, i.operation, plan)
    requires Apply(c, |b.instructions|, plan) == Success(c')
    ensures ActionsFor(b.instructions + [i], c')
  {
    hide SetupViolations, ValuesFor, IsFor, ActionFor, SessionFor;
    var code, setups := b.instructions, c'.metadata.sessionSetups;
    SetupsStay(c, plan, |code|, c');
    assert |c'.metadata.actionInstructions| == |c'.actions| >= |c.actions|;
    forall j | 0 <= j < |c'.actions|
      ensures ActionFor(code + [i], setups, c'.actions[j], c'.metadata.actionInstructions[j])
    {
      if j < |c.actions| {
        ActionStays(code, i, c.metadata.sessionSetups, setups, c.actions[j], c.metadata.actionInstructions[j]);
        SameButEndFor(code + [i], setups, c.actions[j], c'.actions[j], c.metadata.actionInstructions[j]);
      } else {
        NewActionFor(b, c, i, plan, c', j);
      }
    }
  }

  /** Where a block ends does not matter. */
  lemma SameButEndFor(code: seq<Instruction>, setups: Setups, a: Action, a': Action, origin: nat)
    requires ActionFor(code, setups, a, origin)
    requires a' == a || (a.EnterOnSetupSuccess? && a'.EnterOnSetupSuccess? && a'.session == a.session)
    ensures ActionFor(code, setups, a', origin)
  {
  }

  lemma NewActionFor(b: B.State, c: State, i: Instruction, plan: Plan, c': State, j: nat)
    requires PlanFor(b, c, i.operation, plan) && Apply(c, |b.instructions|, plan) == Success(c')
    requires |c.metadata.actionInstructions| == |c.actions| <= j < |c'.actions|
    ensures j < |c'.metadata.actionInstructions|
    ensures ActionFor(b.instructions + [i], c'.metadata.sessionSetups, c'.actions[j], c'.metadata.actionInstructions[j])
  {
    hide SetupViolations;
    assert (b.instructions + [i])[|b.instructions|] == i;
    assert c'.metadata.actionInstructions[j] == |b.instructions|;
    match plan {
      case Exit => assert c'.actions[j] == ExitBlock;
      case Enter(session) => assert c'.actions[j] == EnterOnSetupSuccess(session, PENDING);
      case Setup(_, spec, protocol) => assert SessionFor(c'.metadata.sessionSetups, c.sessions, protocol);
      case Emit(action) => assert c'.actions[j] == action;
      case _ =>
    }
  }

  lemma StepFor(b: B.State, c: State, i: Instruction)
    requires Wellformed(b) && ProtocolsKept(b, c) && B.Step(b, i).Appended?
    requires CompileStep(c, |b.instructions|, i).Success?
    ensures ProtocolsKept(B.Step(b, i).state, CompileStep(c, |b.instructions|, i).value)
  {
    hide B.Step, Wellformed, Admissible, Lower, Apply, PlanFor, IsFor, ActionsFor, ValuesFor;
    StepTaken(b, i);
    AcceptsAdmissible(b, i);
    KeptValues(b, c);
    LowerFor(b, c, i);
    var plan, b' := Lower(c.values, i).value, B.Step(b, i).state;
    var c' := Apply(c, |b.instructions|, plan).value;
    ApplyActionsFor(b, c, i, plan, c');
    SetupsStay(c, plan, |b.instructions|, c');
    ApplyValuesFor(b, c, i.operation, plan, |b.instructions|, c');
    GrewFor(b, Left(b, i.operation), c, i, b', c');
  }

  lemma KeptValues(b: B.State, c: State)
    requires ProtocolsKept(b, c)
    ensures ValuesFor(b, c)
  {
  }

  lemma GrewFor(b: B.State, mid: B.State, c: State, i: Instruction, b': B.State, c': State)
    requires |c.values| == |b.variables| && mid.variables == b.variables && Grew(mid, i, b')
    requires |c'.values| == |c.values| + i.operation.Defines()
    requires forall v | 0 <= v < |c.values| :: IsFor(c'.metadata.sessionSetups, b.variables[v].kind, c'.values[v])
    requires forall n | 0 <= n < i.operation.Defines() ::
      IsFor(c'.metadata.sessionSetups, NewKinds(i.operation)[n], c'.values[|c.values| + n])
    ensures ValuesFor(b', c')
  {
    hide NewVariable, NewKinds, Operation.Defines, IsFor;
    forall v | 0 <= v < |c'.values| ensures IsFor(c'.metadata.sessionSetups, b'.variables[v].kind, c'.values[v]) {
      if v >= |c.values| {
        NewKind(mid, i.operation, v - |c.values|);
        assert c'.values[v] == c'.values[|c.values| + (v - |c.values|)];
      }
    }
  }

  // ---------------------------------------------------------------------------------------------
  // Every program
  // ---------------------------------------------------------------------------------------------

  lemma {:induction false} StepsFor(b: B.State, c: State, code: seq<Instruction>)
    requires Wellformed(b) && ProtocolsKept(b, c) && B.Steps(b, code).Appended?
    requires CompileAll(c, code, |b.instructions|).Success?
    ensures ProtocolsKept(B.Steps(b, code).state, CompileAll(c, code, |b.instructions|).value)
    ensures B.Steps(b, code).state.instructions == b.instructions + code
    decreases |code|
  {
    hide B.Step, Wellformed, ProtocolsKept, CompileStep, Grew, Accepts;
    if code == [] {
      assert b.instructions + code == b.instructions;
    } else {
      StepTaken(b, code[0]);
      StepFor(b, c, code[0]);
      StepsFor(B.Step(b, code[0]).state, CompileStep(c, |b.instructions|, code[0]).value, code[1..]);
      assert b.instructions + [code[0]] + code[1..] == b.instructions + code;
    }
  }

  lemma InitialFor(context: ProgramContext)
    ensures ProtocolsKept(B.New(context), Initial(context))
  {
  }

  /**
   * In a compiled valid program every answer is awaited for the protocol of the setup its session sent, and every
   * success block that begins for a protocol is entered on a session whose setup is for that protocol.
   */
  lemma ProtocolsAgree(p: Program)
    requires B.StaticallyValid(p) && Compile(p).Success?
    ensures var cp := Compile(p).value;
      var setups, origins := cp.metadata.sessionSetups, cp.metadata.actionInstructions;
      && |origins| == |cp.actions|
      && forall j | 0 <= j < |cp.actions| ::
        && (cp.actions[j].AwaitSetupResponse? ==>
              cp.actions[j].session in setups && setups[cp.actions[j].session].protocol == cp.actions[j].protocol)
        && (cp.actions[j].EnterOnSetupSuccess? ==>
              && origins[j] < |p.instructions|
              && cp.actions[j].session in setups
              && p.instructions[origins[j]].operation == BeginOnSetupSuccess(setups[cp.actions[j].session].protocol))
  {
    NewWellformed(p.context);
    InitialFor(p.context);
    hide B.Steps, CompileAll, ValuesFor;
    StepsFor(B.New(p.context), Initial(p.context), p.instructions);
    var cp := Compile(p).value;
    assert [] + p.instructions == p.instructions;
    forall j | 0 <= j < |cp.actions|
      ensures ActionFor(p.instructions, cp.metadata.sessionSetups, cp.actions[j], cp.metadata.actionInstructions[j])
    {
    }
  }
}
