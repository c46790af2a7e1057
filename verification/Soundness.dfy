/** Validity makes the compiler total: its values stay typed by the builder's variables, its blocks by its scopes. */
module Soundness {
  import opened Wrappers
  import opened Ir
  import B = Builder
  import opened Scoping
  import opened Compiler

  /** A value of the shape its variable's kind promises, its ids already handed out. */
  predicate HasShape(v: Value, kind: Variable, connections: nat, sessions: nat) {
    match kind
    case NopVar => v.NopValue?
    case RoleVar => v.RoleValue?
    case ConnectionVar => v.ConnectionValue? && v.connection < connections
    case AttemptVar(_) => v.AttemptValue? && v.session < sessions && v.connection < connections
    case SessionVar(_) => v.SessionValue?
    case VersionVar => v.VersionValue?
    case FlagsVar => v.FlagsValue?
    case PortVar => v.PortValue?
    case StrVar => v.StrValue?
    case BytesVar => v.BytesValue?
    case DurationVar => v.DurationValue?
    case MutSetupVar => v.SetupValue?
    case ConstSetupVar(_) => v.SetupValue?
  }

  ghost predicate ValuesTyped(b: B.State, c: State) {
    && |c.values| == |b.variables|
    && b.context.numConnections <= c.connections
    && forall v | 0 <= v < |c.values| :: HasShape(c.values[v], b.variables[v].kind, c.connections, c.sessions)
  }

  /** The instructions that began the success blocks among some scopes, outermost first. */
  function SuccessBegins(scopes: seq<B.Scope>): seq<nat> {
    if scopes == [] then []
    else
      var last := scopes[|scopes| - 1];
      SuccessBegins(scopes[..|scopes| - 1])
      + if last.context == OnSetupSuccess && last.begin.Some? then [last.begin.value] else []
  }

  /** The compiler's open blocks are the enters of the success scopes the builder has open. */
  ghost predicate BlocksMatch(c: State, begins: seq<nat>) {
    && |c.metadata.actionInstructions| == |c.actions|
    && |c.blocks| == |begins|
    && (forall j | 0 <= j < |c.blocks| ::
          && c.blocks[j] < |c.actions|
          && c.actions[c.blocks[j]].EnterOnSetupSuccess?
          && c.metadata.actionInstructions[c.blocks[j]] == begins[j])
    && (forall i, j | 0 <= i < j < |c.blocks| :: c.blocks[i] < c.blocks[j])
  }

  ghost predicate Typed(b: B.State, c: State) {
    ValuesTyped(b, c) && BlocksMatch(c, SuccessBegins(b.scopes))
  }

  function NewKinds(op: Operation): seq<Variable> {
    op.OutputVariables() + op.InnerOutputVariables()
  }

  /** What a plan can be for an operation, and that its inputs were there to be read. */
  ghost predicate PlanFits(b: B.State, c: State, i: Instruction, plan: Plan) {
    var op := i.operation;
    match plan
    case Define(vs) =>
      && |vs| == op.Defines()
      && (forall n | 0 <= n < |vs| :: HasShape(vs[n], NewKinds(op)[n], b.context.numConnections, 0))
      && !op.BeginOnSetupSuccess? && !op.EndOnSetupSuccess?
    case Edit(at, _) =>
      at < |c.values| && c.values[at].SetupValue? && op.Defines() == 0 && !op.EndOnSetupSuccess?
        && !op.BeginOnSetupSuccess?
    case Open(_) => op.Connect?
    case Setup(connection, spec, protocol) =>
      && op == SendSetupConnection(protocol) && Encodable(spec)
      && |i.inputs| > 0 && b.Visible(i.inputs[0]) && i.inputs[0] < |c.values|
      && c.values[i.inputs[0]] == ConnectionValue(connection)
    case Enter(session) =>
      && op.BeginOnSetupSuccess?
      && |i.inputs| > 0 && b.Visible(i.inputs[0]) && i.inputs[0] < |c.values|
      && c.values[i.inputs[0]].AttemptValue? && c.values[i.inputs[0]].session == session
    case Exit => op.EndOnSetupSuccess?
    case Frame(connection, _, _, _) =>
      && op.SendRawFrame?
      && |i.inputs| > 0 && b.Visible(i.inputs[0]) && i.inputs[0] < |c.values|
      && c.values[i.inputs[0]] == ConnectionValue(connection)
    case Emit(action) => (action.AdvanceTime? || action.Probe?) && (op.AdvanceTime? || op.Probe?)
  }

  /** Reading an input of an admissible instruction finds a value of the shape the operation wants. */
  lemma InputShape(b: B.State, c: State, i: Instruction, k: nat)
    requires ValuesTyped(b, c) && Admissible(b, i) && k < |i.operation.InputVariables()|
    ensures k < |i.inputs| && b.Visible(i.inputs[k]) && i.inputs[k] < |c.values|
    ensures HasShape(c.values[i.inputs[k]], i.operation.InputVariables()[k], c.connections, c.sessions)
  {
    hide HasShape, Operation.InputVariables;
  }

  /** The instructions that edit a setup under construction read what they edit with. */
  lemma LowerEdits(b: B.State, c: State, i: Instruction)
    requires ValuesTyped(b, c) && Admissible(b, i)
    requires i.operation.SetVersions? || i.operation.SetFlags? || i.operation.SetEndpoint? || i.operation.SetDeviceInfo?
    ensures Lower(c.values, i).Success? && PlanFits(b, c, i, Lower(c.values, i).value)
  {
    hide ValuesTyped, Admissible;
    var n := |i.operation.InputVariables()|;
    InputShape(b, c, i, 0);
    InputShape(b, c, i, 1);
    if n > 2 { InputShape(b, c, i, 2); }
    if n > 3 { InputShape(b, c, i, 3); InputShape(b, c, i, 4); }
  }

  lemma LowerUses(b: B.State, c: State, i: Instruction)
    requires ValuesTyped(b, c) && Admissible(b, i)
    requires i.operation.Connect? || i.operation.EndBuildSetupConnection? || i.operation.BeginOnSetupSuccess?
      || i.operation.AdvanceTime?
    ensures Lower(c.values, i).Success? && PlanFits(b, c, i, Lower(c.values, i).value)
  {
    hide ValuesTyped, Admissible;
    InputShape(b, c, i, 0);
  }

  lemma LowerSends(b: B.State, c: State, i: Instruction)
    requires ValuesTyped(b, c) && Admissible(b, i)
    requires i.operation.SendSetupConnection? || i.operation.SendRawFrame?
    ensures match Lower(c.values, i)
            case Success(plan) => PlanFits(b, c, i, plan)
            case Failure(error) =>
              error.StringTooLong? && error.index < |c.values| && c.values[error.index].SetupValue?
              && !Encodable(c.values[error.index].spec)
  {
    hide ValuesTyped, Admissible;
    InputShape(b, c, i, 0);
    InputShape(b, c, i, 1);
  }

  lemma LowerLoads(b: B.State, c: State, i: Instruction)
    requires ValuesTyped(b, c) && Admissible(b, i)
    requires i.operation.InputVariables() == []
    ensures Lower(c.values, i).Success? && PlanFits(b, c, i, Lower(c.values, i).value)
  {
    hide ValuesTyped;
  }

  /** An accepted instruction always lowers, unless it sends a setup with a string too long to encode. */
  lemma LowerFits(b: B.State, c: State, i: Instruction)
    requires ValuesTyped(b, c) && Admissible(b, i)
    ensures match Lower(c.values, i)
            case Success(plan) => PlanFits(b, c, i, plan)
            case Failure(error) =>
              error.StringTooLong? && error.index < |c.values| && c.values[error.index].SetupValue?
              && !Encodable(c.values[error.index].spec)
  {
    hide ValuesTyped, Admissible, PlanFits, Lower, Encodable;
    match i.operation {
      case SetVersions => LowerEdits(b, c, i);
      case SetFlags => LowerEdits(b, c, i);
      case SetEndpoint => LowerEdits(b, c, i);
      case SetDeviceInfo => LowerEdits(b, c, i);
      case Connect => LowerUses(b, c, i);
      case EndBuildSetupConnection(_) => LowerUses(b, c, i);
      case BeginOnSetupSuccess(_) => LowerUses(b, c, i);
      case AdvanceTime => LowerUses(b, c, i);
      case SendSetupConnection(_) => LowerSends(b, c, i);
      case SendRawFrame(_, _) => LowerSends(b, c, i);
      case _ => LowerLoads(b, c, i);
    }
  }

  // ---------------------------------------------------------------------------------------------
  // Each step keeps the compiler typed by the builder
  // ---------------------------------------------------------------------------------------------

  lemma ShapeMonotone(v: Value, kind: Variable, c0: nat, s0: nat, c1: nat, s1: nat)
    requires HasShape(v, kind, c0, s0) && c0 <= c1 && s0 <= s1
    ensures HasShape(v, kind, c1, s1)
  {
  }

  /** What a carried out plan leaves: older values as they were, an edited setup aside, and typed new ones. */
  ghost predicate ValuesGrew(c: State, op: Operation, c': State) {
    && |c'.values| == |c.values| + op.Defines()
    && c.connections <= c'.connections && c.sessions <= c'.sessions
    && (forall v | 0 <= v < |c.values| ::
          c'.values[v] == c.values[v] || (c.values[v].SetupValue? && c'.values[v].SetupValue?))
    && (forall n | 0 <= n < op.Defines() ::
          HasShape(c'.values[|c.values| + n], NewKinds(op)[n], c'.connections, c'.sessions))
  }

  lemma ApplyValues(b: B.State, c: State, i: Instruction, index: nat, plan: Plan, c': State)
    requires ValuesTyped(b, c) && PlanFits(b, c, i, plan) && Apply(c, index, plan) == Success(c')
    ensures ValuesGrew(c, i.operation, c')
  {
    hide ValuesTyped, ValuesGrew, HasShape, Encodable, Apply;
    match plan {
      case Define(_) => DefineValues(b, c, i, index, plan, c');
      case Setup(connection, spec, protocol) => SetupValues(b, c, i, index, plan, c');
      case Open(role) => OpenValues(c, i, index, plan, c');
      case _ => OtherValues(b, c, i, index, plan, c');
    }
  }

  lemma TypedConnections(b: B.State, c: State)
    requires ValuesTyped(b, c)
    ensures b.context.numConnections <= c.connections
  {
  }

  lemma DefineValues(b: B.State, c: State, i: Instruction, index: nat, plan: Plan, c': State)
    requires ValuesTyped(b, c) && PlanFits(b, c, i, plan) && Apply(c, index, plan) == Success(c') && plan.Define?
    ensures ValuesGrew(c, i.operation, c')
  {
    hide Operation.OutputVariables, Operation.InnerOutputVariables, HasShape, ValuesTyped;
    TypedConnections(b, c);
    var op := i.operation;
    forall n | 0 <= n < op.Defines()
      ensures HasShape(c'.values[|c.values| + n], NewKinds(op)[n], c'.connections, c'.sessions)
    {
      ShapeMonotone(plan.values[n], NewKinds(op)[n], b.context.numConnections, 0, c'.connections, c'.sessions);
    }
  }

  lemma SetupValues(b: B.State, c: State, i: Instruction, index: nat, plan: Plan, c': State)
    requires ValuesTyped(b, c) && PlanFits(b, c, i, plan) && Apply(c, index, plan) == Success(c') && plan.Setup?
    ensures ValuesGrew(c, i.operation, c')
  {
    hide SetupViolations, Encodable;
    assert c.values[i.inputs[0]] == ConnectionValue(plan.connection);
    assert HasShape(c.values[i.inputs[0]], b.variables[i.inputs[0]].kind, c.connections, c.sessions);
  }

  lemma OpenValues(c: State, i: Instruction, index: nat, plan: Plan, c': State)
    requires plan.Open? && i.operation.Connect? && Apply(c, index, plan) == Success(c')
    ensures ValuesGrew(c, i.operation, c')
  {
  }

  lemma OtherValues(b: B.State, c: State, i: Instruction, index: nat, plan: Plan, c': State)
    requires PlanFits(b, c, i, plan) && Apply(c, index, plan) == Success(c')
    requires !plan.Define? && !plan.Setup? && !plan.Open?
    ensures ValuesGrew(c, i.operation, c')
  {
    hide Encodable;
  }

  lemma NewKind(s: B.State, op: Operation, n: nat)
    requires |s.scopes| > 0 && n < op.Defines()
    ensures NewVariable(s, op, n).kind == NewKinds(op)[n]
  {
  }

  lemma GrewValuesTyped(b: B.State, mid: B.State, c: State, i: Instruction, b': B.State, c': State)
    requires ValuesTyped(b, c) && mid.variables == b.variables && mid.context == b.context
    requires Grew(mid, i, b') && ValuesGrew(c, i.operation, c')
    ensures ValuesTyped(b', c')
  {
    hide NewVariable, NewKinds, Operation.Defines, HasShape;
    forall v | 0 <= v < |c'.values| ensures HasShape(c'.values[v], b'.variables[v].kind, c'.connections, c'.sessions) {
      if v < |c.values| {
        ShapeKept(c.values[v], c'.values[v], b.variables[v].kind, c, c');
      } else {
        NewKind(mid, i.operation, v - |c.values|);
        assert c'.values[v] == c'.values[|c.values| + (v - |c.values|)];
      }
    }
  }

  lemma ShapeKept(v: Value, v': Value, kind: Variable, c: State, c': State)
    requires HasShape(v, kind, c.connections, c.sessions)
    requires c.connections <= c'.connections && c.sessions <= c'.sessions
    requires v' == v || (v.SetupValue? && v'.SetupValue?)
    ensures HasShape(v', kind, c'.connections, c'.sessions)
  {
  }

  /** The success blocks open once a plan is carried out. */
  function BeginsAfter(begins: seq<nat>, plan: Plan, index: nat): seq<nat> {
    if plan.Enter? then begins + [index]
    else if plan.Exit? && begins != [] then begins[..|begins| - 1]
    else begins
  }

  lemma ApplyExit(c: State, begins: seq<nat>, index: nat)
    requires BlocksMatch(c, begins) && begins != []
    ensures Apply(c, index, Exit).Success? && BlocksMatch(Apply(c, index, Exit).value, begins[..|begins| - 1])
  {
  }

  lemma ApplyEnter(c: State, begins: seq<nat>, index: nat, session: nat)
    requires BlocksMatch(c, begins)
    ensures Apply(c, index, Plan.Enter(session)).Success?
    ensures BlocksMatch(Apply(c, index, Plan.Enter(session)).value, begins + [index])
  {
    hide Lower;
  }

  lemma ApplyOther(c: State, begins: seq<nat>, index: nat, plan: Plan)
    requires BlocksMatch(c, begins) && !plan.Enter? && !plan.Exit?
    requires plan.Edit? ==> plan.at < |c.values|
    ensures Apply(c, index, plan).Success? && BlocksMatch(Apply(c, index, plan).value, begins)
  {
    hide Lower, SetupViolations;
  }

  lemma ApplyBlocks(c: State, begins: seq<nat>, index: nat, plan: Plan)
    requires BlocksMatch(c, begins)
    requires plan.Exit? ==> begins != []
    requires plan.Edit? ==> plan.at < |c.values|
    ensures Apply(c, index, plan).Success?
    ensures BlocksMatch(Apply(c, index, plan).value, BeginsAfter(begins, plan, index))
  {
    hide Apply, BlocksMatch;
    match plan {
      case Exit => ApplyExit(c, begins, index);
      case Enter(session) => ApplyEnter(c, begins, index, session);
      case _ => ApplyOther(c, begins, index, plan);
    }
  }

  lemma SuccessBeginsOneMore(scopes: seq<B.Scope>, scope: B.Scope)
    ensures SuccessBegins(scopes + [scope]) ==
      SuccessBegins(scopes) + if scope.context == OnSetupSuccess && scope.begin.Some? then [scope.begin.value] else []
  {
    assert (scopes + [scope])[..|scopes|] == scopes;
  }

  lemma EndFollows(b: B.State, c: State, i: Instruction, plan: Plan, b': B.State)
    requires Wellformed(b) && Accepts(b, i) && PlanFits(b, c, i, plan) && Grew(Left(b, i.operation), i, b')
      && i.operation.IsBlockEnd()
    ensures SuccessBegins(b'.scopes) == BeginsAfter(SuccessBegins(b.scopes), plan, |b.instructions|)
    ensures plan.Exit? ==> SuccessBegins(b.scopes) != []
  {
    hide Housed, Admissible, NewVariable, Operation.Defines, Operation.OutputVariables, Operation.InnerOutputVariables,
      SuccessBegins;
    var last := |b.scopes| - 1;
    AcceptedEnd(b, i);
    assert ScopeOpenedBy(b, last);
    assert b.scopes == b.scopes[..last] + [b.scopes[last]];
    SuccessBeginsOneMore(b.scopes[..last], b.scopes[last]);
    assert b'.scopes == b.scopes[..last];
  }

  /** The builder's success scopes change just as the plan changes the open blocks. */
  lemma BeginsFollow(b: B.State, c: State, i: Instruction, plan: Plan, b': B.State)
    requires Wellformed(b) && Accepts(b, i) && PlanFits(b, c, i, plan) && Grew(Left(b, i.operation), i, b')
    ensures SuccessBegins(b'.scopes) == BeginsAfter(SuccessBegins(b.scopes), plan, |b.instructions|)
    ensures plan.Exit? ==> SuccessBegins(b.scopes) != []
  {
    hide Wellformed, Accepts, PlanFits, Grew, SuccessBegins, BeginsAfter;
    var op := i.operation;
    if op.IsBlockEnd() {
      EndFollows(b, c, i, plan, b');
    } else if op.IsBlockBegin() {
      BeginFollows(b, c, i, plan, b');
    } else {
      PlainFollows(b, c, i, plan, b');
    }
  }

  lemma BeginFollows(b: B.State, c: State, i: Instruction, plan: Plan, b': B.State)
    requires PlanFits(b, c, i, plan) && Grew(b, i, b') && i.operation.IsBlockBegin()
    ensures SuccessBegins(b'.scopes) == BeginsAfter(SuccessBegins(b.scopes), plan, |b.instructions|) && !plan.Exit?
  {
    hide Operation.Defines, Operation.OutputVariables, Operation.InnerOutputVariables, SuccessBegins, HasShape,
      NewVariable;
    SuccessBeginsOneMore(b.scopes, NewScopes(b, i.operation)[0]);
  }

  lemma PlainFollows(b: B.State, c: State, i: Instruction, plan: Plan, b': B.State)
    requires PlanFits(b, c, i, plan) && Grew(b, i, b') && !i.operation.IsBlockBegin() && !i.operation.IsBlockEnd()
    ensures SuccessBegins(b'.scopes) == BeginsAfter(SuccessBegins(b.scopes), plan, |b.instructions|) && !plan.Exit?
  {
    hide Operation.Defines, Operation.OutputVariables, Operation.InnerOutputVariables, SuccessBegins, HasShape,
      NewVariable;
    assert b'.scopes == b.scopes;
  }

  /** One accepted instruction compiles and keeps the compiler typed, or sends a string too long. */
  lemma StepTyped(b: B.State, c: State, i: Instruction)
    requires Wellformed(b) && Typed(b, c) && B.Step(b, i).Appended?
    ensures match CompileStep(c, |b.instructions|, i)
            case Success(c') => Typed(B.Step(b, i).state, c')
            case Failure(error) => error.StringTooLong?
  {
    hide B.Step, Wellformed, Admissible, Lower, Apply, PlanFits, HasShape, ValuesTyped, BlocksMatch, Encodable, Grew;
    StepTaken(b, i);
    LowerFits(b, c, i);
    if Lower(c.values, i).Success? {
      var plan := Lower(c.values, i).value;
      var b' := B.Step(b, i).state;
      BeginsFollow(b, c, i, plan, b');
      PlanEdits(b, c, i, plan);
      ApplyBlocks(c, SuccessBegins(b.scopes), |b.instructions|, plan);
      var c' := Apply(c, |b.instructions|, plan).value;
      ApplyValues(b, c, i, |b.instructions|, plan, c');
      GrewValuesTyped(b, Left(b, i.operation), c, i, b', c');
    }
  }

  lemma PlanEdits(b: B.State, c: State, i: Instruction, plan: Plan)
    requires PlanFits(b, c, i, plan)
    ensures plan.Edit? ==> plan.at < |c.values|
  {
  }

  lemma {:induction false} StepsTyped(b: B.State, c: State, code: seq<Instruction>)
    requires Wellformed(b) && Typed(b, c) && B.Steps(b, code).Appended?
    ensures match CompileAll(c, code, |b.instructions|)
            case Success(c') => Typed(B.Steps(b, code).state, c')
            case Failure(error) => error.StringTooLong?
    decreases |code|
  {
    hide B.Step, Wellformed, Typed, CompileStep, Grew, Accepts;
    if code != [] {
      StepTaken(b, code[0]);
      StepTyped(b, c, code[0]);
      var next := CompileStep(c, |b.instructions|, code[0]);
      if next.Success? {
        StepsTyped(B.Step(b, code[0]).state, next.value, code[1..]);
      }
    }
  }

  lemma InitialTyped(context: ProgramContext)
    ensures Typed(B.New(context), Initial(context))
  {
    var s := B.New(context);
    assert s.scopes == [B.Scope(None, 1, Global)];
    assert s.scopes[..0] == [];
    assert SuccessBegins(s.scopes) == [];
  }

  /**
   * For a valid program, or any prefix the builder accepts, the compiler never misses a value, finds one of
   * the wrong shape, reads past an input list or ends a block it did not open. Its values are aligned with and
   * typed by the builder's variables, and its open blocks are the builder's open success scopes.
   */
  lemma CompilerIsSound(context: ProgramContext, code: seq<Instruction>)
    requires B.FromPrefix(context, code).Appended?
    ensures match CompileAll(Initial(context), code, 0)
            case Success(c) => Typed(B.FromPrefix(context, code).state, c)
            case Failure(error) => error.StringTooLong?
  {
    NewWellformed(context);
    InitialTyped(context);
    hide B.Steps, CompileAll, Typed;
    StepsTyped(B.New(context), Initial(context), code);
  }

  // ---------------------------------------------------------------------------------------------
  // The one thing that can go wrong
  // ---------------------------------------------------------------------------------------------

  predicate ValueFits(v: Value) {
    && (v.StrValue? ==> TextFits(v.text))
    && (v.SetupValue? ==> Encodable(v.spec))
  }

  ghost predicate AllFit(values: seq<Value>) {
    forall v | 0 <= v < |values| :: ValueFits(values[v])
  }

  /** The instruction loads no string longer than a field of a setup can hold. */
  predicate LoadFits(i: Instruction) {
    i.operation.LoadStr? ==> |i.operation.text| <= 255
  }

  lemma LowerFitting(values: seq<Value>, i: Instruction)
    requires AllFit(values) && LoadFits(i) && Lower(values, i).Success?
    ensures var plan := Lower(values, i).value;
      && (plan.Define? ==> AllFit(plan.values))
      && (plan.Edit? ==> Encodable(plan.spec))
  {
    hide AllFit, LoadFits, Lower, Encodable;
    match i.operation {
      case SetEndpoint => EndpointFits(values, i);
      case SetDeviceInfo => DeviceFits(values, i);
      case _ => OtherFits(values, i);
    }
  }

  /** What reading an input finds is one of the values. */
  lemma ReadFits(values: seq<Value>, inputs: seq<nat>, k: nat)
    requires AllFit(values) && ValueAt(values, inputs, k).Success?
    ensures ValueFits(ValueAt(values, inputs, k).value)
  {
    hide ValueFits;
  }

  lemma EndpointFits(values: seq<Value>, i: Instruction)
    requires AllFit(values) && i.operation.SetEndpoint? && Lower(values, i).Success?
    ensures Lower(values, i).value.Edit? && Encodable(Lower(values, i).value.spec)
  {
    hide AllFit, TextFits;
    ReadFits(values, i.inputs, 0);
    ReadFits(values, i.inputs, 1);
  }

  lemma DeviceFits(values: seq<Value>, i: Instruction)
    requires AllFit(values) && i.operation.SetDeviceInfo? && Lower(values, i).Success?
    ensures Lower(values, i).value.Edit? && Encodable(Lower(values, i).value.spec)
  {
    hide AllFit, TextFits;
    ReadFits(values, i.inputs, 0);
    ReadFits(values, i.inputs, 1);
    ReadFits(values, i.inputs, 2);
    ReadFits(values, i.inputs, 3);
    ReadFits(values, i.inputs, 4);
  }

  lemma OtherFits(values: seq<Value>, i: Instruction)
    requires AllFit(values) && LoadFits(i) && Lower(values, i).Success?
    requires !i.operation.SetEndpoint? && !i.operation.SetDeviceInfo?
    ensures var plan := Lower(values, i).value;
      && (plan.Define? ==> AllFit(plan.values))
      && (plan.Edit? ==> Encodable(plan.spec))
  {
    hide TextFits;
    assert Encodable(DEFAULT_SPEC) by { DefaultFits(); }
    if i.operation.LoadStr? {
      ShortFits(i.operation.text);
    }
    if Lower(values, i).value.Edit? || i.operation.EndBuildSetupConnection? {
      ReadFits(values, i.inputs, 0);
    }
  }

  lemma ShortFits(t: Text)
    requires |t| <= 255
    ensures TextFits(t)
  {
  }

  lemma DefaultFits()
    ensures Encodable(DEFAULT_SPEC)
  {
  }

  lemma ApplyFitting(c: State, index: nat, plan: Plan)
    requires AllFit(c.values) && Apply(c, index, plan).Success?
    requires plan.Define? ==> AllFit(plan.values)
    requires plan.Edit? ==> Encodable(plan.spec)
    ensures AllFit(Apply(c, index, plan).value.values)
  {
    hide Encodable, TextFits;
  }

  lemma {:induction false} StepsFitting(b: B.State, c: State, code: seq<Instruction>)
    requires Wellformed(b) && Typed(b, c) && B.Steps(b, code).Appended?
    requires AllFit(c.values) && forall k | 0 <= k < |code| :: LoadFits(code[k])
    ensures CompileAll(c, code, |b.instructions|).Success?
    decreases |code|
  {
    hide B.Step, Wellformed, Typed, Grew, Accepts, Lower, Apply, AllFit, LoadFits, Admissible, PlanFits;
    if code != [] {
      StepTaken(b, code[0]);
      StepTyped(b, c, code[0]);
      TypedValues(b, c);
      AcceptsAdmissible(b, code[0]);
      LowerFits(b, c, code[0]);
      if Lower(c.values, code[0]).Failure? {
        FittingValue(c.values, Lower(c.values, code[0]).error.index);
      } else {
        LowerFitting(c.values, code[0]);
        var plan := Lower(c.values, code[0]).value;
        ApplyNeverTooLong(c, |b.instructions|, plan);
        ApplyFitting(c, |b.instructions|, plan);
        var next := CompileStep(c, |b.instructions|, code[0]).value;
        StepsFitting(B.Step(b, code[0]).state, next, code[1..]);
      }
    }
  }

  lemma ApplyNeverTooLong(c: State, index: nat, plan: Plan)
    ensures var r := Apply(c, index, plan); r.Failure? ==> !r.error.StringTooLong?
  {
  }

  lemma TypedValues(b: B.State, c: State)
    requires Typed(b, c)
    ensures ValuesTyped(b, c)
  {
  }

  lemma AcceptsAdmissible(b: B.State, i: Instruction)
    requires Accepts(b, i)
    ensures Admissible(b, i)
  {
  }

  lemma FittingValue(values: seq<Value>, v: nat)
    requires AllFit(values) && v < |values|
    ensures values[v].SetupValue? ==> Encodable(values[v].spec)
  {
  }

  // ---------------------------------------------------------------------------------------------
  // Exactly when it does
  // ---------------------------------------------------------------------------------------------

  /** Instruction `k` sends a setup that, as staged by the code before it, has a string too long for its field. */
  predicate SendsTooLong(c: State, code: seq<Instruction>, index: nat, k: nat)
    requires k < |code|
  {
    var before := CompileAll(c, code[..k], index);
    && code[k].operation.SendSetupConnection? && |code[k].inputs| == 2
    && before.Success? && TooLongIn(before.value.values, code[k].inputs[1])
  }

  /** One of the five strings of a setup takes more than 255 bytes. */
  predicate TooLong(spec: SetupSpec) {
    || |spec.endpointHost| > 255 || |spec.vendor| > 255 || |spec.hardwareVersion| > 255 || |spec.firmware| > 255
    || |spec.deviceId| > 255
  }

  lemma TooLongIsNot(spec: SetupSpec)
    ensures TooLong(spec) <==> !Encodable(spec)
  {
  }

  predicate TooLongIn(values: seq<Value>, v: nat) {
    v < |values| && values[v].SetupValue? && TooLong(values[v].spec)
  }

  lemma TooLongStops(c: State, code: seq<Instruction>, index: nat, k: nat)
    requires k < |code| && SendsTooLong(c, code, index, k)
    ensures CompileAll(c, code, index).Failure?
  {
    hide CompileAll, CompileStep, TooLongIn;
    assert code == code[..k] + code[k..];
    CompileAllConcat(c, code[..k], code[k..], index);
    var before := CompileAll(c, code[..k], index).value;
    TooLongFails(before, index + k, code[k]);
    FirstStepFails(before, index + k, code[k..]);
  }

  lemma TooLongFails(c: State, index: nat, i: Instruction)
    requires i.operation.SendSetupConnection? && |i.inputs| == 2 && TooLongIn(c.values, i.inputs[1])
    ensures CompileStep(c, index, i).Failure?
  {
    hide Encodable, Apply;
    TooLongIsNot(c.values[i.inputs[1]].spec);
  }

  lemma FirstStepFails(c: State, index: nat, code: seq<Instruction>)
    requires code != [] && CompileStep(c, index, code[0]).Failure?
    ensures CompileAll(c, code, index).Failure?
  {
  }

  /** Accepted code that stops compiling stops at a setup too long to send. */
  lemma {:induction false} FailsAtSend(b: B.State, c: State, code: seq<Instruction>) returns (k: nat)
    requires Wellformed(b) && Typed(b, c) && B.Steps(b, code).Appended?
    requires CompileAll(c, code, |b.instructions|).Failure?
    ensures k < |code| && SendsTooLong(c, code, |b.instructions|, k)
    decreases |code|
  {
    hide B.Step, Wellformed, Typed, Grew, Accepts, CompileStep, TooLongIn;
    StepTaken(b, code[0]);
    StepTyped(b, c, code[0]);
    var next := CompileStep(c, |b.instructions|, code[0]);
    if next.Failure? {
      k := 0;
      StepFailsAtSend(b, c, code[0]);
    } else {
      var later := FailsAtSend(B.Step(b, code[0]).state, next.value, code[1..]);
      k := later + 1;
      assert code[..k][1..] == code[1..][..later];
    }
  }

  lemma StepFailsAtSend(b: B.State, c: State, i: Instruction)
    requires Wellformed(b) && Typed(b, c) && B.Step(b, i).Appended? && CompileStep(c, |b.instructions|, i).Failure?
    ensures i.operation.SendSetupConnection? && |i.inputs| == 2 && TooLongIn(c.values, i.inputs[1])
  {
    hide B.Step, Wellformed, Typed, Grew, Accepts, Apply, Admissible, PlanFits, ValuesTyped, Lower, Encodable, TooLong;
    StepTaken(b, i);
    TypedValues(b, c);
    AcceptsAdmissible(b, i);
    LowerFits(b, c, i);
    StepTyped(b, c, i);
    if Lower(c.values, i).Success? {
      ApplyNeverTooLong(c, |b.instructions|, Lower(c.values, i).value);
      assert false;
    }
    TooLongIsSend(b, c, i);
    TooLongIsNot(c.values[i.inputs[1]].spec);
  }

  lemma TooLongIsSend(b: B.State, c: State, i: Instruction)
    requires Admissible(b, i) && Lower(c.values, i).Failure? && Lower(c.values, i).error.StringTooLong?
    ensures i.operation.SendSetupConnection? && |i.inputs| == 2 && Lower(c.values, i).error.index == i.inputs[1]
  {
    hide Encodable;
  }

  /**
   * A valid program fails to compile exactly when it sends a setup in which, as staged before the send, a string
   * is too long for its field; a program that loads no such string always compiles.
   */
  lemma ValidCompiles(p: Program)
    requires B.StaticallyValid(p)
    ensures Compile(p).Success? || Compile(p).error.StringTooLong?
    ensures Compile(p).Failure? <==> exists k | 0 <= k < |p.instructions| ::
        SendsTooLong(Initial(p.context), p.instructions, 0, k)
    ensures (forall k | 0 <= k < |p.instructions| :: LoadFits(p.instructions[k])) ==> Compile(p).Success?
  {
    hide B.Steps, CompileAll, Typed, B.Finalize, SendsTooLong, Wellformed;
    CompilerIsSound(p.context, p.instructions);
    NewWellformed(p.context);
    InitialTyped(p.context);
    if forall k | 0 <= k < |p.instructions| :: LoadFits(p.instructions[k]) {
      StepsFitting(B.New(p.context), Initial(p.context), p.instructions);
    }
    if Compile(p).Failure? {
      var k := FailsAtSend(B.New(p.context), Initial(p.context), p.instructions);
    }
    if k :| 0 <= k < |p.instructions| && SendsTooLong(Initial(p.context), p.instructions, 0, k) {
      TooLongStops(Initial(p.context), p.instructions, 0, k);
    }
  }
}
