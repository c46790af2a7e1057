/**
 * What the compiler's books say of the actions it has emitted: who was sent on, which setups were first, which ids
 * exist.
 */
module Ledger {
  import opened Wrappers
  import opened Ir
  import B = Builder
  import opened Scoping
  import opened Renaming
  import opened Compiler
  import opened Soundness
  import opened Simulation

  predicate IsSendOn(a: Action, x: nat) {
    a.Send? && a.connection == x
  }

  predicate IsRawOn(a: Action, x: nat) {
    a.Send? && a.connection == x && a.payload.Raw?
  }

  /** Some of the first `n` actions sends on `x`. */
  ghost predicate SentOn(actions: seq<Action>, n: nat, x: nat)
    requires n <= |actions|
  {
    exists j :: 0 <= j < n && IsSendOn(actions[j], x)
  }

  /** Some of the first `n` actions puts a raw frame on `x`. */
  ghost predicate RawOn(actions: seq<Action>, n: nat, x: nat)
    requires n <= |actions|
  {
    exists j :: 0 <= j < n && IsRawOn(actions[j], x)
  }

  /** The same action, but for the end written into a block's enter. */
  predicate SameButEnd(a: Action, a': Action) {
    a == a' || (a.EnterOnSetupSuccess? && a'.EnterOnSetupSuccess? && a.session == a'.session)
  }

  /** The actions a plan emits. */
  function Emitted(c: State, plan: Plan): seq<Action> {
    match plan
    case Open(role) => [Action.Connect(c.connections, role)]
    case Setup(connection, spec, protocol) =>
      [SetupFrame(connection, spec), AwaitSetupResponse(connection, c.sessions, protocol, connection !in c.sent)]
    case Enter(session) => [EnterOnSetupSuccess(session, PENDING)]
    case Exit => [ExitBlock]
    case Frame(connection, extension, message, bytes) => [Send(connection, extension, message, false, Raw(bytes))]
    case Emit(action) => [action]
    case _ => []
  }

  ghost predicate Emits(actions: seq<Action>, added: seq<Action>, actions': seq<Action>) {
    && |actions'| == |actions| + |added|
    && (forall j | 0 <= j < |actions| :: SameButEnd(actions[j], actions'[j]))
    && (forall j | |actions| <= j < |actions'| :: actions'[j] == added[j - |actions|])
  }

  lemma ApplyEmits(c: State, index: nat, plan: Plan, d: State)
    requires Apply(c, index, plan) == Success(d)
    ensures Emits(c.actions, Emitted(c, plan), d.actions)
  {
  }

  lemma SentOnKept(actions: seq<Action>, added: seq<Action>, actions': seq<Action>, n: nat, x: nat)
    requires Emits(actions, added, actions') && n <= |actions|
    ensures SentOn(actions', n, x) <==> SentOn(actions, n, x)
    ensures RawOn(actions', n, x) <==> RawOn(actions, n, x)
  {
    forall j | 0 <= j < n
      ensures IsSendOn(actions'[j], x) == IsSendOn(actions[j], x) && IsRawOn(actions'[j], x) == IsRawOn(actions[j], x)
    {
      assert SameButEnd(actions[j], actions'[j]);
    }
  }

  lemma SentOnOneMore(actions: seq<Action>, n: nat, x: nat)
    requires n < |actions|
    ensures SentOn(actions, n + 1, x) <==> SentOn(actions, n, x) || IsSendOn(actions[n], x)
    ensures RawOn(actions, n + 1, x) <==> RawOn(actions, n, x) || IsRawOn(actions[n], x)
  {
    if SentOn(actions, n + 1, x) && !IsSendOn(actions[n], x) {
      var j :| 0 <= j < n + 1 && IsSendOn(actions[j], x);
      assert 0 <= j < n;
    }
    if RawOn(actions, n + 1, x) && !IsRawOn(actions[n], x) {
      var j :| 0 <= j < n + 1 && IsRawOn(actions[j], x);
      assert 0 <= j < n;
    }
  }

  /** The sets the compiler keeps are the sends it has emitted, and the connections that were there before. */
  ghost predicate SentIsSends(c: State, base: nat) {
    && base <= c.connections
    && (forall x: nat :: x in c.sent <==> x < base || SentOn(c.actions, |c.actions|, x))
    && (forall x: nat :: x in c.rawFramed <==> RawOn(c.actions, |c.actions|, x))
    && (forall x | x in c.sent :: x < c.connections)
  }

  function ExpectedNotes(first: bool, raw: bool): seq<ClientViolation> {
    (if first then [] else [SetupNotFirst]) + (if raw then [RawFrameBefore] else [])
  }

  /** What is recorded of an awaited setup is what the actions before it say. */
  ghost predicate AwaitRecorded(c: State, base: nat, j: nat)
    requires j < |c.actions|
  {
    var a := c.actions[j];
    a.AwaitSetupResponse? ==>
      && j > 0
      && a.session in c.metadata.sessionSetups
      && c.actions[j - 1] == SetupFrame(a.connection, c.metadata.sessionSetups[a.session])
      && (a.firstOnConnection <==> a.connection >= base && !SentOn(c.actions, j - 1, a.connection))
      && Notes(c.metadata, j) == ExpectedNotes(a.firstOnConnection, RawOn(c.actions, j - 1, a.connection))
  }

  ghost predicate AwaitsRecorded(c: State, base: nat) {
    && (forall j: nat | j < |c.actions| :: AwaitRecorded(c, base, j))
    && (forall a | a in c.metadata.violations :: a < |c.actions| && c.metadata.violations[a] != [])
  }

  /** The tables have an entry for each id handed out, and no other. */
  ghost predicate TablesRecorded(c: State, base: nat) {
    && base <= c.connections
    && (forall k: nat :: k in c.metadata.connectionVariables <==> base <= k < c.connections)
    && (forall k: nat :: k in c.metadata.sessionVariables <==> k < c.sessions)
    && (forall k: nat :: k in c.metadata.sessionSetups <==> k < c.sessions)
    && |c.metadata.actionInstructions| == |c.actions|
  }

  /** Each id is handed out once, in order. */
  ghost predicate IdsOrdered(c: State, base: nat) {
    && (forall j | 0 <= j < |c.actions| :: c.actions[j].Connect? ==> base <= c.actions[j].connection < c.connections)
    && (forall j | 0 <= j < |c.actions| :: c.actions[j].AwaitSetupResponse? ==> c.actions[j].session < c.sessions)
    && (forall i, j | 0 <= i < j < |c.actions| && c.actions[i].Connect? && c.actions[j].Connect? ::
          c.actions[i].connection < c.actions[j].connection)
    && (forall i, j | 0 <= i < j < |c.actions| && c.actions[i].AwaitSetupResponse?
      && c.actions[j].AwaitSetupResponse? ::
          c.actions[i].session < c.actions[j].session)
  }

  ghost predicate IdsRecorded(c: State, base: nat) {
    TablesRecorded(c, base) && IdsOrdered(c, base)
  }

  ghost predicate Recorded(c: State, base: nat) {
    SentIsSends(c, base) && AwaitsRecorded(c, base) && IdsRecorded(c, base)
  }

  lemma ApplySent(c: State, base: nat, index: nat, plan: Plan, d: State)
    requires SentIsSends(c, base) && Apply(c, index, plan) == Success(d)
    requires plan.Setup? || plan.Frame? ==> plan.connection < c.connections
    requires plan.Emit? ==> plan.action.AdvanceTime? || plan.action.Probe?
    ensures SentIsSends(d, base)
  {
    var n, added := |c.actions|, Emitted(c, plan);
    ApplyEmits(c, index, plan, d);
    forall x: nat
      ensures x in d.sent <==> x < base || SentOn(d.actions, |d.actions|, x)
      ensures x in d.rawFramed <==> RawOn(d.actions, |d.actions|, x)
    {
      hide SentOn, RawOn;
      SentOnKept(c.actions, added, d.actions, n, x);
      if |added| > 0 {
        SentOnOneMore(d.actions, n, x);
        assert d.actions[n + 0] == added[0];
      }
      if |added| > 1 {
        SentOnOneMore(d.actions, n + 1, x);
        assert d.actions[n + 1] == added[1];
      }
    }
  }

  lemma OldAwait(c: State, base: nat, index: nat, plan: Plan, d: State, j: nat)
    requires SentIsSends(c, base) && AwaitsRecorded(c, base) && IdsRecorded(c, base)
      && Apply(c, index, plan) == Success(d)
    requires j < |c.actions| && j < |d.actions|
    ensures AwaitRecorded(d, base, j)
  {
    ApplyEmits(c, index, plan, d);
    assert SameButEnd(c.actions[j], d.actions[j]);
    if d.actions[j].AwaitSetupResponse? {
      hide SentOn, RawOn;
      assert AwaitRecorded(c, base, j);
      assert SameButEnd(c.actions[j - 1], d.actions[j - 1]);
      SentOnKept(c.actions, Emitted(c, plan), d.actions, j - 1, d.actions[j].connection);
    }
  }

  lemma NewAwait(c: State, base: nat, index: nat, plan: Plan, d: State)
    requires SentIsSends(c, base) && AwaitsRecorded(c, base) && IdsRecorded(c, base)
      && Apply(c, index, plan) == Success(d)
    requires plan.Setup?
    ensures |d.actions| == |c.actions| + 2
    ensures AwaitRecorded(d, base, |c.actions|) && AwaitRecorded(d, base, |c.actions| + 1)
  {
    hide SentOn, RawOn;
    ApplyEmits(c, index, plan, d);
    SentOnKept(c.actions, Emitted(c, plan), d.actions, |c.actions|, plan.connection);
  }

  lemma ViolationsKept(c: State, index: nat, plan: Plan, d: State)
    requires Apply(c, index, plan) == Success(d)
    requires forall a | a in c.metadata.violations :: a < |c.actions| && c.metadata.violations[a] != []
    ensures forall a | a in d.metadata.violations :: a < |d.actions| && d.metadata.violations[a] != []
  {
  }

  lemma ApplyAwaits(c: State, base: nat, index: nat, plan: Plan, d: State)
    requires SentIsSends(c, base) && AwaitsRecorded(c, base) && IdsRecorded(c, base)
      && Apply(c, index, plan) == Success(d)
    requires plan.Emit? ==> plan.action.AdvanceTime? || plan.action.Probe?
    ensures AwaitsRecorded(d, base)
  {
    hide AwaitRecorded, SentIsSends, IdsRecorded;
    ApplyEmits(c, index, plan, d);
    ViolationsKept(c, index, plan, d);
    forall j: nat | j < |d.actions| ensures AwaitRecorded(d, base, j) {
      if j < |c.actions| {
        OldAwait(c, base, index, plan, d, j);
      } else if plan.Setup? {
        NewAwait(c, base, index, plan, d);
      } else {
        NotAwait(d, base, j);
      }
    }
  }

  lemma NotAwait(d: State, base: nat, j: nat)
    requires j < |d.actions| && !d.actions[j].AwaitSetupResponse?
    ensures AwaitRecorded(d, base, j)
  {
  }

  lemma ApplyTables(c: State, base: nat, index: nat, plan: Plan, d: State)
    requires TablesRecorded(c, base) && Apply(c, index, plan) == Success(d)
    ensures TablesRecorded(d, base)
  {
  }

  lemma ApplyOrder(c: State, base: nat, index: nat, plan: Plan, d: State)
    requires base <= c.connections && IdsOrdered(c, base) && Apply(c, index, plan) == Success(d)
    requires plan.Emit? ==> plan.action.AdvanceTime? || plan.action.Probe?
    ensures IdsOrdered(d, base)
  {
    assert c.connections <= d.connections && c.sessions <= d.sessions
      && (plan.Open? ==> d.connections == c.connections + 1) && (plan.Setup? ==> d.sessions == c.sessions + 1);
    ApplyEmits(c, index, plan, d);
    EmitsOrder(c, base, Emitted(c, plan), d, plan);
  }

  lemma EmitsOrder(c: State, base: nat, added: seq<Action>, d: State, plan: Plan)
    requires base <= c.connections && IdsOrdered(c, base) && Emits(c.actions, added, d.actions)
      && added == Emitted(c, plan)
    requires plan.Emit? ==> plan.action.AdvanceTime? || plan.action.Probe?
    requires c.connections <= d.connections && c.sessions <= d.sessions
    requires (plan.Open? ==> d.connections == c.connections + 1) && (plan.Setup? ==> d.sessions == c.sessions + 1)
    ensures IdsOrdered(d, base)
  {
  }

  lemma ApplyRecorded(c: State, base: nat, index: nat, plan: Plan, d: State)
    requires Recorded(c, base) && Apply(c, index, plan) == Success(d)
    requires plan.Setup? || plan.Frame? ==> plan.connection < c.connections
    requires plan.Emit? ==> plan.action.AdvanceTime? || plan.action.Probe?
    ensures Recorded(d, base)
  {
    hide Apply, SentIsSends, AwaitsRecorded, IdsOrdered, Emitted;
    ApplySent(c, base, index, plan, d);
    ApplyAwaits(c, base, index, plan, d);
    ApplyTables(c, base, index, plan, d);
    ApplyOrder(c, base, index, plan, d);
  }

  /** A plan for an accepted instruction sends only on connections there are. */
  lemma PlanConnection(b: B.State, c: State, i: Instruction, plan: Plan)
    requires ValuesTyped(b, c) && Admissible(b, i) && PlanFits(b, c, i, plan)
    ensures plan.Setup? || plan.Frame? ==> plan.connection < c.connections
  {
    hide Admissible;
    if plan.Setup? || plan.Frame? {
      InputShape(b, c, i, 0);
    }
  }

  lemma StepRecorded(b: B.State, c: State, i: Instruction)
    requires Wellformed(b) && Typed(b, c) && B.Step(b, i).Appended? && Recorded(c, b.context.numConnections)
    requires CompileStep(c, |b.instructions|, i).Success?
    ensures Recorded(CompileStep(c, |b.instructions|, i).value, b.context.numConnections)
  {
    hide B.Step, Wellformed, Typed, Recorded, ValuesTyped, Admissible, Lower, Apply, PlanFits, Grew, Encodable;
    StepTaken(b, i);
    AcceptsAdmissible(b, i);
    TypedValues(b, c);
    LowerFits(b, c, i);
    var plan := Lower(c.values, i).value;
    PlanConnection(b, c, i, plan);
    PlanConditions(b, c, i, plan);
    ApplyRecorded(c, b.context.numConnections, |b.instructions|, plan, Apply(c, |b.instructions|, plan).value);
  }

  lemma {:induction false} StepsRecorded(b: B.State, c: State, code: seq<Instruction>)
    requires Wellformed(b) && Typed(b, c) && B.Steps(b, code).Appended? && Recorded(c, b.context.numConnections)
    requires CompileAll(c, code, |b.instructions|).Success?
    ensures Recorded(CompileAll(c, code, |b.instructions|).value, b.context.numConnections)
    decreases |code|
  {
    hide B.Step, Wellformed, Typed, Recorded, CompileStep, Grew, Accepts, Left;
    if code != [] {
      StepTaken(b, code[0]);
      StepTyped(b, c, code[0]);
      StepRecorded(b, c, code[0]);
      StepsRecorded(B.Step(b, code[0]).state, CompileStep(c, |b.instructions|, code[0]).value, code[1..]);
    }
  }

  lemma InitialRecorded(context: ProgramContext)
    ensures Recorded(Initial(context), context.numConnections)
  {
  }

  /** The compiler's state after all of a valid program. */
  function Lowered(p: Program): State
    requires Compile(p).Success?
  {
    CompileAll(Initial(p.context), p.instructions, 0).value
  }

  /** The books of a compiled valid program are in order, and no block of it is left open. */
  lemma CompiledRecorded(p: Program)
    requires B.StaticallyValid(p) && Compile(p).Success?
    ensures Recorded(Lowered(p), p.context.numConnections) && Lowered(p).blocks == []
    ensures Typed(B.FromPrefix(p.context, p.instructions).state, Lowered(p))
    ensures Compile(p).value == CompiledProgram(p.context, Lowered(p).actions, Lowered(p).metadata)
  {
    hide B.Steps, CompileAll, Wellformed, Recorded, B.Finalize, Lexical;
    NewWellformed(p.context);
    InitialTyped(p.context);
    InitialRecorded(p.context);
    StepsRecorded(B.New(p.context), Initial(p.context), p.instructions);
    CompilerIsSound(p.context, p.instructions);
    ValidIffGlobal(p);
    Reached(p.context, p.instructions);
    GlobalHasNoBlocks(B.FromPrefix(p.context, p.instructions).state);
  }

  lemma GlobalHasNoBlocks(b: B.State)
    requires Wellformed(b) && |b.scopes| == 1
    ensures SuccessBegins(b.scopes) == []
  {
    assert b.scopes[..0] == [];
  }

  /**
   * A setup is marked first exactly when its connection is one the program opened and nothing before it sends
   * there; it has no violations noted exactly when it is marked first; and those it has say what preceded it.
   */
  lemma FirstIffFirst(p: Program, j: nat)
    requires B.StaticallyValid(p) && Compile(p).Success?
    requires j < |Compile(p).value.actions| && Compile(p).value.actions[j].AwaitSetupResponse?
    ensures var cp := Compile(p).value;
      var a := cp.actions[j];
      && j > 0 && IsSendOn(cp.actions[j - 1], a.connection)
      && (a.firstOnConnection <==>
            a.connection >= p.context.numConnections && forall k | 0 <= k < j - 1 ::
                  !IsSendOn(cp.actions[k], a.connection))
      && (a.firstOnConnection <==> j !in cp.metadata.violations)
      && (SetupNotFirst in Notes(cp.metadata, j) <==> !a.firstOnConnection)
      && (RawFrameBefore in Notes(cp.metadata, j) <==> exists k ::
            0 <= k < j - 1 && IsRawOn(cp.actions[k], a.connection))
  {
    hide B.StaticallyValid, CompileAll, SentIsSends, IdsRecorded, Typed;
    CompiledRecorded(p);
    var c := Lowered(p);
    var a := c.actions[j];
    assert AwaitRecorded(c, p.context.numConnections, j);
    var raw := RawOn(c.actions, j - 1, a.connection);
    if raw {
      var k :| 0 <= k < j - 1 && IsRawOn(c.actions[k], a.connection);
      assert IsSendOn(c.actions[k], a.connection);
    }
    NotesMembers(a.firstOnConnection, raw);
  }

  lemma NotesMembers(first: bool, raw: bool)
    ensures SetupNotFirst in ExpectedNotes(first, raw) <==> !first
    ensures RawFrameBefore in ExpectedNotes(first, raw) <==> raw
    ensures ExpectedNotes(first, raw) == [] <==> first && !raw
  {
  }
}
