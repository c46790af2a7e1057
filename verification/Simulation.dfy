/**
 * The compiler on renamed code: from a state that has already compiled something else, the same instructions
 * yield the same actions with ids, block ends and instruction numbers moved.
 */
module Simulation {
  import opened Wrappers
  import opened Ir
  import B = Builder
  import opened Scoping
  import opened Renaming
  import opened Compiler
  import opened Soundness

  /** So many connections, sessions and actions. */
  datatype Ids = Ids(connections: nat, sessions: nat, actions: nat)

  /**
   * How ids move: those below `from` stay where they are, the rest go up by `up`. Of the connections that stay, some
   * have been sent on in the meantime, and some of those sent raw frames.
   */
  datatype Move = Move(from: Ids, up: Ids, sent: set<nat>, raw: set<nat>)

  function MoveConnection(e: Move, c: nat): nat {
    if c < e.from.connections then c else c + e.up.connections
  }

  function MoveSession(e: Move, s: nat): nat {
    if s < e.from.sessions then s else s + e.up.sessions
  }

  function MoveValue(e: Move, v: Value): Value {
    match v
    case ConnectionValue(c) => ConnectionValue(MoveConnection(e, c))
    case AttemptValue(s, c) => AttemptValue(MoveSession(e, s), MoveConnection(e, c))
    case _ => v
  }

  function MoveValues(e: Move, values: seq<Value>): (r: seq<Value>)
    ensures |r| == |values|
  {
    seq(|values|, k requires 0 <= k < |values| => MoveValue(e, values[k]))
  }

  /**
   * An action moved. The end of a block still open is not known yet, and moves with nothing. A setup is no longer
   * first on a connection that has been sent on.
   */
  function MoveAction(e: Move, a: Action, pending: bool): Action {
    match a
    case Connect(c, role) => Action.Connect(MoveConnection(e, c), role)
    case Send(c, extension, message, channel, payload) =>
        Send(MoveConnection(e, c), extension, message, channel, payload)
    case AwaitSetupResponse(c, s, protocol, first) =>
      AwaitSetupResponse(MoveConnection(e, c), MoveSession(e, s), protocol, first && c !in e.sent)
    case EnterOnSetupSuccess(s, end) =>
        EnterOnSetupSuccess(MoveSession(e, s), if pending then end else end + e.up.actions)
    case _ => a
  }

  function MovePlan(e: Move, m: seq<nat>, plan: Plan): Plan {
    match plan
    case Define(values) => Define(MoveValues(e, values))
    case Edit(at, spec) => Edit(Renamed(at, m), spec)
    case Setup(c, spec, protocol) => Setup(MoveConnection(e, c), spec, protocol)
    case Enter(s) => Enter(MoveSession(e, s))
    case Frame(c, extension, message, bytes) => Frame(MoveConnection(e, c), extension, message, bytes)
    case _ => plan
  }

  function MoveError(m: seq<nat>, error: CompilerError): CompilerError {
    match error
    case MissingValue(v) => MissingValue(Renamed(v, m))
    case UnexpectedValue(v) => UnexpectedValue(Renamed(v, m))
    case StringTooLong(v) => StringTooLong(Renamed(v, m))
    case _ => error
  }

  /** Every input of the instruction has a value that is not a nop's. */
  predicate Readable(values: seq<Value>, i: Instruction) {
    && (forall k | 0 <= k < |i.inputs| :: i.inputs[k] < |values| && !values[i.inputs[k]].NopValue?)
  }

  /** Values correspond under `m`, which keeps the order of the variables that are not nops'. */
  ghost predicate ValuesSim(values: seq<Value>, values': seq<Value>, e: Move, m: seq<nat>) {
    && |m| == |values|
    && (forall v | 0 <= v < |m| :: !values[v].NopValue? ==>
          m[v] < |values'| && values'[m[v]] == MoveValue(e, values[v]))
    && (forall u, v | 0 <= u < v < |m| :: !values[u].NopValue? && !values[v].NopValue? ==> m[u] < m[v])
  }

  /** Reading a renamed input where the code was moved to finds the moved value. */
  lemma ValueAtSim(values: seq<Value>, values': seq<Value>, e: Move, m: seq<nat>, i: Instruction, k: nat)
    requires ValuesSim(values, values', e, m) && Readable(values, i)
    ensures ValueAt(values', RenameOne(i, m).inputs, k) ==
      match ValueAt(values, i.inputs, k)
      case Success(v) => Success(MoveValue(e, v))
      case Failure(error) => Failure(error)
    ensures ValueAt(values, i.inputs, k) == if k < |i.inputs| then Success(values[i.inputs[k]])
      else Failure(ShortInputs)
    ensures |RenameOne(i, m).inputs| == |i.inputs|
    ensures k < |i.inputs| ==> RenameOne(i, m).inputs[k] == Renamed(i.inputs[k], m)
  {
  }

  function MoveLowered(e: Move, m: seq<nat>, r: Lookup<Plan>): Lookup<Plan> {
    match r
    case Success(plan) => Success(MovePlan(e, m, plan))
    case Failure(error) => Failure(MoveError(m, error))
  }

  lemma LowerSimLoads(values: seq<Value>, values': seq<Value>, e: Move, m: seq<nat>, i: Instruction)
    requires i.operation.InputVariables() == []
    requires i.operation.LoadConnection? ==> i.operation.connection < e.from.connections
    ensures Lower(values', RenameOne(i, m)) == MoveLowered(e, m, Lower(values, i))
  {
    hide RenameOne, ValueAt;
    RenameKeepsOperation(i, m);
    var plan := Lower(values, i).value;
    if plan.Define? {
      assert forall v | v in plan.values :: MoveValue(e, v) == v;
      assert MoveValues(e, plan.values) == plan.values;
    }
  }

  lemma LowerSimEdits(values: seq<Value>, values': seq<Value>, e: Move, m: seq<nat>, i: Instruction)
    requires ValuesSim(values, values', e, m) && Readable(values, i)
    requires i.operation.SetVersions? || i.operation.SetFlags? || i.operation.SetEndpoint?
    ensures Lower(values', RenameOne(i, m)) == MoveLowered(e, m, Lower(values, i))
  {
    hide ValuesSim, Readable, RenameOne, Renamed, ValueAt;
    RenameKeepsOperation(i, m);
    ValueAtSim(values, values', e, m, i, 0);
    ValueAtSim(values, values', e, m, i, 1);
    if !i.operation.SetFlags? {
      ValueAtSim(values, values', e, m, i, 2);
    }
  }

  lemma LowerSimDevice(values: seq<Value>, values': seq<Value>, e: Move, m: seq<nat>, i: Instruction)
    requires ValuesSim(values, values', e, m) && Readable(values, i) && i.operation.SetDeviceInfo?
    ensures Lower(values', RenameOne(i, m)) == MoveLowered(e, m, Lower(values, i))
  {
    hide ValuesSim, Readable, RenameOne, Renamed, ValueAt;
    RenameKeepsOperation(i, m);
    ValueAtSim(values, values', e, m, i, 0);
    ValueAtSim(values, values', e, m, i, 1);
    ValueAtSim(values, values', e, m, i, 2);
    ValueAtSim(values, values', e, m, i, 3);
    ValueAtSim(values, values', e, m, i, 4);
  }

  lemma LowerSimUses(values: seq<Value>, values': seq<Value>, e: Move, m: seq<nat>, i: Instruction)
    requires ValuesSim(values, values', e, m) && Readable(values, i)
    requires i.operation.Connect? || i.operation.EndBuildSetupConnection? || i.operation.BeginOnSetupSuccess?
      || i.operation.AdvanceTime?
    ensures Lower(values', RenameOne(i, m)) == MoveLowered(e, m, Lower(values, i))
  {
    hide ValuesSim, Readable, RenameOne, Renamed, ValueAt;
    RenameKeepsOperation(i, m);
    ValueAtSim(values, values', e, m, i, 0);
    var r := Lower(values, i);
    if r.Success? && r.value.Define? {
      assert MoveValues(e, r.value.values) == r.value.values;
    }
  }

  lemma LowerSimSends(values: seq<Value>, values': seq<Value>, e: Move, m: seq<nat>, i: Instruction)
    requires ValuesSim(values, values', e, m) && Readable(values, i)
    requires i.operation.SendSetupConnection? || i.operation.SendRawFrame?
    ensures Lower(values', RenameOne(i, m)) == MoveLowered(e, m, Lower(values, i))
  {
    hide ValuesSim, Readable, RenameOne, Renamed, ValueAt, Encodable;
    RenameKeepsOperation(i, m);
    ValueAtSim(values, values', e, m, i, 0);
    ValueAtSim(values, values', e, m, i, 1);
  }

  /** Lowering commutes with moving. */
  lemma LowerSim(values: seq<Value>, values': seq<Value>, e: Move, m: seq<nat>, i: Instruction)
    requires ValuesSim(values, values', e, m) && Readable(values, i)
    requires i.operation.LoadConnection? ==> i.operation.connection < e.from.connections
    ensures Lower(values', RenameOne(i, m)) == MoveLowered(e, m, Lower(values, i))
  {
    hide ValuesSim, Readable, RenameOne, Lower, MoveLowered;
    match i.operation {
      case SetVersions => LowerSimEdits(values, values', e, m, i);
      case SetFlags => LowerSimEdits(values, values', e, m, i);
      case SetEndpoint => LowerSimEdits(values, values', e, m, i);
      case SetDeviceInfo => LowerSimDevice(values, values', e, m, i);
      case Connect => LowerSimUses(values, values', e, m, i);
      case EndBuildSetupConnection(_) => LowerSimUses(values, values', e, m, i);
      case BeginOnSetupSuccess(_) => LowerSimUses(values, values', e, m, i);
      case AdvanceTime => LowerSimUses(values, values', e, m, i);
      case SendSetupConnection(_) => LowerSimSends(values, values', e, m, i);
      case SendRawFrame(_, _) => LowerSimSends(values, values', e, m, i);
      case _ => LowerSimLoads(values, values', e, m, i);
    }
  }

  lemma RenameKeepsOperation(i: Instruction, m: seq<nat>)
    ensures RenameOne(i, m).operation == i.operation
  {
  }

  // ---------------------------------------------------------------------------------------------
  // Two compilers, one of them `pre` ahead
  // ---------------------------------------------------------------------------------------------

  ghost predicate CountersSim(c: State, c': State, e: Move, pre: State) {
    && e.from.connections <= c.connections && e.from.sessions <= c.sessions
    && pre.connections == e.from.connections + e.up.connections
    && pre.sessions == e.from.sessions + e.up.sessions
    && c'.connections == c.connections + e.up.connections
    && c'.sessions == c.sessions + e.up.sessions
  }

  ghost predicate BlocksSim(c: State, c': State, e: Move) {
    && |c'.blocks| == |c.blocks|
    && (forall j | 0 <= j < |c.blocks| ::
          e.from.actions <= c.blocks[j] < |c.actions| && c'.blocks[j] == c.blocks[j] + e.up.actions)
    && (forall i, j | 0 <= i < j < |c.blocks| :: c.blocks[i] < c.blocks[j])
  }

  ghost predicate ActionsSim(c: State, c': State, e: Move, pre: State) {
    && |pre.actions| == e.from.actions + e.up.actions
    && e.from.actions <= |c.actions| && |c'.actions| == |c.actions| + e.up.actions
    && (forall j | 0 <= j < |pre.actions| :: c'.actions[j] == pre.actions[j])
    && (forall j | e.from.actions <= j < |c.actions| ::
          c'.actions[j + e.up.actions] == MoveAction(e, c.actions[j], j in c.blocks))
  }

  ghost predicate SentSim(c: State, c': State, e: Move) {
    && (forall x | x in e.sent || x in e.raw :: x < e.from.connections)
    && (forall x: nat :: MoveConnection(e, x) in c'.sent <==> x in c.sent || x in e.sent)
    && (forall x: nat :: MoveConnection(e, x) in c'.rawFramed <==> x in c.rawFramed || x in e.raw)
  }

  function Notes(metadata: Metadata, action: nat): seq<ClientViolation> {
    if action in metadata.violations then metadata.violations[action] else []
  }

  /** What is noted of a setup, by what is on its connection already. */
  function NotesOf(sent: bool, raw: bool): seq<ClientViolation> {
    (if sent then [SetupNotFirst] else []) + (if raw then [RawFrameBefore] else [])
  }

  /** The violations of an action moved: its own, and for a setup what its connection has seen in the meantime. */
  function MoveNotes(e: Move, notes: seq<ClientViolation>, a: Action): seq<ClientViolation> {
    if a.AwaitSetupResponse? && (a.connection in e.sent || a.connection in e.raw)
    then NotesOf(SetupNotFirst in notes || a.connection in e.sent, RawFrameBefore in notes || a.connection in e.raw)
    else notes
  }

  ghost predicate NotesSim(c: State, c': State, e: Move, pre: State) {
    && (forall a | a in c.metadata.violations :: a < |c.actions|)
    && (forall a | a in c'.metadata.violations :: a < |c'.actions|)
    && (forall j | 0 <= j < |pre.actions| :: Notes(c'.metadata, j) == Notes(pre.metadata, j))
    && (forall j | e.from.actions <= j < |c.actions| ::
          Notes(c'.metadata, j + e.up.actions) == MoveNotes(e, Notes(c.metadata, j), c.actions[j]))
  }

  /** A table has the ids up to `hi`; moved, those from `at` come after what `pre` handed out. */
  ghost predicate IdsSim<T, U>(t: map<nat, T>, t': map<nat, U>, preT: map<nat, U>, at: nat, hi: nat, moved: nat) {
    && at <= hi
    && (forall k: nat | at <= k :: k in t <==> k < hi)
    && (forall k: nat | at + moved <= k :: k in t' <==> k < hi + moved)
    && (forall k: nat | k < at + moved :: (k in t' <==> k in preT) && (k in t' ==> t'[k] == preT[k]))
  }

  ghost predicate VariablesSim(t: map<nat, nat>, t': map<nat, nat>, preT: map<nat, nat>, at: nat, hi: nat, moved: nat,
    m: seq<nat>) {
    && IdsSim(t, t', preT, at, hi, moved)
    && (forall k: nat | at <= k < hi :: t[k] < |m| && t'[k + moved] == m[t[k]])
  }

  ghost predicate CopiesSim<T>(t: map<nat, T>, t': map<nat, T>, preT: map<nat, T>, at: nat, hi: nat, moved: nat) {
    && IdsSim(t, t', preT, at, hi, moved)
    && (forall k: nat | at <= k < hi :: t'[k + moved] == t[k])
  }

  /** Instruction numbers are renumbered by `im`. */
  ghost predicate OriginsSim(c: State, c': State, e: Move, pre: State, im: seq<nat>) {
    var a, a', b := c.metadata.actionInstructions, c'.metadata.actionInstructions, pre.metadata.actionInstructions;
    && |a| == |c.actions| && |b| == e.from.actions + e.up.actions && e.from.actions <= |a| && |a'| == |a| + e.up.actions
    && (forall j | 0 <= j < |b| :: a'[j] == b[j])
    && (forall j | e.from.actions <= j < |a| :: a[j] < |im| && a'[j + e.up.actions] == im[a[j]])
  }

  ghost predicate ConnectionsSim(c: State, c': State, e: Move, m: seq<nat>, pre: State) {
    VariablesSim(c.metadata.connectionVariables, c'.metadata.connectionVariables, pre.metadata.connectionVariables,
      e.from.connections, c.connections, e.up.connections, m)
  }

  ghost predicate SessionsSim(c: State, c': State, e: Move, m: seq<nat>, pre: State) {
    VariablesSim(c.metadata.sessionVariables, c'.metadata.sessionVariables, pre.metadata.sessionVariables,
      e.from.sessions, c.sessions, e.up.sessions, m)
  }

  ghost predicate SpecsSim(c: State, c': State, e: Move, pre: State) {
    CopiesSim(c.metadata.sessionSetups, c'.metadata.sessionSetups, pre.metadata.sessionSetups,
      e.from.sessions, c.sessions, e.up.sessions)
  }

  /** Everything the two compilers hold corresponds. */
  ghost predicate Sim(c: State, c': State, e: Move, m: seq<nat>, pre: State, im: seq<nat>) {
    && ValuesSim(c.values, c'.values, e, m)
    && CountersSim(c, c', e, pre)
    && BlocksSim(c, c', e)
    && ActionsSim(c, c', e, pre)
    && SentSim(c, c', e)
    && NotesSim(c, c', e, pre)
    && OriginsSim(c, c', e, pre, im)
    && ConnectionsSim(c, c', e, m, pre)
    && SessionsSim(c, c', e, m, pre)
    && SpecsSim(c, c', e, pre)
  }

  // Each part, over one plan.

  lemma AppendValuesSim(values: seq<Value>, values': seq<Value>, e: Move, m: seq<nat>, vs: seq<Value>)
    requires ValuesSim(values, values', e, m)
    ensures ValuesSim(values + vs, values' + MoveValues(e, vs), e, Extended(m, |values'|, |vs|))
  {
  }

  lemma EditValuesSim(values: seq<Value>, values': seq<Value>, e: Move, m: seq<nat>, at: nat, spec: SetupSpec)
    requires ValuesSim(values, values', e, m) && at < |values| && !values[at].NopValue?
    ensures Renamed(at, m) < |values'|
    ensures ValuesSim(values[at := SetupValue(spec)], values'[Renamed(at, m) := SetupValue(spec)], e, m)
  {
  }

  lemma DefinedMoves(c: State, c': State, e: Move, m: seq<nat>, pre: State, plan: Plan)
    requires CountersSim(c, c', e, pre)
    ensures Defined(c', MovePlan(e, m, plan)) == MoveValues(e, Defined(c, plan))
  {
  }

  lemma ApplyValuesSim(c: State, c': State, e: Move, m: seq<nat>, pre: State, plan: Plan, at: (nat, nat), d: State,
    d': State)
    requires ValuesSim(c.values, c'.values, e, m) && CountersSim(c, c', e, pre)
    requires plan.Edit? ==> plan.at < |c.values| && !c.values[plan.at].NopValue?
    requires Apply(c, at.0, plan) == Success(d) && Apply(c', at.1, MovePlan(e, m, plan)) == Success(d')
    ensures |d.values| >= |c.values| && |d'.values| == |c'.values| + (|d.values| - |c.values|)
    ensures ValuesSim(d.values, d'.values, e, Extended(m, |c'.values|, |d.values| - |c.values|))
  {
    hide ValuesSim, CountersSim, Extended, MoveValues;
    if plan.Edit? {
      EditValuesSim(c.values, c'.values, e, m, plan.at, plan.spec);
      ExtendedNone(m, |c'.values|);
    } else {
      hide Apply;
      ApplyGrows(c, at.0, plan, d);
      ApplyGrows(c', at.1, MovePlan(e, m, plan), d');
      DefinedMoves(c, c', e, m, pre, plan);
      AppendValuesSim(c.values, c'.values, e, m, Defined(c, plan));
    }
  }

  /** The values a plan defines, given the ids handed out so far. */
  function Defined(c: State, plan: Plan): seq<Value> {
    match plan
    case Define(values) => values
    case Open(_) => [ConnectionValue(c.connections)]
    case Setup(connection, _, _) => [AttemptValue(c.sessions, connection)]
    case Enter(_) => [SessionValue]
    case _ => []
  }

  lemma ApplyGrows(c: State, index: nat, plan: Plan, d: State)
    requires !plan.Edit? && Apply(c, index, plan) == Success(d)
    ensures d.values == c.values + Defined(c, plan)
  {
  }

  lemma ApplyCountersSim(c: State, c': State, e: Move, m: seq<nat>, pre: State, plan: Plan, at: (nat, nat), d: State,
    d': State)
    requires CountersSim(c, c', e, pre)
    requires Apply(c, at.0, plan) == Success(d) && Apply(c', at.1, MovePlan(e, m, plan)) == Success(d')
    ensures CountersSim(d, d', e, pre)
  {
    hide SetupViolations, MoveValues;
  }

  lemma ApplyBlocksSim(c: State, c': State, e: Move, m: seq<nat>, pre: State, plan: Plan, at: (nat, nat), d: State,
    d': State)
    requires BlocksSim(c, c', e) && ActionsSim(c, c', e, pre)
    requires Apply(c, at.0, plan) == Success(d) && Apply(c', at.1, MovePlan(e, m, plan)) == Success(d')
    ensures BlocksSim(d, d', e)
  {
    hide MoveAction, MoveValues, SetupViolations;
  }

  lemma ExitActionsSim(c: State, c': State, e: Move, m: seq<nat>, pre: State, plan: Plan, at: (nat, nat), d: State,
    d': State)
    requires CountersSim(c, c', e, pre) && BlocksSim(c, c', e) && ActionsSim(c, c', e, pre) && plan.Exit?
    requires Apply(c, at.0, plan) == Success(d) && Apply(c', at.1, MovePlan(e, m, plan)) == Success(d')
    ensures ActionsSim(d, d', e, pre)
  {
  }

  lemma EmitActionsSim(c: State, c': State, e: Move, m: seq<nat>, pre: State, plan: Plan, at: (nat, nat), d: State,
    d': State)
    requires CountersSim(c, c', e, pre) && BlocksSim(c, c', e) && ActionsSim(c, c', e, pre) && SentSim(c, c', e)
      && !plan.Exit?
    requires plan.Emit? ==> plan.action.AdvanceTime? || plan.action.Probe?
    requires Apply(c, at.0, plan) == Success(d) && Apply(c', at.1, MovePlan(e, m, plan)) == Success(d')
    ensures ActionsSim(d, d', e, pre)
  {
    hide MoveValues, SetupViolations;
  }

  lemma ApplyActionsSim(c: State, c': State, e: Move, m: seq<nat>, pre: State, plan: Plan, at: (nat, nat), d: State,
    d': State)
    requires CountersSim(c, c', e, pre) && BlocksSim(c, c', e) && ActionsSim(c, c', e, pre) && SentSim(c, c', e)
    requires plan.Emit? ==> plan.action.AdvanceTime? || plan.action.Probe?
    requires Apply(c, at.0, plan) == Success(d) && Apply(c', at.1, MovePlan(e, m, plan)) == Success(d')
    ensures ActionsSim(d, d', e, pre)
  {
    hide Apply, ActionsSim, BlocksSim, CountersSim, SentSim, MovePlan;
    if plan.Exit? {
      ExitActionsSim(c, c', e, m, pre, plan, at, d, d');
    } else {
      EmitActionsSim(c, c', e, m, pre, plan, at, d, d');
    }
  }

  lemma ApplySentSim(c: State, c': State, e: Move, m: seq<nat>, pre: State, plan: Plan, at: (nat, nat), d: State,
    d': State)
    requires SentSim(c, c', e)
    requires Apply(c, at.0, plan) == Success(d) && Apply(c', at.1, MovePlan(e, m, plan)) == Success(d')
    ensures SentSim(d, d', e)
  {
    hide MoveValues, SetupViolations, MoveAction;
  }

  lemma ApplyOriginsSim(c: State, c': State, e: Move, m: seq<nat>, pre: State, im: seq<nat>, plan: Plan, index: nat,
    d: State)
    requires OriginsSim(c, c', e, pre, im) && index < |im|
    requires Apply(c, index, plan) == Success(d) && Apply(c', im[index], MovePlan(e, m, plan)).Success?
    ensures OriginsSim(d, Apply(c', im[index], MovePlan(e, m, plan)).value, e, pre, im)
  {
    hide MoveValues, SetupViolations;
  }

  /** What a setup notes where it was moved to. */
  lemma SetupNotesSim(c: State, c': State, e: Move, m: seq<nat>, pre: State, plan: Plan, at: (nat, nat), d: State,
    d': State)
    requires ActionsSim(c, c', e, pre) && SentSim(c, c', e) && NotesSim(c, c', e, pre) && plan.Setup?
    requires Apply(c, at.0, plan) == Success(d) && Apply(c', at.1, MovePlan(e, m, plan)) == Success(d')
    ensures NotesSim(d, d', e, pre)
  {
    hide ActionsSim, SentSim, MoveNotes, Notes;
    LengthsSim(c, c', e, pre);
    NotedSetup(c, at.0, plan.connection, plan.spec, plan.protocol);
    NotedSetup(c', at.1, MoveConnection(e, plan.connection), plan.spec, plan.protocol);
    MovedSetupNotes(c, c', e, plan.connection, plan.protocol);
  }

  lemma LengthsSim(c: State, c': State, e: Move, pre: State)
    requires ActionsSim(c, c', e, pre)
    ensures |pre.actions| == e.from.actions + e.up.actions && e.from.actions <= |c.actions|
      && |c'.actions| == |c.actions| + e.up.actions
  {
  }

  /** What carrying out a setup notes: nothing of the frame, and of the await what is on the connection. */
  lemma NotedSetup(c: State, index: nat, y: nat, spec: SetupSpec, protocol: Protocol)
    requires forall a | a in c.metadata.violations :: a < |c.actions|
    ensures var d, n := SetupOn(c, index, y, spec, protocol), |c.actions|;
      && |d.actions| == n + 2 && d.actions[..n] == c.actions
      && d.actions[n] == SetupFrame(y, spec) && d.actions[n + 1]
        == AwaitSetupResponse(y, c.sessions, protocol, y !in c.sent)
      && (forall j | 0 <= j < n :: Notes(d.metadata, j) == Notes(c.metadata, j))
      && Notes(d.metadata, n) == [] && Notes(d.metadata, n + 1) == NotesOf(y in c.sent, y in c.rawFramed)
      && (forall a | a in d.metadata.violations :: a < |d.actions|)
  {
  }

  lemma MovedSetupNotes(c: State, c': State, e: Move, y: nat, protocol: Protocol)
    requires SentSim(c, c', e)
    ensures var a := AwaitSetupResponse(y, c.sessions, protocol, y !in c.sent);
      var y' := MoveConnection(e, y);
      NotesOf(y' in c'.sent, y' in c'.rawFramed) == MoveNotes(e, NotesOf(y in c.sent, y in c.rawFramed), a)
    ensures forall spec :: MoveNotes(e, [], SetupFrame(y, spec)) == []
  {
    assert [SetupNotFirst] + [RawFrameBefore] == [SetupNotFirst, RawFrameBefore];
  }

  lemma QuietNotesSim(c: State, c': State, e: Move, m: seq<nat>, pre: State, plan: Plan, at: (nat, nat), d: State,
    d': State)
    requires ActionsSim(c, c', e, pre) && ActionsSim(d, d', e, pre) && NotesSim(c, c', e, pre) && !plan.Setup?
    requires plan.Emit? ==> plan.action.AdvanceTime? || plan.action.Probe?
    requires Apply(c, at.0, plan) == Success(d) && Apply(c', at.1, MovePlan(e, m, plan)) == Success(d')
    ensures NotesSim(d, d', e, pre)
  {
    hide ActionsSim, NotesSim, Notes, MoveNotes, MovePlan, Apply, SentSim;
    LengthsSim(c, c', e, pre);
    LengthsSim(d, d', e, pre);
    MovedQuietly(e, m, plan);
    NotedQuietly(c, at.0, plan, d);
    NotedQuietly(c', at.1, MovePlan(e, m, plan), d');
    QuietNotes(c, c', e, pre, d, d');
  }

  lemma MovedQuietly(e: Move, m: seq<nat>, plan: Plan)
    requires !plan.Setup? && (plan.Emit? ==> plan.action.AdvanceTime? || plan.action.Probe?)
    ensures var moved := MovePlan(e, m, plan); !moved.Setup? && (moved.Emit? ==>
        moved.action.AdvanceTime? || moved.action.Probe?)
  {
  }

  /** Old awaits stay where they are, and nothing else is noted. */
  ghost predicate Quiet(c: State, d: State) {
    && d.metadata.violations == c.metadata.violations && |c.actions| <= |d.actions|
    && (forall j | 0 <= j < |c.actions| :: c.actions[j].AwaitSetupResponse? || d.actions[j].AwaitSetupResponse? ==>
          d.actions[j] == c.actions[j])
    && (forall j | |c.actions| <= j < |d.actions| :: !d.actions[j].AwaitSetupResponse?)
  }

  lemma NotedQuietly(c: State, index: nat, plan: Plan, d: State)
    requires !plan.Setup? && Apply(c, index, plan) == Success(d)
    requires plan.Emit? ==> plan.action.AdvanceTime? || plan.action.Probe?
    ensures Quiet(c, d)
  {
    hide MoveValues;
  }

  lemma QuietNotes(c: State, c': State, e: Move, pre: State, d: State, d': State)
    requires NotesSim(c, c', e, pre) && Quiet(c, d) && Quiet(c', d')
    requires |pre.actions| == e.from.actions + e.up.actions && e.from.actions <= |c.actions|
    requires |c'.actions| == |c.actions| + e.up.actions && |d'.actions| == |d.actions| + e.up.actions
    ensures NotesSim(d, d', e, pre)
  {
  }

  lemma ApplyNotesSim(c: State, c': State, e: Move, m: seq<nat>, pre: State, plan: Plan, at: (nat, nat), d: State,
    d': State)
    requires ActionsSim(c, c', e, pre) && ActionsSim(d, d', e, pre) && SentSim(c, c', e) && NotesSim(c, c', e, pre)
    requires plan.Emit? ==> plan.action.AdvanceTime? || plan.action.Probe?
    requires Apply(c, at.0, plan) == Success(d) && Apply(c', at.1, MovePlan(e, m, plan)) == Success(d')
    ensures NotesSim(d, d', e, pre)
  {
    hide Apply, ActionsSim, NotesSim, SentSim, MovePlan;
    if plan.Setup? {
      SetupNotesSim(c, c', e, m, pre, plan, at, d, d');
    } else {
      QuietNotesSim(c, c', e, m, pre, plan, at, d, d');
    }
  }

  lemma ExtendVariablesSim(t: map<nat, nat>, t': map<nat, nat>, preT: map<nat, nat>, at: nat, hi: nat, moved: nat,
    m: seq<nat>, more: seq<nat>)
    requires VariablesSim(t, t', preT, at, hi, moved, m)
    ensures VariablesSim(t, t', preT, at, hi, moved, m + more)
  {
    hide IdsSim;
  }

  /** One more id, on both sides. */
  lemma AddIdSim<T, U>(t: map<nat, T>, t': map<nat, U>, preT: map<nat, U>, at: nat, hi: nat, moved: nat, x: T, y: U)
    requires IdsSim(t, t', preT, at, hi, moved)
    ensures IdsSim(t[hi := x], t'[hi + moved := y], preT, at, hi + 1, moved)
  {
  }

  lemma AddVariableSim(t: map<nat, nat>, t': map<nat, nat>, preT: map<nat, nat>, at: nat, hi: nat, moved: nat,
    m: seq<nat>, next: nat)
    requires VariablesSim(t, t', preT, at, hi, moved, m)
    ensures VariablesSim(t[hi := |m|], t'[hi + moved := next], preT, at, hi + 1, moved, Extended(m, next, 1))
  {
    hide IdsSim;
    AddIdSim<nat, nat>(t, t', preT, at, hi, moved, |m|, next);
    AddedIds<nat, nat>(t, t', preT, at, hi, moved);
  }

  lemma AddedIds<T, U>(t: map<nat, T>, t': map<nat, U>, preT: map<nat, U>, at: nat, hi: nat, moved: nat)
    requires IdsSim(t, t', preT, at, hi, moved)
    ensures at <= hi && forall k: nat | at <= k < hi :: k in t && k + moved in t'
  {
  }

  lemma AddCopySim<T>(t: map<nat, T>, t': map<nat, T>, preT: map<nat, T>, at: nat, hi: nat, moved: nat, x: T)
    requires CopiesSim(t, t', preT, at, hi, moved)
    ensures CopiesSim(t[hi := x], t'[hi + moved := x], preT, at, hi + 1, moved)
  {
    hide IdsSim;
    AddIdSim<T, T>(t, t', preT, at, hi, moved, x, x);
    AddedIds<T, T>(t, t', preT, at, hi, moved);
  }

  lemma ApplyConnectionsSim(c: State, c': State, e: Move, m: seq<nat>, pre: State, plan: Plan, at: (nat, nat),
    d: State, d': State)
    requires CountersSim(c, c', e, pre) && |m| == |c.values| && ConnectionsSim(c, c', e, m, pre)
    requires Apply(c, at.0, plan) == Success(d) && Apply(c', at.1, MovePlan(e, m, plan)) == Success(d')
    ensures ConnectionsSim(d, d', e, Extended(m, |c'.values|, |Defined(c, plan)|), pre)
  {
    hide VariablesSim, Extended, SetupViolations, MoveValues;
    if plan.Open? {
      AddVariableSim(c.metadata.connectionVariables, c'.metadata.connectionVariables, pre.metadata.connectionVariables,
        e.from.connections, c.connections, e.up.connections, m, |c'.values|);
    } else {
      ExtendedIs(m, |c'.values|, |Defined(c, plan)|);
      ExtendVariablesSim(c.metadata.connectionVariables, c'.metadata.connectionVariables,
        pre.metadata.connectionVariables,
        e.from.connections, c.connections, e.up.connections, m, Extended([], |c'.values|, |Defined(c, plan)|));
    }
  }

  lemma ApplySessionsSim(c: State, c': State, e: Move, m: seq<nat>, pre: State, plan: Plan, at: (nat, nat), d: State,
    d': State)
    requires CountersSim(c, c', e, pre) && |m| == |c.values| && SessionsSim(c, c', e, m, pre)
    requires Apply(c, at.0, plan) == Success(d) && Apply(c', at.1, MovePlan(e, m, plan)) == Success(d')
    ensures SessionsSim(d, d', e, Extended(m, |c'.values|, |Defined(c, plan)|), pre)
  {
    hide VariablesSim, Extended, SetupViolations, MoveValues;
    if plan.Setup? {
      AddVariableSim(c.metadata.sessionVariables, c'.metadata.sessionVariables, pre.metadata.sessionVariables,
        e.from.sessions, c.sessions, e.up.sessions, m, |c'.values|);
    } else {
      ExtendedIs(m, |c'.values|, |Defined(c, plan)|);
      ExtendVariablesSim(c.metadata.sessionVariables, c'.metadata.sessionVariables, pre.metadata.sessionVariables,
        e.from.sessions, c.sessions, e.up.sessions, m, Extended([], |c'.values|, |Defined(c, plan)|));
    }
  }

  lemma ExtendedIs(m: seq<nat>, next: nat, n: nat)
    ensures Extended(m, next, n) == m + Extended([], next, n)
  {
  }

  lemma ApplySetupsSim(c: State, c': State, e: Move, m: seq<nat>, pre: State, plan: Plan, at: (nat, nat), d: State,
    d': State)
    requires CountersSim(c, c', e, pre) && SpecsSim(c, c', e, pre)
    requires Apply(c, at.0, plan) == Success(d) && Apply(c', at.1, MovePlan(e, m, plan)) == Success(d')
    ensures SpecsSim(d, d', e, pre)
  {
    hide CopiesSim, SetupViolations, MoveValues;
    if plan.Setup? {
      AddCopySim(c.metadata.sessionSetups, c'.metadata.sessionSetups, pre.metadata.sessionSetups,
        e.from.sessions, c.sessions, e.up.sessions, plan.spec);
    }
  }

  /** Carrying out a moved plan fails just when carrying out the plan does. */
  lemma ApplyResultSim(c: State, c': State, e: Move, m: seq<nat>, pre: State, plan: Plan, at: (nat, nat))
    requires ValuesSim(c.values, c'.values, e, m) && BlocksSim(c, c', e) && ActionsSim(c, c', e, pre)
    requires plan.Edit? ==> plan.at < |c.values| && !c.values[plan.at].NopValue?
    requires Apply(c, at.0, plan).Success?
    ensures Apply(c', at.1, MovePlan(e, m, plan)).Success?
  {
    if plan.Edit? {
      EditValuesSim(c.values, c'.values, e, m, plan.at, plan.spec);
    }
  }

  lemma PlanDefines(c: State, index: nat, plan: Plan, d: State)
    requires Apply(c, index, plan) == Success(d)
    ensures |d.values| == |c.values| + |Defined(c, plan)|
  {
  }

  /** Carrying out a moved plan keeps the compilers corresponding. */
  lemma ApplySim(c: State, c': State, e: Move, m: seq<nat>, pre: State, im: seq<nat>, plan: Plan, index: nat)
    requires Sim(c, c', e, m, pre, im) && index < |im|
    requires plan.Emit? ==> plan.action.AdvanceTime? || plan.action.Probe?
    requires plan.Edit? ==> plan.at < |c.values| && !c.values[plan.at].NopValue?
    requires Apply(c, index, plan).Success?
    ensures var d, r := Apply(c, index, plan).value, Apply(c', im[index], MovePlan(e, m, plan));
      && r.Success?
      && |d.values| >= |c.values| && |r.value.values| == |c'.values| + (|d.values| - |c.values|)
      && Sim(d, r.value, e, Extended(m, |c'.values|, |d.values| - |c.values|), pre, im)
  {
    hide Apply, MovePlan, ValuesSim, CountersSim, BlocksSim, ActionsSim, SentSim, NotesSim, OriginsSim, ConnectionsSim,
      SessionsSim,
      SpecsSim, Extended;
    var at := (index, im[index]);
    ApplyResultSim(c, c', e, m, pre, plan, at);
    var d, d' := Apply(c, index, plan).value, Apply(c', im[index], MovePlan(e, m, plan)).value;
    PlanDefines(c, index, plan, d);
    ValuesSimLength(c.values, c'.values, e, m);
    ApplyValuesSim(c, c', e, m, pre, plan, at, d, d');
    ApplyCountersSim(c, c', e, m, pre, plan, at, d, d');
    ApplyBlocksSim(c, c', e, m, pre, plan, at, d, d');
    ApplyActionsSim(c, c', e, m, pre, plan, at, d, d');
    ApplySentSim(c, c', e, m, pre, plan, at, d, d');
    ApplyNotesSim(c, c', e, m, pre, plan, at, d, d');
    ApplyOriginsSim(c, c', e, m, pre, im, plan, index, d);
    ApplyConnectionsSim(c, c', e, m, pre, plan, at, d, d');
    ApplySessionsSim(c, c', e, m, pre, plan, at, d, d');
    ApplySetupsSim(c, c', e, m, pre, plan, at, d, d');
  }

  lemma ValuesSimLength(values: seq<Value>, values': seq<Value>, e: Move, m: seq<nat>)
    requires ValuesSim(values, values', e, m)
    ensures |m| == |values|
  {
  }

  // ---------------------------------------------------------------------------------------------
  // One accepted instruction, then a run of them
  // ---------------------------------------------------------------------------------------------

  /** The inputs of an accepted instruction have values, and none is a nop's. */
  lemma AdmissibleReadable(b: B.State, c: State, i: Instruction)
    requires ValuesTyped(b, c) && Admissible(b, i)
    ensures Readable(c.values, i)
  {
    forall k | 0 <= k < |i.inputs| ensures i.inputs[k] < |c.values| && !c.values[i.inputs[k]].NopValue? {
      InputShape(b, c, i, k);
    }
  }

  lemma PlanConditions(b: B.State, c: State, i: Instruction, plan: Plan)
    requires PlanFits(b, c, i, plan)
    ensures plan.Emit? ==> plan.action.AdvanceTime? || plan.action.Probe?
    ensures plan.Edit? ==> plan.at < |c.values| && !c.values[plan.at].NopValue?
  {
  }

  lemma SimParts(c: State, c': State, e: Move, m: seq<nat>, pre: State, im: seq<nat>)
    requires Sim(c, c', e, m, pre, im)
    ensures ValuesSim(c.values, c'.values, e, m) && |m| == |c.values|
  {
  }

  lemma TypedLength(b: B.State, c: State)
    requires Typed(b, c)
    ensures |c.values| == |b.variables|
  {
  }

  lemma StepAdds(b: B.State, i: Instruction)
    requires Wellformed(b) && B.Step(b, i).Appended?
    ensures |B.Step(b, i).state.variables| == |b.variables| + i.operation.Defines()
  {
    hide B.Step, Wellformed, Operation.Defines;
    StepTaken(b, i);
    LeftVariables(b, i.operation);
  }

  /** An accepted instruction compiles, moved, to what it compiled to, moved. */
  lemma StepSim(b: B.State, c: State, c': State, e: Move, m: seq<nat>, pre: State, im: seq<nat>, i: Instruction)
    requires Wellformed(b) && Typed(b, c) && B.Step(b, i).Appended?
    requires Sim(c, c', e, m, pre, im) && |b.instructions| < |im| && b.context.numConnections <= e.from.connections
    ensures var r, r' := CompileStep(c, |b.instructions|, i), CompileStep(c', im[|b.instructions|], RenameOne(i, m));
      match r
      case Success(d) =>
        && r'.Success?
        && Typed(B.Step(b, i).state, d)
        && |r'.value.values| == |c'.values| + i.operation.Defines()
        && Sim(d, r'.value, e, Extended(m, |c'.values|, i.operation.Defines()), pre, im)
      case Failure(error) =>
        error.StringTooLong? && error.index < |m| && r' == Failure(StringTooLong(Renamed(error.index, m)))
  {
    hide B.Step, Wellformed, Admissible, Lower, Apply, PlanFits, ValuesTyped, Typed, Sim, Grew, Readable, ValuesSim,
      RenameOne,
      Renamed, MovePlan, Extended, Operation.Defines, Encodable;
    StepTaken(b, i);
    AcceptsAdmissible(b, i);
    TypedValues(b, c);
    TypedLength(b, c);
    LowerFits(b, c, i);
    AdmissibleReadable(b, c, i);
    SimParts(c, c', e, m, pre, im);
    LoadsBelow(b, i);
    LowerSim(c.values, c'.values, e, m, i);
    StepTyped(b, c, i);
    StepAdds(b, i);
    if Lower(c.values, i).Success? {
      var plan := Lower(c.values, i).value;
      PlanConditions(b, c, i, plan);
      ApplyNeverTooLong(c, |b.instructions|, plan);
      ApplySim(c, c', e, m, pre, im, plan, |b.instructions|);
      TypedLength(B.Step(b, i).state, Apply(c, |b.instructions|, plan).value);
    }
  }

  lemma LoadsBelow(b: B.State, i: Instruction)
    requires Admissible(b, i)
    ensures i.operation.LoadConnection? ==> i.operation.connection < b.context.numConnections
  {
  }

  /** `j` instructions on are `j` instructions on. */
  ghost predicate Contiguous(im: seq<nat>) {
    forall j | 0 < j < |im| :: im[j] == im[j - 1] + 1
  }

  lemma RenamedExtended(v: nat, m: seq<nat>, next: nat, n: nat)
    requires v < |m|
    ensures Renamed(v, Extended(m, next, n)) == Renamed(v, m)
  {
  }

  /** A run of accepted instructions compiles, renamed, to what it compiled to, moved. */
  lemma {:induction false} StepsSim(b: B.State, c: State, c': State, e: Move, m: seq<nat>, pre: State, im: seq<nat>,
    code: seq<Instruction>)
    requires Wellformed(b) && Typed(b, c) && B.Steps(b, code).Appended?
    requires Sim(c, c', e, m, pre, im) && |b.instructions| + |code| < |im|
      && b.context.numConnections <= e.from.connections && Contiguous(im)
    ensures var r := CompileAll(c, code, |b.instructions|);
      var r' := CompileAll(c', RenameAll(code, m, |c'.values|), im[|b.instructions|]);
      var m' := Extended(m, |c'.values|, VariableCount(code));
      match r
      case Success(d) => r'.Success? && Typed(B.Steps(b, code).state, d) && Sim(d, r'.value, e, m', pre, im)
      case Failure(error) =>
        error.StringTooLong? && error.index < |m'| && r' == Failure(StringTooLong(Renamed(error.index, m')))
    decreases |code|
  {
    hide B.Step, Wellformed, Typed, Sim, Grew, CompileStep, RenameOne, Renamed, Extended, Operation.Defines, Left;
    if code == [] {
      ExtendedNone(m, |c'.values|);
    } else {
      var i, n := code[0], code[0].operation.Defines();
      StepTaken(b, i);
      StepSim(b, c, c', e, m, pre, im, i);
      var rest := RenameAll(code[1..], Extended(m, |c'.values|, n), |c'.values| + n);
      var all := RenameAll(code, m, |c'.values|);
      assert all[0] == RenameOne(i, m) && all[1..] == rest;
      ExtendedTwice(m, |c'.values|, n, VariableCount(code[1..]));
      var r := CompileStep(c, |b.instructions|, i);
      if r.Success? {
        var d' := CompileStep(c', im[|b.instructions|], RenameOne(i, m)).value;
        StepsSim(B.Step(b, i).state, r.value, d', e, Extended(m, |c'.values|, n), pre, im, code[1..]);
      } else {
        SimParts(c, c', e, m, pre, im);
        RenamedExtended(r.error.index, m, |c'.values|, VariableCount(code));
      }
    }
  }
}
