/** What the transformations do to the compiled program: concatenation appends, dropping nops changes nothing. */
module Homomorphism {
  import opened Wrappers
  import opened Ir
  import B = Builder
  import opened Scoping
  import opened Renaming
  import opened Compiler
  import opened Soundness
  import opened Simulation
  import opened Ledger
  import opened Removal
  import C = Concat

  /**
   * How a program moves that comes after what `pre` has compiled: past its connections, sessions and actions,
   * but for the connections that exist before the program.
   */
  function Past(existing: nat, pre: State): Move
    requires existing <= pre.connections
  {
    Move(Ids(existing, 0, 0), Ids(pre.connections - existing, pre.sessions, |pre.actions|),
      {}, set x | x in pre.rawFramed && x < existing)
  }

  function MoveActions(e: Move, actions: seq<Action>): seq<Action> {
    seq(|actions|, j requires 0 <= j < |actions| => MoveAction(e, actions[j], false))
  }

  /** A compiler starting on the second program corresponds to one that has just finished the first. */
  lemma FreshSim(context: ProgramContext, base: nat, pre: State, im: seq<nat>)
    requires Recorded(pre, base) && pre.blocks == [] && context.numConnections <= base
    ensures context.numConnections <= pre.connections
    ensures Sim(Initial(context), pre, Past(context.numConnections, pre), [], pre, im)
  {
    hide AwaitRecorded, IdsOrdered;
    var c, e := Initial(context), Past(context.numConnections, pre);
    assert SentSim(c, pre, e) by {
      forall x: nat
        ensures MoveConnection(e, x) in pre.sent <==> x in c.sent || x in e.sent
        ensures MoveConnection(e, x) in pre.rawFramed <==> x in c.rawFramed || x in e.raw
      {
        RawIsSent(pre, base, MoveConnection(e, x));
      }
    }
  }

  lemma RawIsSent(c: State, base: nat, x: nat)
    requires SentIsSends(c, base)
    ensures x in c.rawFramed ==> x in c.sent
  {
    if x in c.rawFramed {
      var j :| 0 <= j < |c.actions| && IsRawOn(c.actions[j], x);
      assert IsSendOn(c.actions[j], x);
    }
  }

  function Numbers(first: nat, n: nat): (r: seq<nat>)
    ensures |r| == n
  {
    seq(n, k requires 0 <= k => first + k)
  }

  lemma ExtendedIsNumbers(first: nat, n: nat)
    ensures Extended([], first, n) == Numbers(first, n)
    ensures forall v | 0 <= v < n :: Renamed(v, Numbers(first, n)) == v + first
  {
  }

  lemma NumbersContiguous(first: nat, n: nat)
    ensures Contiguous(Numbers(first, n + 1)) && Numbers(first, n + 1)[0] == first
  {
  }

  /** The whole run of the compiler over the second program, moved. */
  lemma SplicedSim(p: Program, q: Program)
    requires B.StaticallyValid(p) && B.StaticallyValid(q) && Compile(p).Success?
    requires q.context.numConnections <= p.context.numConnections <= Lowered(p).connections
    ensures var offset, n := VariableCount(p.instructions), |p.instructions|;
      var r := CompileAll(Initial(q.context), q.instructions, 0);
      var r' := CompileAll(Initial(p.context), C.Spliced(p, q).instructions, 0);
      var m := Numbers(offset, VariableCount(q.instructions));
      match r
      case Success(d) =>
        r'.Success? && Sim(d, r'.value, Past(q.context.numConnections, Lowered(p)), m, Lowered(p),
          Numbers(n, |q.instructions| + 1)) && d.blocks == []
      case Failure(error) =>
        error.StringTooLong? && error.index < |m| && r' == Failure(StringTooLong(error.index + offset))
  {
    hide B.Steps, CompileAll, Wellformed, Recorded, B.Finalize, Typed, Sim, C.Shift, VariableCount, Extended, Numbers,
      Contiguous, Renamed;
    var offset, n := VariableCount(p.instructions), |p.instructions|;
    var im := Numbers(n, |q.instructions| + 1);
    var pre, e := Lowered(p), Past(q.context.numConnections, Lowered(p));
    NumbersContiguous(n, |q.instructions|);
    CompiledRecorded(p);
    FreshSim(q.context, p.context.numConnections, pre, im);
    NewWellformed(q.context);
    InitialTyped(q.context);
    LoweredLength(p);
    StepsSim(B.New(q.context), Initial(q.context), pre, e, [], pre, im, q.instructions);
    StepsDefined(B.New(q.context), q.instructions);
    ExtendedNone([], offset);
    C.ShiftIsRename(q.instructions, 0, offset);
    CompileAllConcat(Initial(p.context), p.instructions, C.Shift(q.instructions, offset), 0);
    ExtendedIsNumbers(offset, VariableCount(q.instructions));
    if CompileAll(Initial(q.context), q.instructions, 0).Success? {
      CompiledRecorded(q);
    }
  }

  /** A compiled program has a value for every variable. */
  lemma LoweredLength(p: Program)
    requires B.StaticallyValid(p) && Compile(p).Success?
    ensures |Lowered(p).values| == VariableCount(p.instructions)
  {
    hide B.Steps, CompileAll, Wellformed, Recorded, B.Finalize;
    CompiledRecorded(p);
    NewWellformed(p.context);
    StepsVariables(B.New(p.context), p.instructions);
    TypedLength(B.FromPrefix(p.context, p.instructions).state, Lowered(p));
  }

  /** The tables of the result are the first program's, then the second's with its ids and variables moved. */
  ghost predicate MetadataMoved(p: Program, q: Program, r: Metadata, e: Move)
    requires Compile(p).Success? && Compile(q).Success?
  {
    var a, b := Compile(p).value.metadata, Compile(q).value.metadata;
    var offset, n := VariableCount(p.instructions), |p.instructions|;
    && r.actionInstructions == a.actionInstructions
      + seq(|b.actionInstructions|, j requires 0 <= j < |b.actionInstructions| => b.actionInstructions[j] + n)
    && CopiesMoved(a.sessionSetups, b.sessionSetups, r.sessionSetups, e.up.sessions)
    && VariablesMoved(a.sessionVariables, b.sessionVariables, r.sessionVariables, e.up.sessions, offset)
    && VariablesMoved(a.connectionVariables, b.connectionVariables, r.connectionVariables, e.up.connections, offset)
  }

  /** The variables of ids: those of the first table, then those of the second moved, and no others. */
  ghost predicate VariablesMoved(a: map<nat, nat>, b: map<nat, nat>, r: map<nat, nat>, up: nat, offset: nat) {
    && (forall k | k in a :: k in r && r[k] == a[k])
    && (forall k | k in b :: k + up in r && r[k + up] == b[k] + offset)
    && (forall k | k in r :: k in a || (k >= up && k - up in b))
  }

  ghost predicate CopiesMoved<T>(a: map<nat, T>, b: map<nat, T>, r: map<nat, T>, up: nat) {
    && (forall k | k in a :: k in r && r[k] == a[k])
    && (forall k | k in b :: k + up in r && r[k + up] == b[k])
    && (forall k | k in r :: k in a || (k >= up && k - up in b))
  }

  lemma VariablesMove(t: map<nat, nat>, t': map<nat, nat>, preT: map<nat, nat>, at: nat, hi: nat, moved: nat,
    m: seq<nat>, offset: nat)
    requires VariablesSim(t, t', preT, at, hi, moved, m)
    requires (forall k | k in t :: at <= k) && (forall k | k in preT :: k < at + moved)
    requires forall v | 0 <= v < |m| :: m[v] == v + offset
    ensures VariablesMoved(preT, t, t', moved, offset)
  {
    forall k | k in t' ensures k in preT || (k >= moved && k - moved in t) {
      if k >= at + moved {
        assert k - moved in t;
      }
    }
  }

  lemma CopiesMove<T>(t: map<nat, T>, t': map<nat, T>, preT: map<nat, T>, at: nat, hi: nat, moved: nat)
    requires CopiesSim(t, t', preT, at, hi, moved)
    requires (forall k | k in t :: at <= k) && (forall k | k in preT :: k < at + moved)
    ensures CopiesMoved(preT, t, t', moved)
  {
    forall k | k in t' ensures k in preT || (k >= moved && k - moved in t) {
      if k >= at + moved {
        assert k - moved in t;
      }
    }
  }

  lemma SimActions(c: State, c': State, e: Move, m: seq<nat>, pre: State, im: seq<nat>)
    requires Sim(c, c', e, m, pre, im) && c.blocks == [] && e.from.actions == 0
    ensures c'.actions == pre.actions + MoveActions(e, c.actions)
  {
    hide ValuesSim, SentSim, ConnectionsSim, SessionsSim, SpecsSim, OriginsSim, NotesSim;
  }

  lemma SimNotes(c: State, c': State, e: Move, m: seq<nat>, pre: State, im: seq<nat>)
    requires Sim(c, c', e, m, pre, im) && e.from.actions == 0
    ensures |pre.actions| == e.up.actions
    ensures forall j | 0 <= j < |pre.actions| :: Notes(c'.metadata, j) == Notes(pre.metadata, j)
    ensures forall j | 0 <= j < |c.actions| ::
        Notes(c'.metadata, j + |pre.actions|) == MoveNotes(e, Notes(c.metadata, j), c.actions[j])
  {
    hide ValuesSim, SentSim, ConnectionsSim, SessionsSim, SpecsSim, OriginsSim, BlocksSim, Notes, MoveNotes, MoveAction;
  }

  lemma SimMetadata(p: Program, q: Program, c': State, m: seq<nat>, im: seq<nat>)
    requires Compile(p).Success? && Compile(q).Success?
    requires q.context.numConnections <= p.context.numConnections <= Lowered(p).connections
    requires Sim(Lowered(q), c', Past(q.context.numConnections, Lowered(p)), m, Lowered(p), im)
    requires TablesRecorded(Lowered(p), p.context.numConnections)
      && TablesRecorded(Lowered(q), q.context.numConnections)
    requires m == Numbers(VariableCount(p.instructions), VariableCount(q.instructions))
    requires im == Numbers(|p.instructions|, |q.instructions| + 1)
    requires Compile(p).value.metadata == Lowered(p).metadata && Compile(q).value.metadata == Lowered(q).metadata
    ensures MetadataMoved(p, q, c'.metadata, Past(q.context.numConnections, Lowered(p)))
  {
    hide ValuesSim, SentSim, ActionsSim, NotesSim, BlocksSim, CompileAll, VariableCount, VariablesSim, CopiesSim,
      VariablesMoved, CopiesMoved;
    var c, pre, e := Lowered(q), Lowered(p), Past(q.context.numConnections, Lowered(p));
    VariablesMove(c.metadata.connectionVariables, c'.metadata.connectionVariables, pre.metadata.connectionVariables,
      e.from.connections, c.connections, e.up.connections, m, VariableCount(p.instructions));
    VariablesMove(c.metadata.sessionVariables, c'.metadata.sessionVariables, pre.metadata.sessionVariables,
      e.from.sessions, c.sessions, e.up.sessions, m, VariableCount(p.instructions));
    CopiesMove(c.metadata.sessionSetups, c'.metadata.sessionSetups, pre.metadata.sessionSetups, e.from.sessions,
      c.sessions, e.up.sessions);
  }

  /** What splicing `q` after `p` compiles to. */
  ghost predicate Joined(p: Program, q: Program)
    requires Compile(p).Success?
  {
    var r := Compile(C.Spliced(p, q));
    match Compile(q)
    case Failure(error) =>
      error.StringTooLong? && r == Failure(StringTooLong(error.index + VariableCount(p.instructions)))
    case Success(second) =>
      var first := Compile(p).value;
      && q.context.numConnections <= p.context.numConnections <= Lowered(p).connections
      && r.Success?
      && var e := Past(q.context.numConnections, Lowered(p));
      && r.value.actions == first.actions + MoveActions(e, second.actions)
      && MetadataMoved(p, q, r.value.metadata, e)
      && (forall j | 0 <= j < |first.actions| :: Notes(r.value.metadata, j) == Notes(first.metadata, j))
      && (forall j | 0 <= j < |second.actions| ::
            Notes(r.value.metadata, j + |first.actions|) == MoveNotes(e, Notes(second.metadata, j), second.actions[j]))
  }

  /** What splicing compiles to, into a context at least as large. */
  lemma SplicedLowers(p: Program, q: Program)
    requires B.StaticallyValid(p) && B.StaticallyValid(q) && Compile(p).Success?
    requires q.context.numConnections <= p.context.numConnections
    ensures p.context.numConnections <= Lowered(p).connections
    ensures Joined(p, q)
  {
    hide B.StaticallyValid, CompileAll, Recorded, Typed, Sim, MetadataMoved, VariableCount, C.Spliced;
    CompiledRecorded(p);
    RecordedParts(Lowered(p), p.context.numConnections);
    SplicedSim(p, q);
    SplicedContext(p, q);
    if Compile(q).Success? {
      var m, im := Numbers(VariableCount(p.instructions), VariableCount(q.instructions)),
        Numbers(|p.instructions|, |q.instructions| + 1);
      var c', e := CompileAll(Initial(p.context), C.Spliced(p, q).instructions, 0).value,
        Past(q.context.numConnections, Lowered(p));
      CompiledRecorded(q);
      RecordedParts(Lowered(q), q.context.numConnections);
      SimActions(Lowered(q), c', e, m, Lowered(p), im);
      SimNotes(Lowered(q), c', e, m, Lowered(p), im);
      SimMetadata(p, q, c', m, im);
    }
  }

  /**
   * Compilation is a homomorphism over concatenation, whatever the two contexts, so long as the splice is valid:
   * as it is if the first program's context is at least as large. Splicing compiles to the first program's actions
   * and then the second's, as compiled where it fits, moved; the first program's violations stay, and the second's
   * gain at most a raw frame noted on a setup of a connection that existed before, which the first program put a raw
   * frame on.
   */
  lemma SplicedCompiles(p: Program, q: Program)
    requires B.StaticallyValid(p) && B.StaticallyValid(q) && Compile(p).Success?
    requires q.context.numConnections <= p.context.numConnections || B.StaticallyValid(C.Spliced(p, q))
    ensures B.StaticallyValid(C.Fitted(p, q)) && C.Spliced(p, C.Fitted(p, q)) == C.Spliced(p, q)
    ensures Joined(p, C.Fitted(p, q))
  {
    hide B.StaticallyValid, Joined, C.Spliced;
    if q.context.numConnections > p.context.numConnections {
      C.FittedValid(p, q);
    }
    SplicedLowers(p, C.Fitted(p, q));
  }

  lemma SplicedContext(p: Program, q: Program)
    ensures C.Spliced(p, q).context == p.context
  {
  }

  lemma RecordedParts(c: State, base: nat)
    requires Recorded(c, base)
    ensures TablesRecorded(c, base) && base <= c.connections
  {
  }

  /** If no connections exist before the second program, its violations are exactly what they were. */
  lemma SplicedViolations(p: Program, q: Program, j: nat)
    requires B.StaticallyValid(p) && B.StaticallyValid(q) && Compile(p).Success? && Compile(q).Success?
    requires q.context.numConnections == 0 && j < |Compile(q).value.actions|
    ensures Compile(C.Spliced(p, q)).Success?
    ensures Notes(Compile(C.Spliced(p, q)).value.metadata, j + |Compile(p).value.actions|)
      == Notes(Compile(q).value.metadata, j)
  {
    hide B.StaticallyValid, Compile, CompileAll, MetadataMoved;
    SplicedCompiles(p, q);
  }

  /** A first program that does not compile keeps the splice from compiling, for the same reason. */
  lemma SplicedFails(p: Program, q: Program)
    requires Compile(p).Failure?
    ensures Compile(C.Spliced(p, q)).Failure? && Compile(C.Spliced(p, q)).error == Compile(p).error
  {
    hide CompileAll;
    CompileAllConcat(Initial(p.context), p.instructions, C.Shift(q.instructions, VariableCount(p.instructions)), 0);
  }

  // ---------------------------------------------------------------------------------------------
  // Dropping nops
  // ---------------------------------------------------------------------------------------------

  /** How many of the first `k` instructions are not nops: the number instruction `k` gets once they are dropped. */
  function KeptBefore(code: seq<Instruction>, k: nat): nat
    requires k <= |code|
  {
    if k == 0 then 0 else KeptBefore(code, k - 1) + if code[k - 1].operation.Nop? then 0 else 1
  }

  function KeptNumbers(code: seq<Instruction>): seq<nat> {
    seq(|code| + 1, k requires 0 <= k < |code| + 1 => KeptBefore(code, k))
  }

  function Still(context: ProgramContext): Move {
    Move(Ids(context.numConnections, 0, 0), Ids(0, 0, 0), {}, {})
  }

  lemma NopValuesSim(values: seq<Value>, values': seq<Value>, e: Move, m: seq<nat>, n: nat, next: nat)
    requires ValuesSim(values, values', e, m)
    ensures ValuesSim(values + Nops(n), values', e, m + Repeated<nat>(next, n))
  {
  }

  /** Compiling a nop leaves a compiler that never sees it corresponding. */
  lemma NopSim(c: State, c': State, e: Move, m: seq<nat>, pre: State, im: seq<nat>, i: Instruction, index: nat)
    requires Sim(c, c', e, m, pre, im) && i.operation.Nop?
    ensures CompileStep(c, index, i).Success?
    ensures |CompileStep(c, index, i).value.values| == |c.values| + i.operation.Defines()
    ensures Sim(CompileStep(c, index, i).value, c', e, m + Repeated<nat>(|c'.values|, i.operation.Defines()), pre, im)
  {
    hide ValuesSim, VariablesSim, CountersSim, BlocksSim, ActionsSim, SentSim, NotesSim, OriginsSim, SpecsSim,
      Repeated, Nops;
    var n := i.operation.Defines();
    assert CompileStep(c, index, i) == Success(PushValues(c, Nops(n)));
    NopValuesSim(c.values, c'.values, e, m, n, |c'.values|);
    ExtendVariablesSim(c.metadata.connectionVariables, c'.metadata.connectionVariables,
      pre.metadata.connectionVariables,
      e.from.connections, c.connections, e.up.connections, m, Repeated<nat>(|c'.values|, n));
    ExtendVariablesSim(c.metadata.sessionVariables, c'.metadata.sessionVariables, pre.metadata.sessionVariables,
      e.from.sessions, c.sessions, e.up.sessions, m, Repeated<nat>(|c'.values|, n));
    NopKeepsSim(c, c', e, pre, im, PushValues(c, Nops(n)));
  }

  /** Values alone make no difference to the rest. */
  lemma NopKeepsSim(c: State, c': State, e: Move, pre: State, im: seq<nat>, d: State)
    requires d == c.(values := d.values)
    requires CountersSim(c, c', e, pre) && BlocksSim(c, c', e) && ActionsSim(c, c', e, pre) && SentSim(c, c', e)
    requires NotesSim(c, c', e, pre) && OriginsSim(c, c', e, pre, im) && SpecsSim(c, c', e, pre)
    ensures CountersSim(d, c', e, pre) && BlocksSim(d, c', e) && ActionsSim(d, c', e, pre) && SentSim(d, c', e)
    ensures NotesSim(d, c', e, pre) && OriginsSim(d, c', e, pre, im) && SpecsSim(d, c', e, pre)
  {
    hide CopiesSim;
  }

  lemma RenamedPrefix(v: nat, m: seq<nat>, rest: seq<nat>)
    requires v < |m|
    ensures Renamed(v, m + rest) == Renamed(v, m)
  {
  }

  lemma StepReads(b: B.State, i: Instruction)
    requires Wellformed(b) && B.Step(b, i).Appended?
    ensures InputsBelow(i, |b.variables|)
  {
    hide B.Step, Wellformed;
    StepTaken(b, i);
  }

  lemma CompileHead(c: State, code: seq<Instruction>, k: nat, index: nat)
    requires k < |code|
    ensures CompileAll(c, code[k..], index) ==
      var next := CompileStep(c, index, code[k]);
      if next.Success? then CompileAll(next.value, code[k + 1..], index + 1) else Failure(next.error)
  {
    assert code[k..][0] == code[k] && code[k..][1..] == code[k + 1..];
  }

  lemma StepsFrom(b: B.State, code: seq<Instruction>, k: nat)
    requires k < |code| && B.Steps(b, code[k..]).Appended?
    ensures B.Step(b, code[k]).Appended? && B.Steps(B.Step(b, code[k]).state, code[k + 1..]).Appended?
  {
    assert code[k..][0] == code[k] && code[k..][1..] == code[k + 1..];
  }

  /** What a state of the reduction has to have for the rest of the code to go through. */
  ghost predicate Reducing(b: B.State, c: State, c': State, m: seq<nat>, pre: State, code: seq<Instruction>, k: nat,
    all: seq<nat>) {
    && Wellformed(b) && Typed(b, c) && k <= |code| && |b.instructions| == k && B.Steps(b, code[k..]).Appended?
    && Sim(c, c', Still(b.context), m, pre, KeptNumbers(code))
    && all == m + Mapping(code, NopMask(code), k, |c'.values|)
  }

  lemma NopReduces(b: B.State, c: State, c': State, m: seq<nat>, pre: State, code: seq<Instruction>, k: nat,
    all: seq<nat>)
    requires Reducing(b, c, c', m, pre, code, k, all) && k < |code| && code[k].operation.Nop?
    ensures B.Step(b, code[k]).Appended? && B.Step(b, code[k]).state.context == b.context
      && CompileStep(c, k, code[k]).Success?
    ensures Reducing(B.Step(b, code[k]).state, CompileStep(c, k, code[k]).value, c',
      m + Repeated<nat>(|c'.values|, code[k].operation.Defines()), pre, code, k + 1, all)
  {
    hide B.Step, B.Steps, Wellformed, Typed, Sim, Grew, CompileStep, Repeated, Extended, Operation.Defines, Left,
      Mapping, KeptNumbers;
    StepsFrom(b, code, k);
    StepTaken(b, code[k]);
    StepTyped(b, c, code[k]);
    NopSim(c, c', Still(b.context), m, pre, KeptNumbers(code), code[k], k);
    MappingStep(code, NopMask(code), k, |c'.values|);
  }

  lemma KeptReduces(b: B.State, c: State, c': State, m: seq<nat>, pre: State, code: seq<Instruction>, k: nat,
    all: seq<nat>)
    requires Reducing(b, c, c', m, pre, code, k, all) && k < |code| && !code[k].operation.Nop?
    ensures B.Step(b, code[k]).Appended? && B.Step(b, code[k]).state.context == b.context
    ensures RenameOne(code[k], all) == RenameOne(code[k], m)
    ensures var r, r' := CompileStep(c, k, code[k]), CompileStep(c', KeptBefore(code, k), RenameOne(code[k], m));
      match r
      case Success(d) =>
        r'.Success? && Reducing(B.Step(b, code[k]).state, d, r'.value,
          Extended(m, |c'.values|, code[k].operation.Defines()), pre, code, k + 1, all)
      case Failure(error) =>
        error.StringTooLong? && error.index < |all| && r' == Failure(StringTooLong(Renamed(error.index, all)))
  {
    hide B.Step, B.Steps, Wellformed, Typed, Sim, Grew, CompileStep, RenameOne, Renamed, Extended, Repeated,
      Operation.Defines,
      InputsBelow, Left, Mapping;
    var i, im := code[k], KeptNumbers(code);
    assert im[k] == KeptBefore(code, k);
    StepsFrom(b, code, k);
    StepTaken(b, i);
    StepReads(b, i);
    TypedLength(b, c);
    SimParts(c, c', Still(b.context), m, pre, im);
    StepSim(b, c, c', Still(b.context), m, pre, im, i);
    RenameOnePrefix(i, m, Mapping(code, NopMask(code), k, |c'.values|));
    ExtendedSplit(m, |c'.values|, i.operation.Defines());
    MappingStep(code, NopMask(code), k, |c'.values|);
    if CompileStep(c, k, i).Failure? {
      RenamedPrefix(CompileStep(c, k, i).error.index, m, Mapping(code, NopMask(code), k, |c'.values|));
    }
  }

  lemma ReducedNothing(b: B.State, c: State, c': State, m: seq<nat>, pre: State, code: seq<Instruction>, k: nat,
    all: seq<nat>)
    requires Reducing(b, c, c', m, pre, code, k, all) && k >= |code|
    ensures k == |code| && CompileAll(c, code[k..], k) == Success(c)
    ensures CompileAll(c', Keep(code, NopMask(code), k, all), KeptBefore(code, k)) == Success(c')
    ensures Sim(c, c', Still(b.context), all, pre, KeptNumbers(code))
  {
    hide Sim, Wellformed, Typed;
    assert all == m;
  }

  /** What is left once nops are dropped compiles, renamed, to just what the code compiles to. */
  lemma {:induction false} ReducedSim(b: B.State, c: State, c': State, m: seq<nat>, pre: State, code: seq<Instruction>,
    k: nat, all: seq<nat>)
    requires Reducing(b, c, c', m, pre, code, k, all) && k <= |code|
    ensures var r := CompileAll(c, code[k..], k);
      var r' := CompileAll(c', Keep(code, NopMask(code), k, all), KeptBefore(code, k));
      match r
      case Success(d) => r'.Success? && Sim(d, r'.value, Still(b.context), all, pre, KeptNumbers(code))
      case Failure(error) =>
        error.StringTooLong? && error.index < |all| && r' == Failure(StringTooLong(Renamed(error.index, all)))
    decreases |code| - k
  {
    hide B.Step, CompileStep, CompileAll, RenameOne, Renamed, Repeated, Extended, Operation.Defines, Sim, Reducing,
      Keep, KeptNumbers;
    if k >= |code| {
      ReducedNothing(b, c, c', m, pre, code, k, all);
    } else {
      KeepHead(code, k, all);
      CompileHead(c, code, k, k);
      if code[k].operation.Nop? {
        NopReduces(b, c, c', m, pre, code, k, all);
        ReducedSim(B.Step(b, code[k]).state, CompileStep(c, k, code[k]).value, c',
          m + Repeated<nat>(|c'.values|, code[k].operation.Defines()), pre, code, k + 1, all);
      } else {
        KeptReduces(b, c, c', m, pre, code, k, all);
        CompileCons(c', RenameOne(code[k], m), Keep(code, NopMask(code), k + 1, all), KeptBefore(code, k));
        var r := CompileStep(c, k, code[k]);
        if r.Success? {
          ReducedSim(B.Step(b, code[k]).state, r.value,
            CompileStep(c', KeptBefore(code, k), RenameOne(code[k], m)).value,
            Extended(m, |c'.values|, code[k].operation.Defines()), pre, code, k + 1, all);
        }
      }
    }
  }

  lemma KeepHead(code: seq<Instruction>, k: nat, all: seq<nat>)
    requires k < |code|
    ensures Keep(code, NopMask(code), k, all) ==
      if code[k].operation.Nop? then Keep(code, NopMask(code), k + 1, all)
      else [RenameOne(code[k], all)] + Keep(code, NopMask(code), k + 1, all)
  {
  }

  lemma CompileCons(c: State, i: Instruction, rest: seq<Instruction>, index: nat)
    ensures CompileAll(c, [i] + rest, index) ==
      var next := CompileStep(c, index, i);
      if next.Success? then CompileAll(next.value, rest, index + 1) else Failure(next.error)
  {
    assert ([i] + rest)[1..] == rest;
  }

  /** Where the variables of a program are once its nops are dropped. */
  function NopMapping(p: Program): seq<nat> {
    Mapping(p.instructions, NopMask(p.instructions), 0, 0)
  }

  lemma RemovedSim(p: Program)
    requires B.StaticallyValid(p)
    ensures var r := CompileAll(Initial(p.context), p.instructions, 0);
      var r' := CompileAll(Initial(p.context), RemoveNops(p).instructions, 0);
      match r
      case Success(d) =>
        r'.Success? && Sim(d, r'.value, Still(p.context), NopMapping(p), Initial(p.context),
          KeptNumbers(p.instructions))
      case Failure(error) =>
        error.StringTooLong? && r' == Failure(StringTooLong(Renamed(error.index, NopMapping(p))))
  {
    hide B.Steps, CompileAll, Wellformed, Recorded, B.Finalize, Typed, Sim, Keep, Mapping, KeptNumbers;
    NewWellformed(p.context);
    InitialTyped(p.context);
    InitialRecorded(p.context);
    FreshSim(p.context, p.context.numConnections, Initial(p.context), KeptNumbers(p.instructions));
    assert Past(p.context.numConnections, Initial(p.context)) == Still(p.context) by { NothingPast(p.context); }
    assert p.instructions[0..] == p.instructions;
    ReducedSim(B.New(p.context), Initial(p.context), Initial(p.context), [], Initial(p.context), p.instructions, 0,
      NopMapping(p));
  }

  lemma NothingPast(context: ProgramContext)
    ensures Past(context.numConnections, Initial(context)) == Still(context)
  {
  }

  /** No violation is recorded that is none. */
  ghost predicate NotesNonEmpty(metadata: Metadata) {
    forall a | a in metadata.violations :: metadata.violations[a] != []
  }

  lemma StillActions(c: State, c': State, m: seq<nat>, context: ProgramContext, im: seq<nat>)
    requires Sim(c, c', Still(context), m, Initial(context), im)
    ensures c'.actions == c.actions
    ensures forall j: nat | j < |c.actions| :: Notes(c'.metadata, j) == Notes(c.metadata, j)
    ensures forall a | a in c.metadata.violations :: a < |c.actions|
    ensures forall a | a in c'.metadata.violations :: a < |c.actions|
  {
    hide ValuesSim, SentSim, ConnectionsSim, SessionsSim, SpecsSim, OriginsSim, BlocksSim, CountersSim;
    assert |c'.actions| == |c.actions|;
    forall j: nat | j < |c.actions|
      ensures c'.actions[j] == c.actions[j] && Notes(c'.metadata, j) == Notes(c.metadata, j)
    {
      assert c'.actions[j + 0] == MoveAction(Still(context), c.actions[j], j in c.blocks);
      assert Notes(c'.metadata, j + 0) == MoveNotes(Still(context), Notes(c.metadata, j), c.actions[j]);
    }
  }

  lemma SameViolations(a: Metadata, b: Metadata, n: nat)
    requires NotesNonEmpty(a) && NotesNonEmpty(b)
    requires forall j: nat | j < n :: Notes(b, j) == Notes(a, j)
    requires forall k | k in a.violations :: k < n
    requires forall k | k in b.violations :: k < n
    ensures a.violations == b.violations
  {
    forall k: nat ensures k in a.violations <==> k in b.violations {
      if k < n { assert Notes(b, k) == Notes(a, k); }
    }
    forall k: nat | k in a.violations ensures a.violations[k] == b.violations[k] {
      assert Notes(b, k) == Notes(a, k);
    }
  }

  lemma RecordedNonEmpty(c: State, base: nat)
    requires Recorded(c, base)
    ensures NotesNonEmpty(c.metadata)
  {
    hide SentIsSends, IdsRecorded, AwaitRecorded;
  }

  /** Only the numbers of instructions and variables are relabelled. */
  lemma StillTables(c: State, c': State, m: seq<nat>, context: ProgramContext, im: seq<nat>)
    requires Sim(c, c', Still(context), m, Initial(context), im) && TablesRecorded(c, context.numConnections)
    ensures c'.metadata.sessionSetups == c.metadata.sessionSetups
    ensures |c'.metadata.actionInstructions| == |c.metadata.actionInstructions|
    ensures forall j | 0 <= j < |c.metadata.actionInstructions| ::
      c.metadata.actionInstructions[j] < |im| && c'.metadata.actionInstructions[j]
        == im[c.metadata.actionInstructions[j]]
    ensures c'.metadata.sessionVariables.Keys == c.metadata.sessionVariables.Keys
    ensures forall s | s in c.metadata.sessionVariables ::
      c.metadata.sessionVariables[s] < |m| && c'.metadata.sessionVariables[s] == m[c.metadata.sessionVariables[s]]
    ensures c'.metadata.connectionVariables.Keys == c.metadata.connectionVariables.Keys
    ensures forall x | x in c.metadata.connectionVariables ::
      c.metadata.connectionVariables[x] < |m| && c'.metadata.connectionVariables[x]
        == m[c.metadata.connectionVariables[x]]
  {
    hide ValuesSim, SentSim, ActionsSim, NotesSim, BlocksSim;
    StillSetups(c.metadata.sessionSetups, c'.metadata.sessionSetups, c.sessions);
    StillVariables(c.metadata.sessionVariables, c'.metadata.sessionVariables, 0, c.sessions, m);
    StillVariables(c.metadata.connectionVariables, c'.metadata.connectionVariables, context.numConnections,
      c.connections, m);
    assert forall j | 0 <= j < |c.metadata.actionInstructions| ::
      c'.metadata.actionInstructions[j + 0] == im[c.metadata.actionInstructions[j]];
  }

  lemma StillSetups(t: map<nat, SetupSpec>, t': map<nat, SetupSpec>, hi: nat)
    requires CopiesSim(t, t', map[], 0, hi, 0)
    ensures t' == t
  {
    forall k: nat | k in t ensures k in t' && t'[k] == t[k] {
      assert t'[k + 0] == t[k];
    }
  }

  lemma StillVariables(t: map<nat, nat>, t': map<nat, nat>, lo: nat, hi: nat, m: seq<nat>)
    requires VariablesSim(t, t', map[], lo, hi, 0, m) && forall k | k in t :: lo <= k
    ensures t'.Keys == t.Keys
    ensures forall k | k in t :: t[k] < |m| && t'[k] == m[t[k]]
  {
    forall k: nat | k in t ensures k in t' && t[k] < |m| && t'[k] == m[t[k]] {
      assert t'[k + 0] == m[t[k]];
    }
  }

  /** What is relabelled once nops are dropped: instruction and variable numbers, and nothing else. */
  ghost predicate Relabelled(p: Program, a: Metadata, b: Metadata) {
    var m, code := NopMapping(p), p.instructions;
    && b.violations == a.violations
    && b.sessionSetups == a.sessionSetups
    && |b.actionInstructions| == |a.actionInstructions|
    && (forall j | 0 <= j < |a.actionInstructions| ::
          a.actionInstructions[j] <= |code| && b.actionInstructions[j] == KeptBefore(code, a.actionInstructions[j]))
    && b.sessionVariables.Keys == a.sessionVariables.Keys
    && (forall s | s in a.sessionVariables ::
          a.sessionVariables[s] < |m| && b.sessionVariables[s] == m[a.sessionVariables[s]])
    && b.connectionVariables.Keys == a.connectionVariables.Keys
    && (forall c | c in a.connectionVariables ::
          a.connectionVariables[c] < |m| && b.connectionVariables[c] == m[a.connectionVariables[c]])
  }

  /** Dropping the nops of a valid program compiles to identical actions, and relabels only where they came from. */
  lemma RemoveNopsCompiles(p: Program)
    requires B.StaticallyValid(p)
    ensures match Compile(p)
            case Failure(error) =>
              error.StringTooLong? && Compile(RemoveNops(p))
                == Failure(StringTooLong(Renamed(error.index, NopMapping(p))))
            case Success(a) =>
              && Compile(RemoveNops(p)).Success?
              && Compile(RemoveNops(p)).value.actions == a.actions
              && Compile(RemoveNops(p)).value.context == a.context
              && Relabelled(p, a.metadata, Compile(RemoveNops(p)).value.metadata)
  {
    hide B.StaticallyValid, CompileAll, Sim, NopMapping, Recorded, Typed, Keep;
    RemovedSim(p);
    RemoveNopsValid(p);
    if Compile(p).Success? {
      var c, c' := Lowered(p), Lowered(RemoveNops(p));
      CompiledRecorded(p);
      CompiledRecorded(RemoveNops(p));
      RecordedNonEmpty(c, p.context.numConnections);
      RecordedNonEmpty(c', p.context.numConnections);
      StillActions(c, c', NopMapping(p), p.context, KeptNumbers(p.instructions));
      SameViolations(c.metadata, c'.metadata, |c.actions|);
      RecordedParts(c, p.context.numConnections);
      StillTables(c, c', NopMapping(p), p.context, KeptNumbers(p.instructions));
    }
  }

  /** Instructions keep their order, and no two that are kept share a number. */
  lemma {:induction false} KeptBeforeOrdered(code: seq<Instruction>, i: nat, j: nat)
    requires i < j <= |code|
    ensures KeptBefore(code, i) <= KeptBefore(code, j)
    ensures !code[i].operation.Nop? ==> KeptBefore(code, i) < KeptBefore(code, j)
  {
    if i < j - 1 {
      KeptBeforeOrdered(code, i, j - 1);
    }
  }

  /** No entry is below `lo`, and none below one before it. */
  predicate RisesFrom(m: seq<nat>, lo: nat) {
    && (forall u | 0 <= u < |m| :: lo <= m[u])
    && (forall u, v | 0 <= u < v < |m| :: m[u] <= m[v])
  }

  /** Every entry after `v` is above the one there. */
  predicate RisesPast(m: seq<nat>, v: nat) {
    v < |m| && forall w | v < w < |m| :: m[v] < m[w]
  }

  lemma JoinRises(a: seq<nat>, b: seq<nat>, lo: nat, mid: nat)
    requires RisesFrom(a, lo) && RisesFrom(b, mid) && lo <= mid && forall u | 0 <= u < |a| :: a[u] <= mid
    ensures RisesFrom(a + b, lo)
    ensures forall v: nat | v < |a| && a[v] < mid && RisesPast(a, v) :: RisesPast(a + b, v)
    ensures forall v: nat | RisesPast(b, v) :: RisesPast(a + b, |a| + v)
  {
  }

  /** What the mapping gives the variables of one instruction. */
  function MappingHead(i: Instruction, dropped: bool, kept: nat): seq<nat> {
    if dropped then Repeated<nat>(kept, i.operation.Defines()) else Extended([], kept, i.operation.Defines())
  }

  lemma HeadRises(i: Instruction, dropped: bool, kept: nat)
    ensures var head, next := MappingHead(i, dropped, kept), if dropped then kept else kept + i.operation.Defines();
      && RisesFrom(head, kept) && |head| == i.operation.Defines() && kept <= next
      && (forall u | 0 <= u < |head| :: head[u] <= next)
      && (!dropped ==> forall x: nat | x < |head| :: head[x] < next && RisesPast(head, x))
  {
  }

  /** From instruction `k` on, the numbers given are no lower than those given before, and never go down. */
  lemma {:induction false} MappingRises(code: seq<Instruction>, mask: seq<bool>, k: nat, kept: nat)
    requires k <= |code|
    ensures RisesFrom(Mapping(code, mask, k, kept), kept)
    decreases |code| - k
  {
    hide Operation.Defines, RisesFrom, RisesPast, Mapping, Extended, Repeated;
    if k < |code| {
      var next := if Dropped(mask, k) then kept else kept + code[k].operation.Defines();
      MappingRises(code, mask, k + 1, next);
      HeadRises(code[k], Dropped(mask, k), kept);
      MappingStep(code, mask, k, kept);
      JoinRises(MappingHead(code[k], Dropped(mask, k), kept), Mapping(code, mask, k + 1, next), kept, next);
    } else {
      MappingEnd(code, mask, kept);
      assert RisesFrom([], kept) by { NothingRises(kept); }
    }
  }

  lemma NothingRises(lo: nat)
    ensures RisesFrom([], lo)
  {
  }

  /** A variable of an instruction that is kept has a number lower than all later ones. */
  lemma {:induction false} KeptRises(code: seq<Instruction>, mask: seq<bool>, k: nat, kept: nat, j: nat, x: nat)
    requires k <= j < |code| && !Dropped(mask, j) && x < code[j].operation.Defines()
    ensures RisesPast(Mapping(code, mask, k, kept), VariableCount(code[k..j]) + x)
    decreases j - k
  {
    hide Operation.Defines, RisesFrom, RisesPast, Mapping, Extended, Repeated, VariableCount;
    CountFrom(code, k, j);
    var next := if Dropped(mask, k) then kept else kept + code[k].operation.Defines();
    var head, rest := MappingHead(code[k], Dropped(mask, k), kept), Mapping(code, mask, k + 1, next);
    HeadRises(code[k], Dropped(mask, k), kept);
    MappingStep(code, mask, k, kept);
    MappingRises(code, mask, k + 1, next);
    JoinRises(head, rest, kept, next);
    if k < j {
      KeptRises(code, mask, k + 1, next, j, x);
    }
  }

  lemma CountFrom(code: seq<Instruction>, k: nat, j: nat)
    requires k <= j < |code|
    ensures VariableCount(code[k..j]) ==
            if k == j then 0 else code[k].operation.Defines() + VariableCount(code[k + 1..j])
  {
    if k < j {
      assert code[k..j][1..] == code[k + 1..j];
    }
  }

  /** The number of output `x` of instruction `j` before any is dropped. */
  function VariableOf(code: seq<Instruction>, j: nat, x: nat): nat
    requires j <= |code|
  {
    VariableCount(code[..j]) + x
  }

  /** Dropping nops relabels in order: by numbers that never go down, and that go up past everything kept. */
  lemma RelabellingKeepsOrder(p: Program)
    ensures forall i, j | 0 <= i < j <= |p.instructions| ::
      && KeptBefore(p.instructions, i) <= KeptBefore(p.instructions, j)
      && (!p.instructions[i].operation.Nop? ==> KeptBefore(p.instructions, i) < KeptBefore(p.instructions, j))
    ensures RisesFrom(NopMapping(p), 0)
    ensures forall j: nat, x: nat {:trigger VariableOf(p.instructions, j, x)}
      | j < |p.instructions| && !p.instructions[j].operation.Nop? && x < p.instructions[j].operation.Defines() ::
      RisesPast(NopMapping(p), VariableOf(p.instructions, j, x))
  {
    hide Operation.Defines, Mapping, RisesFrom, RisesPast, KeptBefore;
    var code := p.instructions;
    forall i, j | 0 <= i < j <= |code|
      ensures KeptBefore(code, i) <= KeptBefore(code, j)
      ensures !code[i].operation.Nop? ==> KeptBefore(code, i) < KeptBefore(code, j)
    {
      KeptBeforeOrdered(code, i, j);
    }
    MappingRises(code, NopMask(code), 0, 0);
    forall j: nat, x: nat {:trigger VariableOf(code, j, x)}
      | j < |code| && !code[j].operation.Nop? && x < code[j].operation.Defines()
      ensures RisesPast(NopMapping(p), VariableOf(code, j, x))
    {
      assert code[0..j] == code[..j];
      KeptRises(code, NopMask(code), 0, 0, j, x);
    }
  }
}
