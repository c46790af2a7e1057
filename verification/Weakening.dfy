/** What inserting a fragment at global scope does to the compiled program. */
module Weakening {
  import opened Wrappers
  import opened Ir
  import B = Builder
  import opened Scoping
  import opened Renaming
  import opened Compiler
  import opened Soundness
  import opened Simulation
  import opened Ledger
  import I = Insertion
  import H = Homomorphism

  // ---------------------------------------------------------------------------------------------
  // What compiling more leaves alone
  // ---------------------------------------------------------------------------------------------

  /** `d` is `c` further on: actions stay but for the ends of blocks open in `c`, and notes stay. */
  ghost predicate Further(c: State, d: State) {
    && c.connections <= d.connections && c.sessions <= d.sessions && c.sent <= d.sent && c.rawFramed <= d.rawFramed
    && |c.actions| <= |d.actions|
    && (forall j | 0 <= j < |c.actions| && j !in c.blocks :: d.actions[j] == c.actions[j])
    && (forall j | j in d.blocks :: j in c.blocks || j >= |c.actions|)
    && (forall a | a in c.metadata.violations :: a < |c.actions|)
    && (forall j | 0 <= j < |c.actions| :: Notes(d.metadata, j) == Notes(c.metadata, j))
    && (forall a | a in d.metadata.violations :: a < |d.actions|)
  }

  lemma ApplyFurther(c: State, index: nat, plan: Plan, d: State)
    requires Apply(c, index, plan) == Success(d) && forall a | a in c.metadata.violations :: a < |c.actions|
    ensures Further(c, d)
  {
  }

  lemma FurtherThen(c: State, d: State, e: State)
    requires Further(c, d) && Further(d, e)
    ensures Further(c, e)
  {
    hide Notes;
  }

  lemma {:induction false} CompileFurther(c: State, code: seq<Instruction>, index: nat)
    requires CompileAll(c, code, index).Success? && forall a | a in c.metadata.violations :: a < |c.actions|
    ensures Further(c, CompileAll(c, code, index).value)
    decreases |code|
  {
    hide Lower, Apply, Further;
    if code == [] {
      FurtherSame(c);
    } else {
      var plan := Lower(c.values, code[0]).value;
      var d := Apply(c, index, plan).value;
      ApplyFurther(c, index, plan, d);
      FurtherBounded(c, d);
      CompileFurther(d, code[1..], index + 1);
      FurtherThen(c, d, CompileAll(c, code, index).value);
    }
  }

  lemma FurtherSame(c: State)
    requires forall a | a in c.metadata.violations :: a < |c.actions|
    ensures Further(c, c)
  {
  }

  lemma FurtherBounded(c: State, d: State)
    requires Further(c, d)
    ensures forall a | a in d.metadata.violations :: a < |d.actions|
  {
  }

  // ---------------------------------------------------------------------------------------------
  // No later instruction edits a setup built before
  // ---------------------------------------------------------------------------------------------

  /** `b` is a builder at global scope further on: every block it has open was opened since. */
  ghost predicate Above(base: B.State, b: B.State) {
    && Wellformed(b) && b.counter >= base.counter && base.variables <= b.variables
    && (forall v | 0 <= v < |base.variables| :: base.variables[v].scopeId <= base.counter)
    && forall k | 0 < k < |b.scopes| :: b.scopes[k].id > base.counter
  }

  lemma StepAbove(base: B.State, b: B.State, i: Instruction)
    requires Above(base, b) && B.Step(b, i).Appended?
    ensures Above(base, B.Step(b, i).state)
  {
    hide B.Step, ScopeOpenedBy, Housed, Accepts, NewVariable, Operation.Defines;
    StepTaken(b, i);
    var t := B.Step(b, i).state;
    LeftVariables(b, i.operation);
    assert base.variables <= t.variables by {
      forall v | 0 <= v < |base.variables| ensures t.variables[v] == base.variables[v] {
        assert t.variables[v] == b.variables[v];
      }
    }
  }

  /** So a setup that was being built before cannot be seen. */
  lemma OldSetupsUnseen(base: B.State, b: B.State, v: nat)
    requires Above(base, b) && v < |base.variables| && b.Visible(v)
    ensures b.variables[v].kind != MutSetupVar
  {
    hide ScopeOpenedBy;
    var k: nat :| k < |b.scopes| && b.scopes[k].id == b.variables[v].scopeId;
    assert k == 0;
    assert Housed(b, v, k);
  }

  lemma EditsVisible(b: B.State, c: State, i: Instruction)
    requires ValuesTyped(b, c) && Admissible(b, i) && Lower(c.values, i).Success? && Lower(c.values, i).value.Edit?
    ensures var at := Lower(c.values, i).value.at;
      b.Visible(at) && b.variables[at].kind == MutSetupVar
  {
    hide ValuesTyped, Encodable;
    assert i.operation.InputVariables() != [] && i.operation.InputVariables()[0] == MutSetupVar;
    assert B.KindOf(b, i.inputs[0]) == i.operation.InputVariables()[0];
  }

  /** Values from before stay. */
  lemma StepKeepsValues(base: B.State, b: B.State, c: State, i: Instruction, kept: seq<Value>)
    requires Above(base, b) && Typed(b, c) && B.Step(b, i).Appended? && CompileStep(c, |b.instructions|, i).Success?
    requires |kept| == |base.variables| && kept <= c.values
    ensures kept <= CompileStep(c, |b.instructions|, i).value.values
  {
    hide B.Step, Wellformed, Admissible, ValuesTyped, Lower, PlanFits, Encodable, Grew;
    StepTaken(b, i);
    AcceptsAdmissible(b, i);
    TypedValues(b, c);
    var plan := Lower(c.values, i).value;
    if plan.Edit? {
      EditsVisible(b, c, i);
      if plan.at < |base.variables| {
        OldSetupsUnseen(base, b, plan.at);
      }
    }
  }

  lemma {:induction false} StepsKeepValues(base: B.State, b: B.State, c: State, code: seq<Instruction>,
    kept: seq<Value>)
    requires Above(base, b) && Typed(b, c) && B.Steps(b, code).Appended?
      && CompileAll(c, code, |b.instructions|).Success?
    requires |kept| == |base.variables| && kept <= c.values
    ensures kept <= CompileAll(c, code, |b.instructions|).value.values
    decreases |code|
  {
    hide B.Step, Wellformed, Typed, CompileStep, Grew, Accepts, Left;
    if code != [] {
      StepTaken(b, code[0]);
      StepTyped(b, c, code[0]);
      StepAbove(base, b, code[0]);
      StepKeepsValues(base, b, c, code[0], kept);
      StepsKeepValues(base, B.Step(b, code[0]).state, CompileStep(c, |b.instructions|, code[0]).value, code[1..], kept);
    }
  }

  // ---------------------------------------------------------------------------------------------
  // The compilers with and without the fragment
  // ---------------------------------------------------------------------------------------------

  /** How the rest of a program moves when `d` has compiled a fragment more than `c`. */
  function Between(c: State, d: State): Move
    requires c.connections <= d.connections && c.sessions <= d.sessions && |c.actions| <= |d.actions|
  {
    Move(Ids(c.connections, c.sessions, |c.actions|),
      Ids(d.connections - c.connections, d.sessions - c.sessions, |d.actions| - |c.actions|),
      set x | x in d.sent && x < c.connections && x !in c.sent,
      set x | x in d.rawFramed && x < c.connections && x !in c.rawFramed)
  }

  lemma BetweenSim(b: B.State, c: State, d: State, base: nat, im: seq<nat>)
    requires Typed(b, c) && Recorded(c, base) && Recorded(d, base) && c.blocks == [] && d.blocks == []
    requires Further(c, d) && c.values <= d.values
    ensures Sim(c, d, Between(c, d), Identity(|c.values|), d, im)
  {
    hide AwaitRecorded, IdsOrdered, BlocksMatch, Notes, SentOn, RawOn;
    var e, m := Between(c, d), Identity(|c.values|);
    SentBetween(c, d, base);
    BetweenValues(b, c, d);
    BetweenTables(c, d, base);
    BetweenNotes(c, d);
  }

  lemma BetweenValues(b: B.State, c: State, d: State)
    requires Typed(b, c) && Further(c, d) && c.values <= d.values
    ensures ValuesSim(c.values, d.values, Between(c, d), Identity(|c.values|))
  {
    hide BlocksMatch, Notes;
    var e := Between(c, d);
    forall v | 0 <= v < |c.values| ensures MoveValue(e, c.values[v]) == c.values[v] == d.values[v] {
      assert HasShape(c.values[v], b.variables[v].kind, c.connections, c.sessions);
    }
  }

  lemma SentBetween(c: State, d: State, base: nat)
    requires Further(c, d) && SentIsSends(c, base) && SentIsSends(d, base)
    ensures SentSim(c, d, Between(c, d))
  {
    hide SentOn, Notes;
    forall x | x in c.rawFramed ensures x < c.connections {
      H.RawIsSent(c, base, x);
    }
    forall x | x in d.rawFramed ensures x < d.connections {
      H.RawIsSent(d, base, x);
    }
  }

  lemma BetweenTables(c: State, d: State, base: nat)
    requires TablesRecorded(c, base) && TablesRecorded(d, base) && Further(c, d)
    ensures var e, m := Between(c, d), Identity(|c.values|);
      && ConnectionsSim(c, d, e, m, d) && SessionsSim(c, d, e, m, d) && SpecsSim(c, d, e, d)
      && |c.metadata.actionInstructions| == |c.actions| && |d.metadata.actionInstructions| == |d.actions|
  {
    hide Notes;
  }

  lemma BetweenNotes(c: State, d: State)
    requires Further(c, d)
    ensures NotesSim(c, d, Between(c, d), d)
  {
    hide Notes, MoveNotes;
  }

  /** The connections a fragment has sent on are those its own actions send on. */
  lemma BetweenSends(c: State, d: State, base: nat)
    requires Further(c, d) && SentIsSends(c, base) && SentIsSends(d, base) && c.blocks == []
    ensures forall x | x in Between(c, d).sent :: exists j ::
        |c.actions| <= j < |d.actions| && IsSendOn(d.actions[j], x)
    ensures forall x | x in Between(c, d).raw :: exists j :: |c.actions| <= j < |d.actions| && IsRawOn(d.actions[j], x)
  {
    hide Notes;
    forall x | x in Between(c, d).sent ensures exists j :: |c.actions| <= j < |d.actions| && IsSendOn(d.actions[j], x) {
      var j :| 0 <= j < |d.actions| && IsSendOn(d.actions[j], x);
    }
    forall x | x in Between(c, d).raw ensures exists j :: |c.actions| <= j < |d.actions| && IsRawOn(d.actions[j], x) {
      var j :| 0 <= j < |d.actions| && IsRawOn(d.actions[j], x);
    }
  }

  // ---------------------------------------------------------------------------------------------
  // The compiled program
  // ---------------------------------------------------------------------------------------------

  /** The program up to a point, and up to there with a fragment after it. */
  function Before(p: Program, at: nat): Program
    requires at <= |p.instructions|
  {
    Program(p.context, p.instructions[..at])
  }

  function Through(p: Program, at: nat, fragment: seq<Instruction>): Program
    requires at <= |p.instructions|
  {
    Program(p.context, p.instructions[..at] + fragment)
  }

  /** Both are valid programs. */
  lemma PointsValid(p: Program, at: nat, fragment: seq<Instruction>)
    requires B.StaticallyValid(p) && at <= |p.instructions|
    requires I.Depth(p.instructions[..at]) == 0 && I.Fits(p, at, fragment)
    ensures B.StaticallyValid(Before(p, at)) && B.StaticallyValid(Through(p, at, fragment))
  {
    hide B.Steps, B.Finalize, I.Depth;
    I.PrefixAccepted(p, at);
    I.DepthIsBuilderDepth(p.context, p.instructions[..at]);
    ValidIffGlobal(Before(p, at));
    ValidIffGlobal(Through(p, at, fragment));
  }

  /** The compiler after a fragment, and that after the code before it. */
  lemma FragmentCompiles(p: Program, at: nat, fragment: seq<Instruction>)
    requires B.StaticallyValid(p) && at <= |p.instructions|
    requires I.Depth(p.instructions[..at]) == 0 && I.Fits(p, at, fragment) && Compile(Through(p, at, fragment)).Success?
    ensures Compile(Before(p, at)).Success?
    ensures var c, d := Lowered(Before(p, at)), Lowered(Through(p, at, fragment));
      Further(c, d) && c.values <= d.values && c.blocks == [] && c.actions <= d.actions
  {
    hide B.Steps, CompileAll, Wellformed, Recorded, B.Finalize, Typed, I.Depth, Further, B.StaticallyValid;
    var prefix := p.instructions[..at];
    PointsValid(p, at, fragment);
    CompileAllConcat(Initial(p.context), prefix, fragment, 0);
    CompiledRecorded(Before(p, at));
    var c := Lowered(Before(p, at));
    NoteBounds(c, p.context.numConnections);
    CompileFurther(c, fragment, at);
    I.PrefixAccepted(p, at);
    B.StepsConcat(B.New(p.context), prefix, fragment);
    var b := B.FromPrefix(p.context, prefix).state;
    AboveItself(p, at);
    TypedLength(b, c);
    StepsKeepValues(b, b, c, fragment, c.values);
    FurtherActions(c, Lowered(Through(p, at, fragment)));
  }

  lemma FurtherActions(c: State, d: State)
    requires Further(c, d) && c.blocks == []
    ensures c.actions <= d.actions
  {
    hide Notes;
  }

  lemma NoteBounds(c: State, base: nat)
    requires Recorded(c, base)
    ensures forall a | a in c.metadata.violations :: a < |c.actions|
  {
    hide SentIsSends, IdsRecorded, AwaitRecorded;
  }

  /** The builder at a point outside every block. */
  lemma AboveItself(p: Program, at: nat)
    requires B.StaticallyValid(p) && at <= |p.instructions| && I.Depth(p.instructions[..at]) == 0
    ensures B.FromPrefix(p.context, p.instructions[..at]).Appended?
    ensures var b := B.FromPrefix(p.context, p.instructions[..at]).state;
      && Above(b, b) && |b.instructions| == at && b.context == p.context
        && |b.variables| == VariableCount(p.instructions[..at])
  {
    hide B.Steps, B.StaticallyValid, I.Depth, ScopeOpenedBy, Housed, Lexical;
    I.PrefixAccepted(p, at);
    I.DepthIsBuilderDepth(p.context, p.instructions[..at]);
    Reached(p.context, p.instructions[..at]);
    NewWellformed(p.context);
    StepsVariables(B.New(p.context), p.instructions[..at]);
  }

  /** The rest of a program compiles, past a fragment, to what it compiled to, moved. */
  lemma RestSim(p: Program, at: nat, fragment: seq<Instruction>)
    requires B.StaticallyValid(p) && at <= |p.instructions|
    requires I.Depth(p.instructions[..at]) == 0 && I.Fits(p, at, fragment) && Compile(Through(p, at, fragment)).Success?
    ensures Compile(Before(p, at)).Success?
    ensures var c, d := Lowered(Before(p, at)), Lowered(Through(p, at, fragment));
      Further(c, d)
    ensures var c, d := Lowered(Before(p, at)), Lowered(Through(p, at, fragment));
      var n, added, rest := VariableCount(p.instructions[..at]), VariableCount(fragment), p.instructions[at..];
      var r := CompileAll(c, rest, at);
      var r' := CompileAll(d, I.Move(rest, n, added), at + |fragment|);
      var m := Extended(Identity(n), n + added, VariableCount(rest));
      match r
      case Success(x) => r'.Success?
        && Sim(x, r'.value, Between(c, d), m, d, H.Numbers(|fragment|, |p.instructions| + 1))
      case Failure(error) =>
        error.StringTooLong? && error.index < |m| && r' == Failure(StringTooLong(Renamed(error.index, m)))
  {
    hide B.Steps, CompileAll, Wellformed, Recorded, B.Finalize, Typed, I.Depth, Further, B.StaticallyValid, Sim,
      I.Move, VariableCount,
      I.Fits, Above;
    var prefix, rest := p.instructions[..at], p.instructions[at..];
    var im := H.Numbers(|fragment|, |p.instructions| + 1);
    PointsValid(p, at, fragment);
    FragmentCompiles(p, at, fragment);
    CompiledRecorded(Before(p, at));
    CompiledRecorded(Through(p, at, fragment));
    var c, d := Lowered(Before(p, at)), Lowered(Through(p, at, fragment));
    AboveItself(p, at);
    var b := B.FromPrefix(p.context, prefix).state;
    TypedLength(b, c);
    AboveWellformed(b, b);
    RestAccepted(p, at);
    RestCounts(p, at, fragment);
    FurtherCounts(c, d, p.context.numConnections);
    BetweenSim(b, c, d, p.context.numConnections, im);
    StepsSim(b, c, d, Between(c, d), Identity(|c.values|), d, im, rest);
    StepsDefined(b, rest);
    ExtendedNone(Identity(|c.values|), |d.values|);
    I.MoveIsRename(rest, |c.values|, VariableCount(fragment), 0);
  }

  lemma AboveWellformed(base: B.State, b: B.State)
    requires Above(base, b)
    ensures Wellformed(b)
  {
    hide Wellformed;
  }

  lemma FurtherCounts(c: State, d: State, base: nat)
    requires Further(c, d) && Recorded(c, base)
    ensures c.connections <= d.connections && c.sessions <= d.sessions && |c.actions| <= |d.actions|
      && base <= c.connections
  {
    hide Notes, AwaitsRecorded, IdsOrdered;
  }

  lemma RestAccepted(p: Program, at: nat)
    requires B.StaticallyValid(p) && at <= |p.instructions|
    ensures B.FromPrefix(p.context, p.instructions[..at]).Appended?
    ensures B.Steps(B.FromPrefix(p.context, p.instructions[..at]).state, p.instructions[at..]).Appended?
  {
    hide B.Steps, B.Finalize;
    assert p.instructions == p.instructions[..at] + p.instructions[at..];
    B.StepsConcat(B.New(p.context), p.instructions[..at], p.instructions[at..]);
  }

  lemma RestCounts(p: Program, at: nat, fragment: seq<Instruction>)
    requires B.StaticallyValid(p) && at <= |p.instructions|
    requires I.Depth(p.instructions[..at]) == 0 && I.Fits(p, at, fragment) && Compile(Through(p, at, fragment)).Success?
    ensures |Lowered(Through(p, at, fragment)).values| == VariableCount(p.instructions[..at]) + VariableCount(fragment)
  {
    hide B.StaticallyValid, CompileAll, I.Depth, I.Fits, VariableCount;
    PointsValid(p, at, fragment);
    H.LoweredLength(Through(p, at, fragment));
    VariableCountConcat(p.instructions[..at], fragment);
  }

  lemma WholeCompiles(p: Program, at: nat)
    requires at <= |p.instructions| && Compile(Before(p, at)).Success?
    ensures CompileAll(Initial(p.context), p.instructions, 0)
      == CompileAll(Lowered(Before(p, at)), p.instructions[at..], at)
  {
    hide CompileAll;
    assert p.instructions == p.instructions[..at] + p.instructions[at..];
    CompileAllConcat(Initial(p.context), p.instructions[..at], p.instructions[at..], 0);
  }

  lemma InsertedCompileAll(p: Program, at: nat, fragment: seq<Instruction>)
    requires at <= |p.instructions|
    ensures var moved := I.Move(p.instructions[at..], VariableCount(p.instructions[..at]), VariableCount(fragment));
      var through := CompileAll(Initial(p.context), p.instructions[..at] + fragment, 0);
      CompileAll(Initial(p.context), I.Inserted(p, at, fragment).instructions, 0) ==
        if through.Success? then CompileAll(through.value, moved, at + |fragment|) else through
  {
    hide CompileAll, I.Move, VariableCount;
    var moved := I.Move(p.instructions[at..], VariableCount(p.instructions[..at]), VariableCount(fragment));
    CompileAllConcat(Initial(p.context), p.instructions[..at] + fragment, moved, 0);
  }

  /** What becomes of the notes: the prefix's and the fragment's stay, the rest's are moved. */
  ghost predicate NotesInserted(before: seq<Action>, through: State, whole: CompiledProgram, r: CompiledProgram,
    e: Move) {
    && |before| <= |through.actions| && |before| <= |whole.actions|
    && (forall j | 0 <= j < |before| :: Notes(r.metadata, j) == Notes(whole.metadata, j))
    && (forall j | |before| <= j < |through.actions| :: Notes(r.metadata, j) == Notes(through.metadata, j))
    && (forall j | |before| <= j < |whole.actions| ::
          Notes(r.metadata, j + |through.actions| - |before|)
            == MoveNotes(e, Notes(whole.metadata, j), whole.actions[j]))
  }

  /**
   * A table of ids after an insertion: what it was up to the fragment's end, then the rest's ids moved, and no others.
   */
  ghost predicate TableInserted<T>(through: map<nat, T>, whole: map<nat, T>, r: map<nat, T>, at: nat, up: nat,
    moved: T -> T) {
    && (forall k | k in through :: k in r && r[k] == through[k])
    && (forall k | k in whole && at <= k :: k + up in r && r[k + up] == moved(whole[k]))
    && (forall k | k in r :: k in through || (k >= at + up && k - up in whole))
  }

  function MoveVariable(n: nat, added: nat): nat -> nat {
    v => I.MoveInput(v, n, added)
  }

  function Unmoved(): SetupSpec -> SetupSpec {
    spec => spec
  }

  /** What becomes of the tables, the rest's variables and instructions moved past the fragment's. */
  ghost predicate TablesInserted(
    before: nat, through: Metadata, whole: Metadata, r: Metadata, e: Move, n: nat, added: nat, count: nat)
  {
    && before <= |whole.actionInstructions|
    && r.actionInstructions == through.actionInstructions
         + seq(|whole.actionInstructions| - before,
             j requires 0 <= j < |whole.actionInstructions| - before => whole.actionInstructions[before + j] + count)
    && TableInserted(through.connectionVariables, whole.connectionVariables, r.connectionVariables,
         e.from.connections, e.up.connections, MoveVariable(n, added))
    && TableInserted(through.sessionVariables, whole.sessionVariables, r.sessionVariables,
         e.from.sessions, e.up.sessions, MoveVariable(n, added))
    && TableInserted(through.sessionSetups, whole.sessionSetups, r.sessionSetups, e.from.sessions, e.up.sessions,
      Unmoved())
  }

  lemma VariablesInsert(
    t: map<nat, nat>, t': map<nat, nat>, preT: map<nat, nat>, at: nat, hi: nat, up: nat, m: seq<nat>, n: nat,
      added: nat)
    requires VariablesSim(t, t', preT, at, hi, up, m) && forall k | k in preT :: k < at + up
    requires forall v | 0 <= v < |m| :: m[v] == I.MoveInput(v, n, added)
    ensures TableInserted(preT, t, t', at, up, MoveVariable(n, added))
  {
    forall k | k in t' ensures k in preT || (k >= at + up && k - up in t) {
      if k >= at + up {
        assert k - up in t;
      }
    }
  }

  lemma CopiesInsert(
    t: map<nat, SetupSpec>, t': map<nat, SetupSpec>, preT: map<nat, SetupSpec>, at: nat, hi: nat, up: nat)
    requires CopiesSim(t, t', preT, at, hi, up) && forall k | k in preT :: k < at + up
    ensures TableInserted(preT, t, t', at, up, Unmoved())
  {
    forall k | k in t' ensures k in preT || (k >= at + up && k - up in t) {
      if k >= at + up {
        assert k - up in t;
      }
    }
  }

  lemma MappedMoves(n: nat, added: nat, more: nat)
    ensures var m := Extended(Identity(n), n + added, more);
      forall v | 0 <= v < |m| :: m[v] == I.MoveInput(v, n, added)
  {
  }

  lemma OriginsInsert(x: State, x': State, e: Move, d: State, count: nat, total: nat)
    requires OriginsSim(x, x', e, d, H.Numbers(count, total)) && |d.metadata.actionInstructions| == |d.actions|
    ensures var a, a', b := x.metadata.actionInstructions, x'.metadata.actionInstructions,
      d.metadata.actionInstructions;
      var before := e.from.actions;
      && before <= |a|
      && a' == b + seq(|a| - before, j requires 0 <= j < |a| - before => a[before + j] + count)
  {
    var a, a', b := x.metadata.actionInstructions, x'.metadata.actionInstructions, d.metadata.actionInstructions;
    var before := e.from.actions;
    var rest := seq(|a| - before, j requires 0 <= j < |a| - before => a[before + j] + count);
    forall j | 0 <= j < |rest| ensures a'[|b| + j] == rest[j] {
      assert a'[(before + j) + e.up.actions] == H.Numbers(count, total)[a[before + j]];
    }
  }

  lemma TablesInsert(
    c: State, d: State, x: State, x': State, base: nat, n: nat, added: nat, more: nat, count: nat, total: nat)
    requires c.connections <= d.connections && c.sessions <= d.sessions && |c.actions| <= |d.actions|
    requires Sim(x, x', Between(c, d), Extended(Identity(n), n + added, more), d, H.Numbers(count, total))
    requires TablesRecorded(d, base)
    ensures TablesInserted(|c.actions|, d.metadata, x.metadata, x'.metadata, Between(c, d), n, added, count)
  {
    hide ValuesSim, SentSim, ActionsSim, NotesSim, BlocksSim, VariablesSim, CopiesSim, TableInserted, OriginsSim,
      Extended;
    var e, m := Between(c, d), Extended(Identity(n), n + added, more);
    MappedMoves(n, added, more);
    VariablesInsert(x.metadata.connectionVariables, x'.metadata.connectionVariables, d.metadata.connectionVariables,
      e.from.connections, x.connections, e.up.connections, m, n, added);
    VariablesInsert(x.metadata.sessionVariables, x'.metadata.sessionVariables, d.metadata.sessionVariables,
      e.from.sessions, x.sessions, e.up.sessions, m, n, added);
    CopiesInsert(x.metadata.sessionSetups, x'.metadata.sessionSetups, d.metadata.sessionSetups,
      e.from.sessions, x.sessions, e.up.sessions);
    OriginsInsert(x, x', e, d, count, total);
  }

  /**
   * Inserting a fragment at a point outside every block of a valid program compiles to the actions before it,
   * the fragment's, and then the rest's, moved, and to the tables of each so joined. Notes stay, but that the rest
   * gains some on setups of connections from before that the fragment's own actions send on.
   */
  lemma InsertedCompiles(p: Program, at: nat, fragment: seq<Instruction>)
    requires B.StaticallyValid(p) && at <= |p.instructions|
    requires I.Depth(p.instructions[..at]) == 0 && I.Fits(p, at, fragment)
    ensures var r := Compile(I.Inserted(p, at, fragment));
      match Compile(Through(p, at, fragment))
      case Failure(error) => error.StringTooLong? && r == Failure(error)
      case Success(through) =>
        Compile(Before(p, at)).Success? && Further(Lowered(Before(p, at)), Lowered(Through(p, at, fragment)))
        && var c, d := Lowered(Before(p, at)), Lowered(Through(p, at, fragment));
        var e := Between(c, d);
        && through.actions == d.actions && c.actions <= d.actions
        && (forall x | x in e.sent :: exists j :: |c.actions| <= j < |d.actions| && IsSendOn(d.actions[j], x))
        && (forall x | x in e.raw :: exists j :: |c.actions| <= j < |d.actions| && IsRawOn(d.actions[j], x))
        && match Compile(p)
           case Failure(error) => error.StringTooLong? && r == Failure(StringTooLong(
             I.MoveInput(error.index, VariableCount(p.instructions[..at]), VariableCount(fragment))))
           case Success(whole) =>
             && r.Success? && c.actions <= whole.actions
             && r.value.actions == d.actions + H.MoveActions(e, whole.actions[|c.actions|..])
             && NotesInserted(c.actions, d, whole, r.value, e)
             && TablesInserted(|c.actions|, d.metadata, whole.metadata, r.value.metadata, e,
                  VariableCount(p.instructions[..at]), VariableCount(fragment), |fragment|)
  {
    hide B.StaticallyValid, CompileAll, I.Depth, I.Fits, VariableCount, I.Inserted, Sim, Further, Recorded, I.Move,
      Typed, NotesInserted,
      Extended, TablesInserted;
    var n, added := VariableCount(p.instructions[..at]), VariableCount(fragment);
    InsertedCompileAll(p, at, fragment);
    InsertedContext(p, at, fragment);
    PointsValid(p, at, fragment);
    ValidCompiles(Through(p, at, fragment));
    if Compile(Through(p, at, fragment)).Success? {
      FragmentCompiles(p, at, fragment);
      RestSim(p, at, fragment);
      var c, d := Lowered(Before(p, at)), Lowered(Through(p, at, fragment));
      CompiledRecorded(Before(p, at));
      CompiledRecorded(Through(p, at, fragment));
      FurtherCounts(c, d, p.context.numConnections);
      RecordedSent(c, p.context.numConnections);
      RecordedSent(d, p.context.numConnections);
      BetweenSends(c, d, p.context.numConnections);
      WholeCompiles(p, at);
      if Compile(p).Success? {
        var x, x' := Lowered(p), CompileAll(d, I.Move(p.instructions[at..], n, added), at + |fragment|).value;
        CompiledRecorded(p);
        NoteBounds(c, p.context.numConnections);
        CompileFurther(c, p.instructions[at..], at);
        FurtherActions(c, x);
        InsertedParts(c, d, x, x', Extended(Identity(n), n + added, VariableCount(p.instructions[at..])),
          H.Numbers(|fragment|, |p.instructions| + 1));
        RecordedTables(d, p.context.numConnections);
        TablesInsert(c, d, x, x', p.context.numConnections, n, added, VariableCount(p.instructions[at..]), |fragment|,
          |p.instructions| + 1);
        NotesAre(c.actions, d, Compile(p).value, CompiledProgram(p.context, x'.actions, x'.metadata), x, x',
          Between(c, d));
      } else {
        RenamedIsMoved(Compile(p).error.index, n, added, VariableCount(p.instructions[at..]));
      }
    }
  }

  lemma InsertedContext(p: Program, at: nat, fragment: seq<Instruction>)
    requires at <= |p.instructions|
    ensures I.Inserted(p, at, fragment).context == p.context
  {
  }

  lemma RecordedTables(c: State, base: nat)
    requires Recorded(c, base)
    ensures TablesRecorded(c, base)
  {
    hide SentIsSends, AwaitsRecorded, TablesRecorded, IdsOrdered;
  }

  lemma RecordedSent(c: State, base: nat)
    requires Recorded(c, base)
    ensures SentIsSends(c, base)
  {
    hide SentIsSends, AwaitsRecorded, IdsRecorded;
  }

  lemma RenamedIsMoved(v: nat, n: nat, added: nat, more: nat)
    requires v < n + more
    ensures Renamed(v, Extended(Identity(n), n + added, more)) == I.MoveInput(v, n, added)
  {
  }

  /** Nothing pending, the corresponding compilers' actions and notes, part by part. */
  lemma InsertedParts(c: State, d: State, x: State, x': State, m: seq<nat>, im: seq<nat>)
    requires c.connections <= d.connections && c.sessions <= d.sessions && |c.actions| <= |d.actions|
      && c.actions <= x.actions
    requires Sim(x, x', Between(c, d), m, d, im) && x.blocks == [] && Further(c, x) && Further(c, d)
    ensures x'.actions == d.actions + H.MoveActions(Between(c, d), x.actions[|c.actions|..])
    ensures forall j | 0 <= j < |d.actions| :: Notes(x'.metadata, j) == Notes(d.metadata, j)
    ensures forall j | |c.actions| <= j < |x.actions| ::
      Notes(x'.metadata, j + |d.actions| - |c.actions|) == MoveNotes(Between(c, d), Notes(x.metadata, j), x.actions[j])
    ensures forall j | 0 <= j < |c.actions| :: Notes(d.metadata, j) == Notes(x.metadata, j)
  {
    hide ValuesSim, SentSim, ConnectionsSim, SessionsSim, SpecsSim, OriginsSim, CountersSim, Notes, MoveNotes,
      MoveAction;
    var k, e := |d.actions| - |c.actions|, Between(c, d);
    var rest := x.actions[|c.actions|..];
    forall j | 0 <= j < |rest| ensures x'.actions[|d.actions| + j] == H.MoveActions(e, rest)[j] {
      assert x'.actions[(j + |c.actions|) + k] == MoveAction(e, x.actions[j + |c.actions|], false);
    }
    forall j | |c.actions| <= j < |x.actions|
      ensures Notes(x'.metadata, j + |d.actions| - |c.actions|) == MoveNotes(e, Notes(x.metadata, j), x.actions[j])
    {
      assert Notes(x'.metadata, j + k) == MoveNotes(e, Notes(x.metadata, j), x.actions[j]);
      assert j + k == j + |d.actions| - |c.actions|;
    }
  }

  lemma NotesAre(before: seq<Action>, d: State, whole: CompiledProgram, r: CompiledProgram, x: State, x': State,
    e: Move)
    requires |before| <= |d.actions| && |before| <= |x.actions|
    requires whole.actions == x.actions && whole.metadata == x.metadata && r.metadata == x'.metadata
    requires forall j | 0 <= j < |d.actions| :: Notes(x'.metadata, j) == Notes(d.metadata, j)
    requires forall j | |before| <= j < |x.actions| ::
      Notes(x'.metadata, j + |d.actions| - |before|) == MoveNotes(e, Notes(x.metadata, j), x.actions[j])
    requires forall j | 0 <= j < |before| :: Notes(d.metadata, j) == Notes(x.metadata, j)
    ensures NotesInserted(before, d, whole, r, e)
  {
    hide Notes, MoveNotes;
  }
}
