/** Appending one program's instructions to another's, renumbered. */
module Concat {
  import opened Wrappers
  import opened Ir
  import opened Builder
  import opened Scoping
  import opened Renaming

  function ShiftOne(i: Instruction, offset: nat): Instruction {
    Instruction(i.operation, seq(|i.inputs|, k requires 0 <= k < |i.inputs| => i.inputs[k] + offset))
  }

  function Shift(code: seq<Instruction>, offset: nat): seq<Instruction> {
    seq(|code|, k requires 0 <= k < |code| => ShiftOne(code[k], offset))
  }

  function Spliced(p: Program, other: Program): Program {
    Program(p.context, p.instructions + Shift(other.instructions, VariableCount(p.instructions)))
  }

  lemma ShiftOneIsRename(i: Instruction, n: nat, offset: nat)
    requires InputsBelow(i, n)
    ensures RenameOne(i, Extended([], offset, n)) == ShiftOne(i, offset)
  {
  }

  /** Shifting is renaming, for code that reads only what it defines. */
  lemma {:induction false} ShiftIsRename(code: seq<Instruction>, n: nat, offset: nat)
    requires Defined(code, n)
    ensures RenameAll(code, Extended([], offset, n), offset + n) == Shift(code, offset)
    decreases |code|
  {
    hide InputsBelow, ShiftOne, RenameOne, Extended, Operation.Defines;
    if code != [] {
      var d := code[0].operation.Defines();
      ShiftOneIsRename(code[0], n, offset);
      ExtendedTwice([], offset, n, d);
      ShiftIsRename(code[1..], n + d, offset);
      assert Shift(code, offset) == [ShiftOne(code[0], offset)] + Shift(code[1..], offset);
    }
  }

  /** A fresh builder relates to any builder at global scope: it sees nothing the other would have to. */
  lemma NewRelated(context: ProgramContext, t: State)
    requires Wellformed(t) && |t.scopes| == 1
    requires context.numRoles <= t.context.numRoles && context.numConnections <= t.context.numConnections
    ensures Related(New(context), t, [], {})
  {
    NewWellformed(context);
  }

  /** Splicing two valid programs never fails: the result is valid, in any context at least as large as both. */
  lemma SplicedValid(p: Program, other: Program)
    requires StaticallyValid(p) && StaticallyValid(other)
    requires other.context.numRoles <= p.context.numRoles
    requires other.context.numConnections <= p.context.numConnections
    ensures StaticallyValid(Spliced(p, other))
  {
    hide Finalize, Steps, Wellformed, Lexical, Related, Shift;
    ValidIffGlobal(p);
    ValidIffGlobal(other);
    ValidIffGlobal(Spliced(p, other));
    var s, t := New(other.context), FromPrefix(p.context, p.instructions).state;
    Reached(p.context, p.instructions);
    NewWellformed(p.context);
    NewWellformed(other.context);
    StepsVariables(New(p.context), p.instructions);
    NewRelated(other.context, t);
    StepsRelated(s, t, [], {}, other.instructions);
    StepsDefined(s, other.instructions);
    ShiftIsRename(other.instructions, 0, |t.variables|);
    ExtendedNone([], |t.variables|);
    StepsConcat(New(p.context), p.instructions, Shift(other.instructions, |t.variables|));
    RelatedDepth(Steps(s, other.instructions).state, Steps(t, Shift(other.instructions, |t.variables|)).state,
      Extended([], |t.variables|, VariableCount(other.instructions)), {});
  }

  /** The second program in the first one's context, where its own has more to load from. */
  function Fitted(p: Program, q: Program): Program {
    if q.context.numConnections <= p.context.numConnections then q else Program(p.context, q.instructions)
  }

  /** Loads only what the context has. */
  predicate LoadsWithin(i: Instruction, context: ProgramContext) {
    && (i.operation.LoadRole? ==> i.operation.role < context.numRoles)
    && (i.operation.LoadConnection? ==> i.operation.connection < context.numConnections)
  }

  lemma {:induction false} AcceptedLoads(s: State, code: seq<Instruction>)
    requires Wellformed(s) && Steps(s, code).Appended?
    ensures forall k | 0 <= k < |code| :: LoadsWithin(code[k], s.context)
    decreases |code|
  {
    hide Step, Wellformed;
    if code != [] {
      StepTaken(s, code[0]);
      StepLoads(s, code[0]);
      AcceptedLoads(Step(s, code[0]).state, code[1..]);
      assert forall k | 0 < k < |code| :: code[k] == code[1..][k - 1];
    }
  }

  lemma StepLoads(s: State, i: Instruction)
    requires Wellformed(s) && Step(s, i).Appended?
    ensures LoadsWithin(i, s.context) && Step(s, i).state.context == s.context
  {
    hide Step, Wellformed, NewVariable, Operation.Defines, NewScopes;
    StepTaken(s, i);
  }

  /** In another context an instruction does the same, if that has what it loads. */
  lemma StepElsewhere(s: State, i: Instruction, context: ProgramContext)
    requires Wellformed(s) && Step(s, i).Appended? && LoadsWithin(i, context)
    ensures Wellformed(s.(context := context))
    ensures Step(s.(context := context), i) == Appended(Step(s, i).state.(context := context))
  {
    hide Step, ScopeOpenedBy, Housed;
    var other := s.(context := context);
    WellformedElsewhere(s, context);
    StepTaken(s, i);
    assert Accepts(other, i) by { AcceptsElsewhere(s, i, context); }
    StepTaken(other, i);
    GrewElsewhere(s, i, Step(s, i).state, Step(other, i).state, context);
  }

  lemma WellformedElsewhere(s: State, context: ProgramContext)
    requires Wellformed(s)
    ensures Wellformed(s.(context := context))
  {
    hide Operation.Defines;
    var other := s.(context := context);
    forall v: nat, k: nat | v < |other.variables| && k < |other.scopes| ensures Housed(other, v, k) {
      assert Housed(s, v, k);
    }
    forall k: nat | 0 < k < |other.scopes| ensures ScopeOpenedBy(other, k) {
      assert ScopeOpenedBy(s, k);
    }
  }

  lemma AcceptsElsewhere(s: State, i: Instruction, context: ProgramContext)
    requires Accepts(s, i) && LoadsWithin(i, context)
    ensures Accepts(s.(context := context), i)
  {
    hide Operation.InputVariables;
    var other := s.(context := context);
    forall k | 0 <= k < |i.inputs|
      ensures other.Visible(i.inputs[k]) && KindOf(other, i.inputs[k]) == i.operation.InputVariables()[k]
    {
      assert s.Visible(i.inputs[k]) && KindOf(s, i.inputs[k]) == i.operation.InputVariables()[k];
    }
  }

  lemma GrewElsewhere(s: State, i: Instruction, t: State, t': State, context: ProgramContext)
    requires |s.scopes| > 0 && Grew(Left(s, i.operation), i, t)
      && Grew(Left(s.(context := context), i.operation), i, t')
    ensures t' == t.(context := context)
  {
    hide Operation.Defines, Operation.OutputVariables, Operation.InnerOutputVariables;
    assert t'.variables == t.variables;
  }

  lemma {:induction false} StepsElsewhere(s: State, code: seq<Instruction>, context: ProgramContext)
    requires Wellformed(s) && Steps(s, code).Appended? && forall k | 0 <= k < |code| :: LoadsWithin(code[k], context)
    ensures Steps(s.(context := context), code) == Appended(Steps(s, code).state.(context := context))
    decreases |code|
  {
    hide Step, Wellformed, LoadsWithin;
    if code != [] {
      StepTaken(s, code[0]);
      StepElsewhere(s, code[0], context);
      StepsElsewhere(Step(s, code[0]).state, code[1..], context);
    }
  }

  /** A program that splices validly is valid in the context it is spliced into. */
  lemma FittedValid(p: Program, q: Program)
    requires StaticallyValid(p) && StaticallyValid(q) && StaticallyValid(Spliced(p, q))
    ensures StaticallyValid(Program(p.context, q.instructions))
    ensures StaticallyValid(Fitted(p, q)) && Spliced(p, Fitted(p, q)) == Spliced(p, q)
  {
    hide Steps, Wellformed, Finalize, LoadsWithin;
    var there := Program(p.context, q.instructions);
    ValidIffGlobal(q);
    ValidIffGlobal(there);
    NewWellformed(p.context);
    NewWellformed(q.context);
    AcceptedLoads(New(p.context), Spliced(p, q).instructions);
    forall k | 0 <= k < |q.instructions| ensures LoadsWithin(q.instructions[k], p.context) {
      SplicedLoads(p, q, k);
    }
    StepsElsewhere(New(q.context), q.instructions, p.context);
    assert New(q.context).(context := p.context) == New(p.context);
  }

  lemma SplicedLoads(p: Program, q: Program, k: nat)
    requires k < |q.instructions|
    requires forall j | 0 <= j < |Spliced(p, q).instructions| :: LoadsWithin(Spliced(p, q).instructions[j], p.context)
    ensures LoadsWithin(q.instructions[k], p.context)
  {
    var shifted := Shift(q.instructions, VariableCount(p.instructions));
    assert Spliced(p, q).instructions[|p.instructions| + k] == shifted[k];
    assert shifted[k].operation == q.instructions[k].operation;
  }

  method CountVariables(code: seq<Instruction>) returns (n: nat)
    ensures n == VariableCount(code)
  {
    n := 0;
    for k := 0 to |code|
      invariant n == VariableCount(code[..k])
    {
      VariableCountConcat(code[..k], [code[k]]);
      assert code[..k + 1] == code[..k] + [code[k]];
      assert [code[k]][1..] == [];
      n := n + code[k].operation.Defines();
    }
    assert code[..|code|] == code;
  }

  /** Append `other` to `program`, its inputs moved past the variables already there. */
  method Splice(program: Program, other: Program) returns (r: Result<Program, MutatorError>)
    ensures other.instructions == [] ==> r == Failure(NoMutationsAvailable)
    ensures other.instructions != [] ==>
              r == match Validity(Spliced(program, other))
                   case None => Failure(BuilderPanic)
                   case Some(valid) => if valid then Success(Spliced(program, other))
                     else Failure(CreatedInvalidProgram)
    ensures (&& other.instructions != [] && other.context == program.context
             && StaticallyValid(program) && StaticallyValid(other)) ==>
              r.Success? && StaticallyValid(r.value)
  {
    hide StaticallyValid;
    if other.instructions == [] {
      return Failure(NoMutationsAvailable);
    }
    var offset := CountVariables(program.instructions);
    var appended: seq<Instruction> := [];
    for k := 0 to |other.instructions|
      invariant appended == Shift(other.instructions[..k], offset)
    {
      var inputs: seq<nat> := [];
      var source := other.instructions[k].inputs;
      for j := 0 to |source|
        invariant inputs == seq(j, x requires 0 <= x < j => source[x] + offset)
      {
        inputs := inputs + [source[j] + offset];
      }
      assert Instruction(other.instructions[k].operation, inputs) == ShiftOne(other.instructions[k], offset);
      appended := appended + [Instruction(other.instructions[k].operation, inputs)];
      assert Shift(other.instructions[..k + 1], offset) == Shift(other.instructions[..k], offset)
        + [ShiftOne(other.instructions[k], offset)];
    }
    assert other.instructions[..|other.instructions|] == other.instructions;
    var candidate := Program(program.context, program.instructions + appended);
    var valid := IsStaticallyValid(candidate);
    assert StaticallyValid(program) && StaticallyValid(other) && other.context == program.context ==>
          StaticallyValid(candidate) by {
      if StaticallyValid(program) && StaticallyValid(other) && other.context == program.context {
        SplicedValid(program, other);
      }
    }
    ValidityAnswers(candidate);
    return match valid
           case None => Failure(BuilderPanic)
           case Some(v) => if v then Success(candidate) else Failure(CreatedInvalidProgram);
  }
}
