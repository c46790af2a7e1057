/** The incremental type and scope checker: its state transitions, and the builder that performs them. */
module Builder {
  import opened Wrappers
  import opened Ir

  datatype Scope = Scope(begin: Option<nat>, id: nat, context: InstructionContext)

  datatype ScopedVariable = ScopedVariable(kind: Variable, scopeId: nat)

  datatype IndexedVariable = IndexedVariable(kind: Variable, index: nat)

  /** What a builder holds: the open scopes, every variable with the scope it is in, the code so far. */
  datatype State = State(
    context: ProgramContext,
    scopes: seq<Scope>,
    active: set<nat>,
    counter: nat,
    variables: seq<ScopedVariable>,
    instructions: seq<Instruction>)
  {
    predicate Visible(index: nat) {
      index < |variables| && variables[index].scopeId in active
    }
  }

  /** An append either takes the instruction, refuses it, or hits one of the builder's `expect`s. */
  datatype AppendResult =
    | Appended(state: State)
    | Rejected(error: ValidationError, left: State)
    | Panicked

  function EnterScope(s: State, begin: Option<nat>, context: InstructionContext): State {
    s.(counter := s.counter + 1,
       scopes := s.scopes + [Scope(begin, s.counter + 1, context)],
       active := s.active + {s.counter + 1})
  }

  function New(context: ProgramContext): State {
    EnterScope(State(context, [], {}, 0, [], []), None, Global)
  }

  function FirstInvisible(s: State, inputs: seq<nat>): (r: Option<nat>)
    ensures r.None? <==> forall k | 0 <= k < |inputs| :: s.Visible(inputs[k])
  {
    if inputs == [] then None
    else if !s.Visible(inputs[0]) then Some(inputs[0])
    else
      var rest := FirstInvisible(s, inputs[1..]);
      assert forall k | 0 < k < |inputs| :: inputs[k] == inputs[1..][k - 1];
      rest
  }

  /** The first pair of types that differ, what was given before what was wanted. */
  function FirstMismatch(given: seq<Variable>, wanted: seq<Variable>): (r: Option<(Variable, Variable)>)
    requires |given| == |wanted|
    ensures r.None? <==> given == wanted
  {
    if given == [] then None
    else if given[0] != wanted[0] then Some((given[0], wanted[0]))
    else
      var rest := FirstMismatch(given[1..], wanted[1..]);
      assert given == [given[0]] + given[1..] && wanted == [wanted[0]] + wanted[1..];
      rest
  }

  function KindOf(s: State, index: nat): Variable {
    if index < |s.variables| then s.variables[index].kind else NopVar
  }

  function Kinds(s: State, inputs: seq<nat>): seq<Variable> {
    seq(|inputs|, k requires 0 <= k < |inputs| => KindOf(s, inputs[k]))
  }

  /** Why an instruction is refused before anything changes, the checks in the builder's order. */
  function Refusal(s: State, instruction: Instruction): Option<ValidationError> {
    var op := instruction.operation;
    if |instruction.inputs| != |op.InputVariables()| then
      Some(InvalidNumberOfInputs(|instruction.inputs|, |op.InputVariables()|))
    else
      match FirstInvisible(s, instruction.inputs)
      case Some(index) => Some(VariableNotDefined(index))
      case None =>
        match FirstMismatch(Kinds(s, instruction.inputs), op.InputVariables())
        case Some(pair) => Some(InvalidVariableType(pair.0, pair.1))
        case None =>
          if op.LoadRole? && op.role >= s.context.numRoles then Some(RoleNotFound(op.role))
          else if op.LoadConnection? && op.connection >= s.context.numConnections then
            Some(ConnectionNotFound(op.connection))
          else None
  }

  function Scoped(kinds: seq<Variable>, scopeId: nat): seq<ScopedVariable> {
    seq(|kinds|, k requires 0 <= k < |kinds| => ScopedVariable(kinds[k], scopeId))
  }

  function CurrentId(s: State): nat
    requires |s.scopes| > 0
  {
    s.scopes[|s.scopes| - 1].id
  }

  /** The state after an accepted instruction, any scope it ends already left. */
  function Extend(s: State, instruction: Instruction): State
    requires |s.scopes| > 0
  {
    var op := instruction.operation;
    var outer := s.(variables := s.variables + Scoped(op.OutputVariables(), if op.Nop? then 0 else CurrentId(s)));
    var entered :=
      if op.EnteredContext().Some?
      then EnterScope(outer, Some(|s.instructions|), op.EnteredContext().value)
      else outer;
    entered.(
      variables := entered.variables + Scoped(op.InnerOutputVariables(), if op.Nop? then 0 else entered.counter),
      instructions := s.instructions + [instruction])
  }

  /** The state once the innermost scope is left. */
  function ExitScope(s: State): State
    requires |s.scopes| > 0
  {
    var last := |s.scopes| - 1;
    s.(scopes := s.scopes[..last], active := s.active - {s.scopes[last].id})
  }

  /** Leave the innermost scope for a block end, which has to be of the kind that scope is. */
  function Closed(s: State, op: Operation): AppendResult
    requires |s.scopes| > 0
  {
    var begin := s.scopes[|s.scopes| - 1].begin;
    var exited := ExitScope(s);
    if begin.None? || begin.value >= |s.instructions| then Panicked
    else if !op.Closes(s.instructions[begin.value].operation) then
      Rejected(InvalidBlockEnd(s.instructions[begin.value].operation, op), exited)
    else if exited.scopes == [] then Panicked
    else Appended(exited)
  }

  function Step(s: State, instruction: Instruction): AppendResult {
    var refusal := Refusal(s, instruction);
    if refusal.Some? then Rejected(refusal.value, s)
    else if s.scopes == [] then Panicked
    else if !instruction.operation.IsBlockEnd() then Appended(Extend(s, instruction))
    else
      var closed := Closed(s, instruction.operation);
      if closed.Appended? && closed.state.scopes != [] then Appended(Extend(closed.state, instruction)) else closed
  }

  /** Append until something is not taken. */
  function Steps(s: State, code: seq<Instruction>): AppendResult
    decreases |code|
  {
    if code == [] then Appended(s)
    else
      var first := Step(s, code[0]);
      if first.Appended? then Steps(first.state, code[1..]) else first
  }

  function FromPrefix(context: ProgramContext, code: seq<Instruction>): AppendResult {
    Steps(New(context), code)
  }

  function Finalize(s: State): Result<Program, ValidationError> {
    if |s.scopes| > 0 && s.scopes[|s.scopes| - 1].begin.Some? then
      var begin := s.scopes[|s.scopes| - 1].begin.value;
      Failure(UnfinishedBlock(if begin < |s.instructions| then s.instructions[begin].operation else Probe))
    else Success(Program(s.context, s.instructions))
  }

  predicate StaticallyValid(p: Program) {
    var built := FromPrefix(p.context, p.instructions);
    built.Appended? && Finalize(built.state).Success?
  }

  /** What checking a program's validity by replay answers, or `None` where it panics instead. */
  function Validity(p: Program): Option<bool> {
    if FromPrefix(p.context, p.instructions).Panicked? then None else Some(StaticallyValid(p))
  }

  lemma ValidityAnswers(p: Program)
    ensures Validity(p).Some? ==> Validity(p).value == StaticallyValid(p)
    ensures StaticallyValid(p) ==> Validity(p) == Some(true)
  {
  }

  function Indexed(variables: seq<ScopedVariable>, first: nat): seq<IndexedVariable>
    requires first <= |variables|
  {
    seq(|variables| - first, k requires 0 <= k < |variables| - first =>
          IndexedVariable(variables[first + k].kind, first + k))
  }

  lemma {:induction false} StepsConcat(s: State, a: seq<Instruction>, b: seq<Instruction>)
    ensures Steps(s, a + b) ==
            var first := Steps(s, a); if first.Appended? then Steps(first.state, b) else first
    decreases |a|
  {
    if a == [] {
      assert a + b == b;
    } else {
      assert (a + b)[1..] == a[1..] + b;
      var first := Step(s, a[0]);
      if first.Appended? {
        StepsConcat(first.state, a[1..], b);
      }
    }
  }

  lemma StepsOne(s: State, code: seq<Instruction>, instruction: Instruction)
    ensures Steps(s, code + [instruction]) ==
            var first := Steps(s, code); if first.Appended? then Step(first.state, instruction) else first
  {
    StepsConcat(s, code, [instruction]);
    var first := Steps(s, code);
    if first.Appended? {
      assert [instruction][1..] == [];
      assert Steps(first.state, [instruction]) ==
        var taken := Step(first.state, instruction); if taken.Appended? then Steps(taken.state, []) else taken;
    }
  }

  /** The variables from `v` on that are in scope and of a kind. */
  function VisibleOf(s: State, kind: Variable, v: nat): (r: seq<nat>)
    requires v <= |s.variables|
    ensures forall w: nat :: w in r <==> v <= w < |s.variables| && s.Visible(w) && s.variables[w].kind == kind
    decreases |s.variables| - v
  {
    if v == |s.variables| then []
    else (if s.Visible(v) && s.variables[v].kind == kind then [v] else []) + VisibleOf(s, kind, v + 1)
  }

  /** They are in the order they were defined. */
  lemma {:induction false} VisibleInOrder(s: State, kind: Variable, v: nat)
    requires v <= |s.variables|
    ensures forall i, j | 0 <= i < j < |VisibleOf(s, kind, v)| :: VisibleOf(s, kind, v)[i] < VisibleOf(s, kind, v)[j]
    decreases |s.variables| - v
  {
    hide State.Visible;
    if v < |s.variables| {
      VisibleInOrder(s, kind, v + 1);
      var rest := VisibleOf(s, kind, v + 1);
      assert forall k | 0 <= k < |rest| :: rest[k] in rest;
    }
  }

  lemma VisibleStep(s: State, kind: Variable, v: nat)
    requires v < |s.variables|
    ensures VisibleOf(s, kind, v) ==
      (if s.Visible(v) && s.variables[v].kind == kind then [v] else []) + VisibleOf(s, kind, v + 1)
  {
  }

  lemma VisibleEnd(s: State, kind: Variable)
    ensures VisibleOf(s, kind, |s.variables|) == []
  {
  }

  /** One of several, by a draw. */
  function Chosen<T>(from: seq<T>, draw: nat): (r: Option<T>)
    ensures from == [] <==> r.None?
    ensures r.Some? ==> r.value in from
  {
    if from == [] then None else Some(from[draw % |from|])
  }

  lemma ChosenReaches<T>(from: seq<T>, x: T) returns (draw: nat)
    requires x in from
    ensures Chosen(from, draw) == Some(x)
  {
    draw :| draw < |from| && from[draw] == x;
    ModSmall(draw, |from|);
  }

  lemma ModSmall(a: nat, n: nat)
    requires a < n
    ensures a % n == a
  {
  }

  /** What the caller of `Append` gets back. */
  datatype Reply = Fresh(variables: seq<IndexedVariable>) | Refused(error: ValidationError) | Panic

  method CheckInputTypes(given: seq<Variable>, wanted: seq<Variable>) returns (mismatch: Option<(Variable, Variable)>)
    requires |given| == |wanted|
    ensures mismatch == FirstMismatch(given, wanted)
  {
    var k := 0;
    while k < |given|
      invariant 0 <= k <= |given|
      invariant FirstMismatch(given, wanted) == FirstMismatch(given[k..], wanted[k..])
    {
      assert given[k..][1..] == given[k + 1..] && wanted[k..][1..] == wanted[k + 1..];
      if given[k] != wanted[k] {
        return Some((given[k], wanted[k]));
      }
      k := k + 1;
    }
    return None;
  }

  class ProgramBuilder {
    const context: ProgramContext
    var activeScopes: seq<Scope>
    var activeScopesSet: set<nat>
    var scopeCounter: nat
    var variables: seq<ScopedVariable>
    var instructions: seq<Instruction>

    ghost function View(): State
      reads this
    {
      State(context, activeScopes, activeScopesSet, scopeCounter, variables, instructions)
    }

    constructor (context: ProgramContext)
      ensures View() == New(context)
    {
      this.context := context;
      activeScopes, activeScopesSet, scopeCounter := [], {}, 0;
      variables, instructions := [], [];
      new;
      Enter(None, Global);
    }

    method Enter(begin: Option<nat>, context: InstructionContext)
      modifies this
      ensures View() == EnterScope(old(View()), begin, context)
    {
      scopeCounter := scopeCounter + 1;
      activeScopes := activeScopes + [Scope(begin, scopeCounter, context)];
      activeScopesSet := activeScopesSet + {scopeCounter};
    }

    method Exit() returns (exited: Scope)
      requires |activeScopes| > 0
      modifies this
      ensures View() == ExitScope(old(View()))
      ensures exited == old(activeScopes)[|old(activeScopes)| - 1]
    {
      exited := activeScopes[|activeScopes| - 1];
      activeScopes := activeScopes[..|activeScopes| - 1];
      activeScopesSet := activeScopesSet - {exited.id};
    }

    method IsVisible(index: nat) returns (visible: bool)
      ensures visible == View().Visible(index)
    {
      visible := index < |variables| && variables[index].scopeId in activeScopesSet;
    }

    /** The types of the inputs, or the first of them that is not in scope. */
    method ResolveInputs(inputs: seq<nat>) returns (given: seq<Variable>, missing: Option<nat>)
      ensures missing == FirstInvisible(View(), inputs)
      ensures missing.None? ==> given == Kinds(View(), inputs)
    {
      given := [];
      var k := 0;
      while k < |inputs|
        invariant 0 <= k <= |inputs|
        invariant FirstInvisible(View(), inputs) == FirstInvisible(View(), inputs[k..])
        invariant given == Kinds(View(), inputs[..k])
      {
        assert inputs[k..][1..] == inputs[k + 1..];
        var visible := IsVisible(inputs[k]);
        if !visible {
          return given, Some(inputs[k]);
        }
        given := given + [variables[inputs[k]].kind];
        k := k + 1;
      }
      assert inputs[..k] == inputs;
      missing := None;
    }

    /** The checks that come before any change: input count, scope, types, and the context's bounds. */
    method Check(instruction: Instruction) returns (refusal: Option<ValidationError>)
      ensures refusal == Refusal(View(), instruction)
    {
      var op := instruction.operation;
      var wanted := op.InputVariables();
      if |instruction.inputs| != |wanted| {
        return Some(InvalidNumberOfInputs(|instruction.inputs|, |wanted|));
      }
      var given, missing := ResolveInputs(instruction.inputs);
      if missing.Some? {
        return Some(VariableNotDefined(missing.value));
      }
      var mismatch := CheckInputTypes(given, wanted);
      if mismatch.Some? {
        return Some(InvalidVariableType(mismatch.value.0, mismatch.value.1));
      }
      if op.LoadRole? && op.role >= context.numRoles {
        return Some(RoleNotFound(op.role));
      }
      if op.LoadConnection? && op.connection >= context.numConnections {
        return Some(ConnectionNotFound(op.connection));
      }
      return None;
    }

    /** Leave the scope a block end ends. On a mismatch the scope has been left all the same. */
    method CloseBlock(op: Operation) returns (failed: Option<Reply>)
      requires |activeScopes| > 0
      modifies this
      ensures match Closed(old(View()), op)
              case Appended(next) => View() == next && failed == None
              case Rejected(error, left) => View() == left && failed == Some(Refused(error))
              case Panicked => failed == Some(Panic)
    {
      var exited := Exit();
      if exited.begin.None? || exited.begin.value >= |instructions| {
        return Some(Panic);
      }
      var begin := instructions[exited.begin.value].operation;
      if !op.Closes(begin) {
        return Some(Refused(InvalidBlockEnd(begin, op)));
      }
      return if activeScopes == [] then Some(Panic) else None;
    }

    /** Define the variables of an accepted instruction and enter the block it begins. */
    method Define(instruction: Instruction)
      requires |activeScopes| > 0
      modifies this
      ensures View() == Extend(old(View()), instruction)
    {
      var op := instruction.operation;
      var scopeId := if op.Nop? then 0 else activeScopes[|activeScopes| - 1].id;
      variables := variables + Scoped(op.OutputVariables(), scopeId);
      if op.IsBlockBegin() {
        Enter(Some(|instructions|), op.EnteredContext().value);
      }
      var innerScopeId := if op.Nop? then 0 else scopeCounter;
      variables := variables + Scoped(op.InnerOutputVariables(), innerScopeId);
      instructions := instructions + [instruction];
    }

    /** Take an instruction if the checks let it through; a block end moves the scopes first. */
    method Append(instruction: Instruction) returns (reply: Reply)
      modifies this
      ensures match Step(old(View()), instruction)
              case Appended(next) =>
                && View() == next
                && |old(variables)| <= |variables|
                && reply == Fresh(Indexed(variables, |old(variables)|))
              case Rejected(error, left) => View() == left && reply == Refused(error)
              case Panicked => reply == Panic
    {
      hide Refusal, Operation.OutputVariables, Operation.InnerOutputVariables;
      var refusal := Check(instruction);
      if refusal.Some? {
        return Refused(refusal.value);
      }
      if activeScopes == [] {
        return Panic;
      }
      if instruction.operation.IsBlockEnd() {
        var failed := CloseBlock(instruction.operation);
        if failed.Some? {
          return failed.value;
        }
      }
      var firstNew := |variables|;
      Define(instruction);
      return Fresh(Indexed(variables, firstNew));
    }

    /** Replay code onto this builder, up to the first instruction not taken. */
    method AppendEach(code: seq<Instruction>) returns (reply: Reply)
      modifies this
      ensures match Steps(old(View()), code)
              case Appended(last) => View() == last && reply == Fresh([])
              case Rejected(error, left) => View() == left && reply == Refused(error)
              case Panicked => reply == Panic
    {
      var k := 0;
      while k < |code|
        invariant 0 <= k <= |code|
        invariant Steps(old(View()), code) == Steps(View(), code[k..])
      {
        assert code[k..][1..] == code[k + 1..];
        reply := this.Append(code[k]);
        if !reply.Fresh? {
          return;
        }
        k := k + 1;
      }
      reply := Fresh([]);
    }

    /** The nearest variable of a type that is in scope: none later than it is. */
    method GetNearestVariable(kind: Variable) returns (nearest: Option<IndexedVariable>)
      ensures nearest.None? ==> forall i: nat | View().Visible(i) :: variables[i].kind != kind
      ensures nearest.Some? ==>
                && nearest.value.kind == kind
                && View().Visible(nearest.value.index)
                && variables[nearest.value.index].kind == kind
                && forall i: nat | i > nearest.value.index && View().Visible(i) :: variables[i].kind != kind
    {
      var i := |variables|;
      while i > 0
        invariant 0 <= i <= |variables|
        invariant forall j: nat | j >= i && View().Visible(j) :: variables[j].kind != kind
      {
        i := i - 1;
        if variables[i].scopeId in activeScopesSet && variables[i].kind == kind {
          return Some(IndexedVariable(kind, i));
        }
      }
      return None;
    }

    /** A random variable of a type that is in scope, by a draw. */
    method GetRandomVariable(kind: Variable, draw: nat) returns (r: Option<nat>)
      ensures r == Chosen(VisibleOf(View(), kind, 0), draw)
    {
      hide State.Visible, VisibleOf;
      ghost var s := View();
      var found: seq<nat> := [];
      for v := 0 to |variables|
        invariant VisibleOf(s, kind, 0) == found + VisibleOf(s, kind, v)
      {
        VisibleStep(s, kind, v);
        var visible := IsVisible(v);
        if visible && variables[v].kind == kind {
          found := found + [v];
        }
      }
      VisibleEnd(s, kind);
      return Chosen(found, draw);
    }

    method Finish() returns (r: Result<Program, ValidationError>)
      ensures r == Finalize(View())
    {
      if |activeScopes| > 0 && activeScopes[|activeScopes| - 1].begin.Some? {
        var begin := activeScopes[|activeScopes| - 1].begin.value;
        return Failure(UnfinishedBlock(if begin < |instructions| then instructions[begin].operation else Probe));
      }
      return Success(Program(context, instructions));
    }
  }

  /** Replay a whole program through a fresh builder and finalize it. */
  method IsStaticallyValid(p: Program) returns (valid: Option<bool>)
    ensures valid == Validity(p)
  {
    var builder := new ProgramBuilder(p.context);
    var reply := builder.AppendEach(p.instructions);
    if !reply.Fresh? {
      return if reply.Panic? then None else Some(false);
    }
    var finished := builder.Finish();
    return Some(finished.Success?);
  }
}
