/** What every builder state satisfies, and the lexical scoping its ids, set and counter stand for. */
module Scoping {
  import opened Wrappers
  import opened Ir
  import opened Builder

  /** A variable kind that exists only inside blocks of one context. */
  function HomeContext(kind: Variable): Option<InstructionContext> {
    match kind
    case MutSetupVar => Some(BuildSetupConnection)
    case SessionVar(_) => Some(OnSetupSuccess)
    case _ => None
  }

  ghost predicate ScopeOpenedBy(s: State, k: nat)
    requires k < |s.scopes|
  {
    && s.scopes[k].begin.Some?
    && s.scopes[k].begin.value < |s.instructions|
    && s.instructions[s.scopes[k].begin.value].operation.EnteredContext() == Some(s.scopes[k].context)
  }

  ghost predicate Housed(s: State, v: nat, k: nat)
    requires v < |s.variables| && k < |s.scopes|
  {
    && HomeContext(s.variables[v].kind).Some?
    && s.variables[v].scopeId == s.scopes[k].id
    ==> HomeContext(s.variables[v].kind).value == s.scopes[k].context
  }

  ghost predicate Wellformed(s: State) {
    && |s.scopes| > 0
    && s.scopes[0] == Scope(None, 1, Global)
    && (forall k: nat | 0 < k < |s.scopes| :: ScopeOpenedBy(s, k))
    && (forall j, k | 0 <= j < k < |s.scopes| :: s.scopes[j].id < s.scopes[k].id)
    && (forall k | 0 <= k < |s.scopes| :: s.scopes[k].id <= s.counter && s.scopes[k].id in s.active)
    && (forall id | id in s.active :: exists k :: 0 <= k < |s.scopes| && s.scopes[k].id == id)
    && (forall v | 0 <= v < |s.variables| :: s.variables[v].scopeId <= s.counter)
    && (forall v: nat, k: nat | v < |s.variables| && k < |s.scopes| :: Housed(s, v, k))
  }

  /** An instruction the builder has no reason to refuse before it looks at blocks. */
  predicate Admissible(s: State, i: Instruction) {
    var wanted := i.operation.InputVariables();
    && |i.inputs| == |wanted|
    && (forall k | 0 <= k < |i.inputs| :: s.Visible(i.inputs[k]) && KindOf(s, i.inputs[k]) == wanted[k])
    && (i.operation.LoadRole? ==> i.operation.role < s.context.numRoles)
    && (i.operation.LoadConnection? ==> i.operation.connection < s.context.numConnections)
  }

  /** A block end refused for its kind says which block is open and which end was tried. */
  lemma CloseTold(s: State, i: Instruction)
    requires Wellformed(s) && Step(s, i).Rejected? && Step(s, i).error.InvalidBlockEnd?
    ensures var last := s.scopes[|s.scopes| - 1];
      && last.begin.Some? && last.begin.value < |s.instructions|
      && Step(s, i).error == InvalidBlockEnd(s.instructions[last.begin.value].operation, i.operation)
      && i.operation.IsBlockEnd() && !i.operation.Closes(s.instructions[last.begin.value].operation)
  {
    hide Wellformed;
    RefusalTold(s, i);
  }

  /** Finalizing fails exactly when a block is open, and says which. */
  lemma FinalizeTold(s: State)
    requires Wellformed(s)
    ensures var last := s.scopes[|s.scopes| - 1];
      if |s.scopes| == 1 then Finalize(s) == Success(Program(s.context, s.instructions))
      else
        && last.begin.Some? && last.begin.value < |s.instructions|
        && Finalize(s) == Failure(UnfinishedBlock(s.instructions[last.begin.value].operation))
  {
    if |s.scopes| > 1 {
      assert ScopeOpenedBy(s, |s.scopes| - 1);
    }
  }

  /** The first pair of types that differ. */
  lemma {:induction false} MismatchIsFirst(given: seq<Variable>, wanted: seq<Variable>) returns (k: nat)
    requires |given| == |wanted| && given != wanted
    ensures k < |given| && given[k] != wanted[k] && FirstMismatch(given, wanted) == Some((given[k], wanted[k]))
    ensures forall j | 0 <= j < k :: given[j] == wanted[j]
    decreases |given|
  {
    if given[0] != wanted[0] {
      k := 0;
    } else {
      assert given == [given[0]] + given[1..] && wanted == [wanted[0]] + wanted[1..];
      var rest := MismatchIsFirst(given[1..], wanted[1..]);
      k := rest + 1;
      forall j | 0 <= j < k ensures given[j] == wanted[j] {
        assert j > 0 ==> given[j] == given[1..][j - 1] && wanted[j] == wanted[1..][j - 1];
      }
    }
  }

  /** The first input that cannot be seen. */
  lemma {:induction false} InvisibleIsFirst(s: State, inputs: seq<nat>) returns (k: nat)
    requires FirstInvisible(s, inputs).Some?
    ensures k < |inputs| && !s.Visible(inputs[k]) && FirstInvisible(s, inputs) == Some(inputs[k])
    ensures forall j | 0 <= j < k :: s.Visible(inputs[j])
    decreases |inputs|
  {
    hide State.Visible;
    if !s.Visible(inputs[0]) {
      k := 0;
    } else {
      var rest := InvisibleIsFirst(s, inputs[1..]);
      k := rest + 1;
      forall j | 0 <= j < k ensures s.Visible(inputs[j]) {
        assert j > 0 ==> inputs[j] == inputs[1..][j - 1];
      }
    }
  }

  /** Input `k` is the first that cannot be seen. */
  predicate UnseenAt(s: State, i: Instruction, k: nat) {
    k < |i.inputs| && !s.Visible(i.inputs[k]) && forall j | 0 <= j < k :: s.Visible(i.inputs[j])
  }

  /** All inputs can be seen, and `k` is the first of another type than the operation wants. */
  predicate MistypedAt(s: State, i: Instruction, k: nat)
    requires |i.inputs| == |i.operation.InputVariables()|
  {
    && (forall j | 0 <= j < |i.inputs| :: s.Visible(i.inputs[j]))
    && k < |i.inputs| && s.variables[i.inputs[k]].kind != i.operation.InputVariables()[k]
    && forall j | 0 <= j < k :: s.variables[i.inputs[j]].kind == i.operation.InputVariables()[j]
  }

  /**
   * A refusal says what is wrong: the number of inputs, the first that is not in scope, the first of a wrong type, or
   * what the context does not have.
   */
  lemma RefusalTold(s: State, i: Instruction)
    ensures match Refusal(s, i)
            case None => true
            case Some(InvalidNumberOfInputs(got, expected)) =>
              got == |i.inputs| && expected == |i.operation.InputVariables()| && got != expected
            case Some(VariableNotDefined(v)) =>
              |i.inputs| == |i.operation.InputVariables()| && exists k: nat :: UnseenAt(s, i, k) && v == i.inputs[k]
            case Some(InvalidVariableType(found, wanted)) =>
              && |i.inputs| == |i.operation.InputVariables()|
              && exists k: nat :: MistypedAt(s, i, k)
                   && found == s.variables[i.inputs[k]].kind && wanted == i.operation.InputVariables()[k]
            case Some(RoleNotFound(role)) => i.operation == LoadRole(role) && role >= s.context.numRoles
            case Some(ConnectionNotFound(c)) => i.operation == LoadConnection(c) && c >= s.context.numConnections
            case _ => false
  {
    hide Operation.InputVariables, State.Visible, FirstMismatch, FirstInvisible;
    var wanted := i.operation.InputVariables();
    if |i.inputs| == |wanted| {
      if FirstInvisible(s, i.inputs).Some? {
        var k := InvisibleIsFirst(s, i.inputs);
        assert UnseenAt(s, i, k);
      } else if Kinds(s, i.inputs) != wanted {
        var k := MismatchIsFirst(Kinds(s, i.inputs), wanted);
        AllSeen(s, i);
        forall j | 0 <= j <= k
          ensures i.inputs[j] < |s.variables| && Kinds(s, i.inputs)[j] == s.variables[i.inputs[j]].kind
        {
          SeenIsThere(s, i.inputs[j]);
        }
        assert MistypedAt(s, i, k);
      }
    }
  }

  lemma AllSeen(s: State, i: Instruction)
    requires FirstInvisible(s, i.inputs).None?
    ensures forall j | 0 <= j < |i.inputs| :: s.Visible(i.inputs[j])
  {
  }

  lemma SeenIsThere(s: State, v: nat)
    requires s.Visible(v)
    ensures v < |s.variables|
  {
  }

  lemma RefusalIffInadmissible(s: State, i: Instruction)
    ensures Refusal(s, i).None? <==> Admissible(s, i)
  {
    if |i.inputs| == |i.operation.InputVariables()| && FirstInvisible(s, i.inputs).None? {
      var given, wanted := Kinds(s, i.inputs), i.operation.InputVariables();
      if Admissible(s, i) {
        assert given == wanted;
      }
      if given == wanted {
        forall k | 0 <= k < |i.inputs| ensures KindOf(s, i.inputs[k]) == wanted[k] {
          assert given[k] == wanted[k];
        }
      }
    }
  }

  lemma NewWellformed(context: ProgramContext)
    ensures Wellformed(New(context))
  {
    var s := New(context);
    assert s.scopes == [Scope(None, 1, Global)];
    assert s.active == {1};
  }

  lemma ExitWellformed(s: State)
    requires Wellformed(s) && |s.scopes| > 1
    ensures Wellformed(ExitScope(s))
  {
    var t := ExitScope(s);
    forall id | id in t.active ensures exists k :: 0 <= k < |t.scopes| && t.scopes[k].id == id {
      var k :| 0 <= k < |s.scopes| && s.scopes[k].id == id;
      assert t.scopes[k].id == id;
    }
    forall k: nat | 0 < k < |t.scopes| ensures ScopeOpenedBy(t, k) {
      assert ScopeOpenedBy(s, k);
    }
    forall v: nat, k: nat | v < |t.variables| && k < |t.scopes| ensures Housed(t, v, k) {
      assert Housed(s, v, k);
    }
  }

  /** The scope a new variable is put in, and its kind. */
  function NewVariable(s: State, op: Operation, n: nat): ScopedVariable
    requires |s.scopes| > 0 && n < op.Defines()
  {
    if op.Nop? then ScopedVariable(NopVar, 0)
    else if n < |op.OutputVariables()| then ScopedVariable(op.OutputVariables()[n], CurrentId(s))
    else ScopedVariable(op.InnerOutputVariables()[n - |op.OutputVariables()|], s.counter + 1)
  }

  function NewScopes(s: State, op: Operation): seq<Scope> {
    match op.EnteredContext()
    case Some(context) => [Scope(Some(|s.instructions|), s.counter + 1, context)]
    case None => []
  }

  /** `t` is `s` with one instruction taken, any scope that instruction ends already left. */
  ghost predicate Grew(s: State, i: Instruction, t: State) {
    && |s.scopes| > 0
    && t.context == s.context
    && t.instructions == s.instructions + [i]
    && t.scopes == s.scopes + NewScopes(s, i.operation)
    && t.counter == s.counter + |NewScopes(s, i.operation)|
    && t.active == s.active + (if i.operation.IsBlockBegin() then {s.counter + 1} else {})
    && |t.variables| == |s.variables| + i.operation.Defines()
    && (forall v | 0 <= v < |s.variables| :: t.variables[v] == s.variables[v])
    && (forall v | |s.variables| <= v < |t.variables| ::
          t.variables[v] == NewVariable(s, i.operation, v - |s.variables|))
  }

  lemma ExtendGrows(s: State, i: Instruction)
    requires |s.scopes| > 0
    ensures Grew(s, i, Extend(s, i))
  {
    var t := Extend(s, i);
    var op := i.operation;
    assert op.EnteredContext().Some? <==> op.IsBlockBegin();
    forall v | |s.variables| <= v < |t.variables| ensures t.variables[v] == NewVariable(s, op, v - |s.variables|) {
    }
  }

  /**
   * What is handed back of an instruction taken is what it defines, outer before inner, numbered on from what there
   * was; and that is what the builder has more.
   */
  lemma FreshTold(s: State, i: Instruction)
    requires Wellformed(s) && Step(s, i).Appended?
    ensures var kinds := i.operation.OutputVariables() + i.operation.InnerOutputVariables();
      var last := Step(s, i).state;
      && |s.variables| + |kinds| == |last.variables| && s.variables == last.variables[..|s.variables|]
      && Indexed(last.variables, |s.variables|) ==
         seq(|kinds|, k requires 0 <= k < |kinds| => IndexedVariable(kinds[k], |s.variables| + k))
  {
    hide Wellformed, Operation.OutputVariables, Operation.InnerOutputVariables, Refusal, Extend, Indexed;
    if i.operation.IsBlockEnd() {
      ExtendFresh(Closed(s, i.operation).state, i);
    } else {
      ExtendFresh(s, i);
    }
  }

  lemma ExtendFresh(s: State, i: Instruction)
    requires |s.scopes| > 0
    ensures var kinds := i.operation.OutputVariables() + i.operation.InnerOutputVariables();
      var last := Extend(s, i);
      && |s.variables| + |kinds| == |last.variables| && s.variables == last.variables[..|s.variables|]
      && Indexed(last.variables, |s.variables|) ==
         seq(|kinds|, k requires 0 <= k < |kinds| => IndexedVariable(kinds[k], |s.variables| + k))
  {
    hide Operation.OutputVariables, Operation.InnerOutputVariables;
  }

  lemma GrewScopesWellformed(s: State, i: Instruction, t: State)
    requires Wellformed(s) && Grew(s, i, t)
    ensures forall k: nat | 0 < k < |t.scopes| :: ScopeOpenedBy(t, k)
    ensures forall id | id in t.active :: exists k :: 0 <= k < |t.scopes| && t.scopes[k].id == id
  {
    forall k: nat | 0 < k < |t.scopes| ensures ScopeOpenedBy(t, k) {
      if k < |s.scopes| {
        assert ScopeOpenedBy(s, k);
      }
    }
    forall id | id in t.active ensures exists k :: 0 <= k < |t.scopes| && t.scopes[k].id == id {
      if id in s.active {
        var k :| 0 <= k < |s.scopes| && s.scopes[k].id == id;
        assert t.scopes[k].id == id;
      } else {
        assert t.scopes[|s.scopes|].id == id;
      }
    }
  }

  lemma NewVariableHome(s: State, op: Operation, n: nat)
    requires |s.scopes| > 0 && n < op.Defines()
    ensures var v := NewVariable(s, op, n);
      && (op.Nop? || n < |op.OutputVariables()| ==> HomeContext(v.kind).None?)
      && (!op.Nop? && n >= |op.OutputVariables()| ==>
            op.IsBlockBegin() && n == 0 && HomeContext(v.kind) == op.EnteredContext())
  {
  }

  lemma GrewHoused(s: State, i: Instruction, t: State, v: nat, k: nat)
    requires Wellformed(s) && Grew(s, i, t) && v < |t.variables| && k < |t.scopes|
    ensures Housed(t, v, k)
  {
    hide Operation.OutputVariables, Operation.InnerOutputVariables, Operation.InputVariables;
    if v >= |s.variables| {
      NewVariableHome(s, i.operation, v - |s.variables|);
    } else if k < |s.scopes| {
      assert Housed(s, v, k);
    }
  }

  lemma GrewIds(s: State, i: Instruction, t: State)
    requires Wellformed(s) && Grew(s, i, t)
    ensures |t.scopes| > 0 && t.scopes[0] == s.scopes[0]
    ensures forall j, k | 0 <= j < k < |t.scopes| :: t.scopes[j].id < t.scopes[k].id
    ensures forall k | 0 <= k < |t.scopes| :: t.scopes[k].id <= t.counter && t.scopes[k].id in t.active
  {
    hide Housed, ScopeOpenedBy, NewVariable;
  }

  lemma GrewVariableScopes(s: State, i: Instruction, t: State)
    requires Wellformed(s) && Grew(s, i, t)
    ensures forall v | 0 <= v < |t.variables| :: t.variables[v].scopeId <= t.counter
  {
    hide Housed, ScopeOpenedBy, Operation.OutputVariables, Operation.InnerOutputVariables;
    forall v: nat | v < |t.variables| ensures t.variables[v].scopeId <= t.counter {
      if v >= |s.variables| {
        NewVariableHome(s, i.operation, v - |s.variables|);
      }
    }
  }

  lemma GrewWellformed(s: State, i: Instruction, t: State)
    requires Wellformed(s) && Grew(s, i, t)
    ensures Wellformed(t)
  {
    hide Housed, ScopeOpenedBy, Operation.OutputVariables, Operation.InnerOutputVariables, NewScopes, NewVariable;
    GrewScopesWellformed(s, i, t);
    GrewIds(s, i, t);
    GrewVariableScopes(s, i, t);
    forall v: nat, k: nat | v < |t.variables| && k < |t.scopes| ensures Housed(t, v, k) {
      GrewHoused(s, i, t, v, k);
    }
  }

  /** The context a block end closes. */
  function ClosedContext(op: Operation): Option<InstructionContext> {
    match op
    case EndBuildSetupConnection(_) => Some(BuildSetupConnection)
    case EndOnSetupSuccess => Some(OnSetupSuccess)
    case _ => None
  }

  /** The instructions the builder takes: admissible, and if a block end then of the innermost block. */
  predicate Accepts(s: State, i: Instruction) {
    && Admissible(s, i)
    && |s.scopes| > 0
    && (i.operation.IsBlockEnd() ==> Some(s.scopes[|s.scopes| - 1].context) == ClosedContext(i.operation))
  }

  /** The state a block end is written in, once its scope is left. */
  function Left(s: State, op: Operation): State {
    if op.IsBlockEnd() && |s.scopes| > 0 then ExitScope(s) else s
  }

  lemma StepAccepts(s: State, i: Instruction)
    requires Wellformed(s)
    ensures Step(s, i).Appended? <==> Accepts(s, i)
    ensures Accepts(s, i) ==> Grew(Left(s, i.operation), i, Step(s, i).state)
  {
    hide Extend, Grew, Admissible, Refusal, Operation.InputVariables, Operation.OutputVariables,
      Operation.InnerOutputVariables;
    RefusalIffInadmissible(s, i);
    if |s.scopes| > 1 {
      assert ScopeOpenedBy(s, |s.scopes| - 1);
    }
    ExtendGrows(s, i);
    if i.operation.IsBlockEnd() && |s.scopes| > 1 {
      ExtendGrows(ExitScope(s), i);
    }
  }

  /** Taking an instruction keeps a builder well formed. */
  lemma StepWellformed(s: State, i: Instruction, t: State)
    requires Wellformed(s) && Accepts(s, i)
    requires Grew(Left(s, i.operation), i, t)
    ensures Wellformed(t)
  {
    if i.operation.IsBlockEnd() {
      ExitWellformed(s);
    }
    GrewWellformed(Left(s, i.operation), i, t);
  }

  /** Everything a caller needs to know of an append: what decides it, and the shape of what it leaves. */
  lemma StepTaken(s: State, i: Instruction)
    requires Wellformed(s)
    ensures Step(s, i).Appended? <==> Accepts(s, i)
    ensures Accepts(s, i) ==>
      var t := Step(s, i).state;
      && Wellformed(t) && Grew(Left(s, i.operation), i, t)
      && t.context == s.context && t.instructions == s.instructions + [i]
  {
    hide Step, Wellformed, Admissible;
    StepAccepts(s, i);
    if Accepts(s, i) {
      StepWellformed(s, i, Step(s, i).state);
    }
  }

  /** Even a refused instruction leaves a well formed builder, though perhaps one scope the fewer. */
  lemma RejectedWellformed(s: State, i: Instruction)
    requires Wellformed(s) && Step(s, i).Rejected?
    ensures Wellformed(Step(s, i).left)
  {
    if |s.scopes| > 1 {
      ExitWellformed(s);
    }
  }

  lemma {:induction false} StepsWellformed(s: State, code: seq<Instruction>)
    requires Wellformed(s) && Steps(s, code).Appended?
    ensures var t := Steps(s, code).state;
      Wellformed(t) && t.context == s.context && t.instructions == s.instructions + code
    decreases |code|
  {
    hide Step, Wellformed, Grew, Left;
    if code == [] {
      assert s.instructions + code == s.instructions;
    } else {
      StepTaken(s, code[0]);
      var t := Step(s, code[0]).state;
      StepsWellformed(t, code[1..]);
      assert s.instructions + [code[0]] + code[1..] == s.instructions + code;
    }
  }

  lemma NothingBuiltAtGlobal(s: State, v: nat)
    requires Wellformed(s) && |s.scopes| == 1 && s.Visible(v)
    ensures KindOf(s, v) != MutSetupVar
  {
    var k: nat :| k < |s.scopes| && s.scopes[k].id == s.variables[v].scopeId;
    assert Housed(s, v, k);
  }

  /**
   * The one way an append panics: ending a success block where none is open. The end of a build block
   * cannot, since it consumes the message under construction, which nothing at global scope can see.
   */
  lemma AppendPanicsExactly(s: State, i: Instruction)
    requires Wellformed(s)
    ensures Step(s, i).Panicked? <==> |s.scopes| == 1 && i == Instruction(EndOnSetupSuccess, [])
  {
    RefusalIffInadmissible(s, i);
    if |s.scopes| == 1 && |i.inputs| > 0 && s.Visible(i.inputs[0]) {
      NothingBuiltAtGlobal(s, i.inputs[0]);
    }
    if |s.scopes| > 1 {
      assert ScopeOpenedBy(s, |s.scopes| - 1);
    }
  }

  // ---------------------------------------------------------------------------------------------
  // Lexical scoping, from the instructions alone
  // ---------------------------------------------------------------------------------------------

  function OpenAfter(open: seq<nat>, op: Operation, at: nat): seq<nat> {
    if op.IsBlockBegin() then open + [at] else LeftOpen(open, op)
  }

  /** The blocks an operation is written in, once any block it ends is left. */
  function LeftOpen(open: seq<nat>, op: Operation): seq<nat> {
    if op.IsBlockEnd() && open != [] then open[..|open| - 1] else open
  }

  /** The blocks open after some code, by the instructions that began them. */
  function OpenBlocks(code: seq<Instruction>): (open: seq<nat>)
    ensures forall k | 0 <= k < |open| :: open[k] < |code|
  {
    if code == [] then []
    else
      var last := |code| - 1;
      OpenAfter(OpenBlocks(code[..last]), code[last].operation, last)
  }

  /** Where a variable can be read: nowhere, anywhere after it, or while one block is open. */
  datatype Home = Nowhere | Anywhere | Within(begin: nat)

  function Innermost(open: seq<nat>): Home {
    if open == [] then Anywhere else Within(open[|open| - 1])
  }

  /** The homes of the variables an operation defines, written in the blocks `open`. */
  function NewHomes(open: seq<nat>, op: Operation, at: nat): seq<Home> {
    seq(op.Defines(), n =>
      if op.Nop? then Nowhere
      else if n < |op.OutputVariables()| then Innermost(open)
      else Within(at))
  }

  /** The home of every variable some code defines, in the order they are numbered. */
  function Homes(code: seq<Instruction>): seq<Home> {
    if code == [] then []
    else
      var last := |code| - 1;
      var op := code[last].operation;
      Homes(code[..last]) + NewHomes(LeftOpen(OpenBlocks(code[..last]), op), op, last)
  }

  predicate OpenAt(home: Home, open: seq<nat>) {
    home.Anywhere? || (home.Within? && home.begin in open)
  }

  lemma HomesOneMore(code: seq<Instruction>, i: Instruction)
    ensures OpenBlocks(code + [i]) == OpenAfter(OpenBlocks(code), i.operation, |code|)
    ensures Homes(code + [i]) == Homes(code) + NewHomes(LeftOpen(OpenBlocks(code), i.operation), i.operation, |code|)
  {
    hide Operation.Defines, NewHomes, OpenAfter, LeftOpen;
    assert (code + [i])[..|code|] == code;
  }

  function ScopeHome(s: State, k: nat): Home
    requires k < |s.scopes|
  {
    if s.scopes[k].begin.None? then Anywhere else Within(s.scopes[k].begin.value)
  }

  ghost predicate SameHome(s: State, homes: seq<Home>, v: nat, k: nat)
    requires v < |s.variables| && v < |homes| && k < |s.scopes|
  {
    s.variables[v].scopeId == s.scopes[k].id <==> homes[v] == ScopeHome(s, k)
  }

  /** The scope stack is the stack of open blocks. */
  ghost predicate StackIs(s: State, open: seq<nat>) {
    && |s.scopes| == |open| + 1
    && (forall k: nat | k < |open| :: s.scopes[k + 1].begin == Some(open[k]))
    && (forall k: nat | k < |open| :: open[k] < |s.instructions|)
    && (forall j, k | 0 <= j < k < |open| :: open[j] < open[k])
  }

  /** A variable's scope id is an open scope's just when its home is that scope's block. */
  ghost predicate HomesAre(s: State, homes: seq<Home>) {
    && |homes| == |s.variables|
    && (forall v | 0 <= v < |homes| :: homes[v].Within? ==> homes[v].begin < |s.instructions|)
    && (forall v: nat, k: nat | v < |homes| && k < |s.scopes| :: SameHome(s, homes, v, k))
  }

  /** Scope ids mean blocks. */
  ghost predicate Lexical(s: State) {
    StackIs(s, OpenBlocks(s.instructions)) && HomesAre(s, Homes(s.instructions))
  }

  lemma LeftLexical(s: State, op: Operation, open: seq<nat>, homes: seq<Home>)
    requires Wellformed(s) && StackIs(s, open) && HomesAre(s, homes)
    requires op.IsBlockEnd() ==> |s.scopes| > 1
    ensures StackIs(Left(s, op), LeftOpen(open, op)) && HomesAre(Left(s, op), homes)
  {
    var mid := Left(s, op);
    forall v: nat, k: nat | v < |homes| && k < |mid.scopes| ensures SameHome(mid, homes, v, k) {
      assert SameHome(s, homes, v, k);
    }
  }

  lemma GrewStack(mid: State, i: Instruction, t: State, open: seq<nat>)
    requires StackIs(mid, open) && Grew(mid, i, t) && Wellformed(mid)
    ensures StackIs(t, if i.operation.IsBlockBegin() then open + [|mid.instructions|] else open)
  {
    hide Operation.OutputVariables, Operation.InnerOutputVariables, Operation.Defines, NewVariable, Wellformed;
  }

  /** A new variable's scope is an open one just when its home is that scope's. */
  lemma NewVariableSameHome(mid: State, i: Instruction, t: State, open: seq<nat>, n: nat, k: nat)
    requires Wellformed(mid) && StackIs(mid, open) && Grew(mid, i, t)
    requires n < i.operation.Defines() && k < |t.scopes|
    ensures var home := NewHomes(open, i.operation, |mid.instructions|)[n];
      NewVariable(mid, i.operation, n).scopeId == t.scopes[k].id <==> home == ScopeHome(t, k)
  {
    hide Operation.InputVariables, Housed;
    var op := i.operation;
    var last := |mid.scopes| - 1;
    assert ScopeHome(mid, last) == Innermost(open);
    if k < last {
      assert ScopeHome(t, k) != Innermost(open) by {
        assert k > 0 ==> mid.scopes[k].begin == Some(open[k - 1]) && open[k - 1] < open[last - 1];
      }
    }
    if 0 < k <= last {
      assert t.scopes[k].begin == Some(open[k - 1]);
    }
  }

  lemma NewHomesBounded(open: seq<nat>, op: Operation, at: nat)
    requires forall k | 0 <= k < |open| :: open[k] < at
    ensures |NewHomes(open, op, at)| == op.Defines()
    ensures forall n | 0 <= n < op.Defines() :: NewHomes(open, op, at)[n].Within? ==>
        NewHomes(open, op, at)[n].begin <= at
  {
    assert Innermost(open).Within? ==> Innermost(open).begin <= at;
    forall n | 0 <= n < op.Defines() ensures NewHomes(open, op, at)[n] in {Nowhere, Innermost(open), Within(at)} {
    }
  }

  lemma GrewHomes(mid: State, i: Instruction, t: State, open: seq<nat>, homes: seq<Home>)
    requires Wellformed(mid) && StackIs(mid, open) && HomesAre(mid, homes) && Grew(mid, i, t)
    ensures HomesAre(t, homes + NewHomes(open, i.operation, |mid.instructions|))
  {
    hide Operation.OutputVariables, Operation.InnerOutputVariables, NewVariable, Housed, ScopeOpenedBy;
    var added := NewHomes(open, i.operation, |mid.instructions|);
    NewHomesBounded(open, i.operation, |mid.instructions|);
    forall v: nat, k: nat | v < |homes + added| && k < |t.scopes| ensures SameHome(t, homes + added, v, k) {
      if v >= |homes| {
        assert t.variables[v] == NewVariable(mid, i.operation, v - |homes|);
        NewVariableSameHome(mid, i, t, open, v - |homes|, k);
      } else if k < |mid.scopes| {
        assert SameHome(mid, homes, v, k);
      }
    }
  }

  lemma StepLexical(s: State, i: Instruction, t: State)
    requires Wellformed(s) && Lexical(s) && Accepts(s, i)
    requires Grew(Left(s, i.operation), i, t)
    ensures Lexical(t)
  {
    hide Grew, StackIs, HomesAre, Admissible, NewHomes, Wellformed;
    var open, homes := OpenBlocks(s.instructions), Homes(s.instructions);
    var mid := Left(s, i.operation);
    assert i.operation.IsBlockEnd() ==> |s.scopes| > 1 && Wellformed(mid) by {
      if i.operation.IsBlockEnd() { AcceptedEnd(s, i); ExitWellformed(s); }
    }
    LeftLexical(s, i.operation, open, homes);
    GrewStack(mid, i, t, LeftOpen(open, i.operation));
    GrewHomes(mid, i, t, LeftOpen(open, i.operation), homes);
    assert t.instructions == s.instructions + [i] by { GrewCode(mid, i, t); }
    HomesOneMore(s.instructions, i);
  }

  lemma GrewCode(s: State, i: Instruction, t: State)
    requires Grew(s, i, t)
    ensures t.instructions == s.instructions + [i]
  {
  }

  /** An accepted block end is never at global scope. */
  lemma AcceptedEnd(s: State, i: Instruction)
    requires Wellformed(s) && Accepts(s, i) && i.operation.IsBlockEnd()
    ensures |s.scopes| > 1
  {
  }

  lemma {:induction false} StepsLexical(s: State, code: seq<Instruction>)
    requires Wellformed(s) && Lexical(s) && Steps(s, code).Appended?
    ensures Lexical(Steps(s, code).state)
    decreases |code|
  {
    hide Step, Wellformed, Grew, Left, Lexical;
    if code != [] {
      StepTaken(s, code[0]);
      StepLexical(s, code[0], Step(s, code[0]).state);
      StepsLexical(Step(s, code[0]).state, code[1..]);
    }
  }

  /** Whatever the builder accepted, its state is well formed and its ids mean lexical blocks. */
  lemma Reached(context: ProgramContext, code: seq<Instruction>)
    requires FromPrefix(context, code).Appended?
    ensures var s := FromPrefix(context, code).state;
      && Wellformed(s) && Lexical(s)
      && s.context == context && s.instructions == code
  {
    NewWellformed(context);
    assert Lexical(New(context));
    StepsWellformed(New(context), code);
    StepsLexical(New(context), code);
    assert [] + code == code;
  }

  /** A variable is in scope exactly when the block it was defined in is still open; a nop's never is. */
  lemma VisibleIffBlockOpen(context: ProgramContext, code: seq<Instruction>, v: nat)
    requires FromPrefix(context, code).Appended?
    ensures FromPrefix(context, code).state.Visible(v) <==>
        v < |Homes(code)| && OpenAt(Homes(code)[v], OpenBlocks(code))
  {
    hide Steps, OpenBlocks, Homes;
    Reached(context, code);
    var s := FromPrefix(context, code).state;
    var homes, open := Homes(code), OpenBlocks(code);
    if s.Visible(v) {
      var k: nat :| k < |s.scopes| && s.scopes[k].id == s.variables[v].scopeId;
      assert SameHome(s, homes, v, k) && (k > 0 ==> s.scopes[k].begin == Some(open[k - 1]));
    }
    if v < |homes| && OpenAt(homes[v], open) {
      var k: nat := 0;
      if homes[v].Within? {
        var j :| 0 <= j < |open| && open[j] == homes[v].begin;
        k := j + 1;
      }
      assert SameHome(s, homes, v, k);
    }
  }
}
