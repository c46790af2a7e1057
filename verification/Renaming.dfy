/**
 * One simulation behind every program transformation: a builder that has seen other code accepts the
 * same instructions once their inputs are renamed to where those variables now are.
 */
module Renaming {
  import opened Ir
  import opened Builder
  import opened Scoping

  function Renamed(x: nat, m: seq<nat>): nat {
    if x < |m| then m[x] else x
  }

  function RenameOne(i: Instruction, m: seq<nat>): Instruction {
    Instruction(i.operation, seq(|i.inputs|, k requires 0 <= k < |i.inputs| => Renamed(i.inputs[k], m)))
  }

  /** `m` with the next `n` variables numbered from `next`. */
  function Extended(m: seq<nat>, next: nat, n: nat): (r: seq<nat>)
    ensures |r| == |m| + n
  {
    m + seq(n, k requires 0 <= k => next + k)
  }

  /** Code renamed by `m`, the variables it defines itself numbered from `next`. */
  function RenameAll(code: seq<Instruction>, m: seq<nat>, next: nat): seq<Instruction>
    decreases |code|
  {
    if code == [] then []
    else
      var n := code[0].operation.Defines();
      [RenameOne(code[0], m)] + RenameAll(code[1..], Extended(m, next, n), next + n)
  }

  ghost predicate Corresponds(s: State, t: State, m: seq<nat>, dead: set<nat>, v: nat, k: nat)
    requires v < |m| && v < |s.variables| && k < |s.scopes| && k < |t.scopes|
  {
    v !in dead && s.variables[v].scopeId == s.scopes[k].id
    ==> m[v] < |t.variables| && t.variables[m[v]] == ScopedVariable(s.variables[v].kind, t.scopes[k].id)
  }

  /** The two builders have the same blocks open, and what `s` can see, dead variables aside, `t` can under `m`. */
  ghost predicate Related(s: State, t: State, m: seq<nat>, dead: set<nat>) {
    && Wellformed(s) && Wellformed(t)
    && s.context.numRoles <= t.context.numRoles
    && s.context.numConnections <= t.context.numConnections
    && |m| == |s.variables|
    && |s.scopes| == |t.scopes|
    && (forall k | 0 <= k < |s.scopes| :: s.scopes[k].context == t.scopes[k].context)
    && (forall v: nat, k: nat | v < |m| && k < |s.scopes| :: Corresponds(s, t, m, dead, v, k))
  }

  lemma RelatedDepth(s: State, t: State, m: seq<nat>, dead: set<nat>)
    requires Related(s, t, m, dead)
    ensures |s.scopes| == |t.scopes|
  {
  }

  predicate Avoids(i: Instruction, dead: set<nat>) {
    forall k | 0 <= k < |i.inputs| :: i.inputs[k] !in dead
  }

  predicate AllAvoid(code: seq<Instruction>, dead: set<nat>) {
    forall j | 0 <= j < |code| :: Avoids(code[j], dead)
  }

  lemma VisibleRelated(s: State, t: State, m: seq<nat>, dead: set<nat>, v: nat)
    requires Related(s, t, m, dead) && s.Visible(v) && v !in dead
    ensures t.Visible(Renamed(v, m)) && KindOf(t, Renamed(v, m)) == KindOf(s, v)
  {
    var k: nat :| k < |s.scopes| && s.scopes[k].id == s.variables[v].scopeId;
    assert Corresponds(s, t, m, dead, v, k);
    assert t.scopes[k].id in t.active;
  }

  lemma AcceptsRelated(s: State, t: State, m: seq<nat>, dead: set<nat>, i: Instruction)
    requires Related(s, t, m, dead) && Accepts(s, i) && Avoids(i, dead)
    ensures Accepts(t, RenameOne(i, m))
  {
    hide Wellformed, Corresponds, KindOf, Operation.OutputVariables, Operation.InnerOutputVariables,
      Operation.InputVariables;
    var j := RenameOne(i, m);
    forall k | 0 <= k < |j.inputs|
      ensures t.Visible(j.inputs[k]) && KindOf(t, j.inputs[k]) == j.operation.InputVariables()[k]
    {
      VisibleRelated(s, t, m, dead, i.inputs[k]);
    }
  }

  lemma LeftRelated(s: State, t: State, m: seq<nat>, dead: set<nat>, op: Operation)
    requires Related(s, t, m, dead)
    requires op.IsBlockEnd() ==> |s.scopes| > 1
    ensures Related(Left(s, op), Left(t, op), m, dead)
  {
    hide Wellformed;
    if op.IsBlockEnd() {
      ExitWellformed(s);
      ExitWellformed(t);
      forall v: nat, k: nat | v < |m| && k < |s.scopes| - 1
        ensures Corresponds(ExitScope(s), ExitScope(t), m, dead, v, k)
      {
        assert Corresponds(s, t, m, dead, v, k);
      }
    }
  }

  lemma OldCorresponds(s: State, t: State, m: seq<nat>, dead: set<nat>, i: Instruction, j: Instruction, s': State,
    t': State, v: nat)
    requires Related(s, t, m, dead) && Grew(s, i, s') && Grew(t, j, t') && |s'.scopes| == |t'.scopes|
    requires v < |s.variables|
    ensures forall k: nat | k < |s'.scopes| :: Corresponds(s', t', m, dead, v, k)
  {
    hide Operation.OutputVariables, Operation.InnerOutputVariables, NewVariable, ScopeOpenedBy, Housed;
    forall k: nat | k < |s'.scopes| ensures Corresponds(s', t', m, dead, v, k) {
      if k < |s.scopes| {
        assert Corresponds(s, t, m, dead, v, k);
      }
    }
  }

  /** The variables two builders define for the same operation land in corresponding scopes. */
  lemma NewCorresponds(s: State, t: State, i: Instruction, j: Instruction, s': State, t': State, n: nat, k: nat)
    requires Wellformed(s) && Wellformed(t) && |s.scopes| == |t.scopes| && i.operation == j.operation
    requires Grew(s, i, s') && Grew(t, j, t') && n < i.operation.Defines() && k < |s'.scopes|
    requires s'.variables[|s.variables| + n].scopeId == s'.scopes[k].id
    ensures t'.variables[|t.variables| + n] == ScopedVariable(s'.variables[|s.variables| + n].kind, t'.scopes[k].id)
  {
    hide ScopeOpenedBy, Housed;
    var v, w := NewVariable(s, i.operation, n), NewVariable(t, j.operation, n);
    assert s'.variables[|s.variables| + n] == v && t'.variables[|t.variables| + n] == w;
    assert v.kind == w.kind;
  }

  lemma GrewRelated(s: State, t: State, m: seq<nat>, dead: set<nat>, i: Instruction, j: Instruction, s': State,
    t': State)
    requires Related(s, t, m, dead) && i.operation == j.operation
    requires Grew(s, i, s') && Grew(t, j, t') && Wellformed(s') && Wellformed(t')
    requires forall v | v in dead :: v < |s.variables|
    ensures Related(s', t', Extended(m, |t.variables|, i.operation.Defines()), dead)
  {
    hide Operation.OutputVariables, Operation.InnerOutputVariables, Operation.Defines, NewVariable, Wellformed;
    var m' := Extended(m, |t.variables|, i.operation.Defines());
    forall v: nat, k: nat | v < |m'| && k < |s'.scopes| ensures Corresponds(s', t', m', dead, v, k) {
      if v < |s.variables| {
        OldCorresponds(s, t, m, dead, i, j, s', t', v);
        assert Corresponds(s', t', m, dead, v, k);
      } else if s'.variables[v].scopeId == s'.scopes[k].id {
        NewCorresponds(s, t, i, j, s', t', v - |s.variables|, k);
      }
    }
  }

  /** One accepted instruction is accepted renamed, and leaves the builders related. */
  lemma StepRelated(s: State, t: State, m: seq<nat>, dead: set<nat>, i: Instruction)
    requires Related(s, t, m, dead) && Step(s, i).Appended? && Avoids(i, dead)
    requires forall v | v in dead :: v < |s.variables|
    ensures Step(t, RenameOne(i, m)).Appended?
    ensures var n := i.operation.Defines();
      && Related(Step(s, i).state, Step(t, RenameOne(i, m)).state, Extended(m, |t.variables|, n), dead)
      && |Step(s, i).state.variables| == |s.variables| + n
      && |Step(t, RenameOne(i, m)).state.variables| == |t.variables| + n
  {
    hide Step, Wellformed, Admissible, Corresponds, Extended, Operation.Defines, Left;
    var j := RenameOne(i, m);
    StepTaken(s, i);
    AcceptsRelated(s, t, m, dead, i);
    StepTaken(t, j);
    if i.operation.IsBlockEnd() {
      AcceptedEnd(s, i);
    }
    LeftRelated(s, t, m, dead, i.operation);
    LeftVariables(s, i.operation);
    LeftVariables(t, i.operation);
    GrewRelated(Left(s, i.operation), Left(t, i.operation), m, dead, i, j, Step(s, i).state, Step(t, j).state);
  }

  lemma LeftVariables(s: State, op: Operation)
    ensures Left(s, op).variables == s.variables
  {
  }

  lemma ExtendedTwice(m: seq<nat>, next: nat, a: nat, b: nat)
    ensures Extended(Extended(m, next, a), next + a, b) == Extended(m, next, a + b)
  {
  }

  /** A run of accepted instructions is accepted renamed. */
  lemma {:induction false} StepsRelated(s: State, t: State, m: seq<nat>, dead: set<nat>, code: seq<Instruction>)
    requires Related(s, t, m, dead) && Steps(s, code).Appended? && AllAvoid(code, dead)
    requires forall v | v in dead :: v < |s.variables|
    ensures Steps(t, RenameAll(code, m, |t.variables|)).Appended?
    ensures var n := VariableCount(code);
      && Related(Steps(s, code).state, Steps(t, RenameAll(code, m, |t.variables|)).state,
        Extended(m, |t.variables|, n), dead)
      && |Steps(t, RenameAll(code, m, |t.variables|)).state.variables| == |t.variables| + n
    decreases |code|
  {
    hide Step, Related, Operation.Defines, RenameOne, Extended;
    if code == [] {
      assert Extended(m, |t.variables|, 0) == m by { ExtendedNone(m, |t.variables|); }
    } else {
      StepRelated(s, t, m, dead, code[0]);
      var n := code[0].operation.Defines();
      var s', t' := Step(s, code[0]).state, Step(t, RenameOne(code[0], m)).state;
      StepsRelated(s', t', Extended(m, |t.variables|, n), dead, code[1..]);
      ExtendedTwice(m, |t.variables|, n, VariableCount(code[1..]));
      var rest := RenameAll(code[1..], Extended(m, |t.variables|, n), |t.variables| + n);
      assert RenameAll(code, m, |t.variables|)[1..] == rest;
    }
  }

  lemma ExtendedNone(m: seq<nat>, next: nat)
    ensures Extended(m, next, 0) == m
  {
  }

  /** A builder finalizes exactly when only the global scope is open. */
  lemma FinalizesAtGlobal(s: State)
    requires Wellformed(s)
    ensures Finalize(s).Success? <==> |s.scopes| == 1
  {
    if |s.scopes| > 1 {
      assert ScopeOpenedBy(s, |s.scopes| - 1);
    }
  }

  /** Validity, as the builder's state says it. */
  lemma ValidIffGlobal(p: Program)
    ensures StaticallyValid(p) <==>
      var built := FromPrefix(p.context, p.instructions);
      built.Appended? && |built.state.scopes| == 1
  {
    hide Finalize, Steps, Wellformed, Lexical;
    if FromPrefix(p.context, p.instructions).Appended? {
      Reached(p.context, p.instructions);
      FinalizesAtGlobal(FromPrefix(p.context, p.instructions).state);
    }
  }

  // ---------------------------------------------------------------------------------------------
  // Variables stay where they are, and inputs are always in range
  // ---------------------------------------------------------------------------------------------

  /** Earlier variables keep their number, kind and scope; code adds as many as its operations define. */
  lemma {:induction false} StepsVariables(s: State, code: seq<Instruction>)
    requires Wellformed(s) && Steps(s, code).Appended?
    ensures var t := Steps(s, code).state;
      && Wellformed(t) && t.context == s.context
      && |t.variables| == |s.variables| + VariableCount(code)
      && t.variables[..|s.variables|] == s.variables
    decreases |code|
  {
    hide Step, Wellformed, Left;
    if code == [] {
      assert s.variables[..|s.variables|] == s.variables;
    } else {
      StepTaken(s, code[0]);
      LeftVariables(s, code[0].operation);
      var t := Step(s, code[0]).state;
      StepsVariables(t, code[1..]);
      var u := Steps(s, code).state;
      assert u.variables[..|s.variables|] == u.variables[..|t.variables|][..|s.variables|];
      assert t.variables[..|s.variables|] == s.variables;
    }
  }

  /** Every input is of a variable already defined. */
  predicate InputsBelow(i: Instruction, n: nat) {
    forall k | 0 <= k < |i.inputs| :: i.inputs[k] < n
  }

  /** Every input of some code is of a variable defined before it, `n` of them before the code. */
  predicate Defined(code: seq<Instruction>, n: nat)
    decreases |code|
  {
    code == [] || (InputsBelow(code[0], n) && Defined(code[1..], n + code[0].operation.Defines()))
  }

  lemma {:induction false} StepsDefined(s: State, code: seq<Instruction>)
    requires Wellformed(s) && Steps(s, code).Appended?
    ensures Defined(code, |s.variables|)
    decreases |code|
  {
    hide Step, Wellformed, Left, Operation.Defines;
    if code != [] {
      StepTaken(s, code[0]);
      LeftVariables(s, code[0].operation);
      StepsDefined(Step(s, code[0]).state, code[1..]);
    }
  }

  function Identity(n: nat): seq<nat> {
    seq(n, k => k)
  }

  /** Renaming to the same numbers changes nothing. */
  lemma {:induction false} RenameAllIdentity(code: seq<Instruction>, n: nat)
    ensures RenameAll(code, Identity(n), n) == code
    decreases |code|
  {
    if code != [] {
      assert RenameOne(code[0], Identity(n)) == code[0];
      var d := code[0].operation.Defines();
      assert Extended(Identity(n), n, d) == Identity(n + d);
      RenameAllIdentity(code[1..], n + d);
    }
  }
}
