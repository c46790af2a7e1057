/** Inserting a generated fragment at a point of a program that is outside any block. */
module Insertion {
  import opened Wrappers
  import opened Ir
  import opened Builder
  import opened Scoping
  import opened Renaming
  import opened Lifecycle

  const MAX_INSTRUCTIONS: nat := 4096

  predicate Acceptable(p: Program) {
    |p.instructions| <= MAX_INSTRUCTIONS && StaticallyValid(p)
  }

  function MoveInput(x: nat, before: nat, added: nat): nat {
    if x >= before then x + added else x
  }

  function MoveOne(i: Instruction, before: nat, added: nat): Instruction {
    Instruction(i.operation, seq(|i.inputs|, k requires 0 <= k < |i.inputs| => MoveInput(i.inputs[k], before, added)))
  }

  /** What reads a variable defined after the fragment reads it under its new number. */
  function Move(code: seq<Instruction>, before: nat, added: nat): seq<Instruction> {
    seq(|code|, k requires 0 <= k < |code| => MoveOne(code[k], before, added))
  }

  function Inserted(p: Program, at: nat, fragment: seq<Instruction>): Program
    requires at <= |p.instructions|
  {
    var before := VariableCount(p.instructions[..at]);
    Program(p.context,
      p.instructions[..at] + fragment + Move(p.instructions[at..], before, VariableCount(fragment)))
  }

  /** The block depth the scan keeps, which a stray block end does not take below zero. */
  function Depth(code: seq<Instruction>): nat {
    if code == [] then 0
    else
      var last := |code| - 1;
      var before := Depth(code[..last]);
      if code[last].operation.IsBlockBegin() then before + 1
      else if code[last].operation.IsBlockEnd() && before > 0 then before - 1
      else before
  }

  lemma {:induction false} DepthIsOpenBlocks(code: seq<Instruction>)
    ensures Depth(code) == |OpenBlocks(code)|
  {
    if code != [] {
      DepthIsOpenBlocks(code[..|code| - 1]);
    }
  }

  /** The scan's depth is how many blocks the builder has open: zero just when it is at global scope. */
  lemma DepthIsBuilderDepth(context: ProgramContext, code: seq<Instruction>)
    requires FromPrefix(context, code).Appended?
    ensures Depth(code) + 1 == |FromPrefix(context, code).state.scopes|
  {
    hide Steps, Wellformed;
    Reached(context, code);
    DepthIsOpenBlocks(code);
  }

  lemma MoveOneIsRename(i: Instruction, before: nat, added: nat, n: nat)
    requires InputsBelow(i, before + n)
    ensures RenameOne(i, Extended(Identity(before), before + added, n)) == MoveOne(i, before, added)
  {
  }

  lemma {:induction false} MoveIsRename(code: seq<Instruction>, before: nat, added: nat, n: nat)
    requires Defined(code, before + n)
    ensures RenameAll(code, Extended(Identity(before), before + added, n), before + added + n)
      == Move(code, before, added)
    decreases |code|
  {
    hide InputsBelow, MoveOne, RenameOne, Extended, Operation.Defines, Identity;
    if code != [] {
      var d := code[0].operation.Defines();
      MoveOneIsRename(code[0], before, added, n);
      ExtendedTwice(Identity(before), before + added, n, d);
      MoveIsRename(code[1..], before, added, n + d);
      assert Move(code, before, added) == [MoveOne(code[0], before, added)] + Move(code[1..], before, added);
    }
  }

  /** A builder that has appended a fragment and is back at global scope sees all it saw before. */
  lemma FragmentRelated(s: State, t: State)
    requires Wellformed(s) && Wellformed(t) && |s.scopes| == 1 && |t.scopes| == 1 && s.context == t.context
    requires |s.variables| <= |t.variables| && t.variables[..|s.variables|] == s.variables
    ensures Related(s, t, Identity(|s.variables|), {})
  {
    var m := Identity(|s.variables|);
    forall v: nat, k: nat | v < |m| && k < |s.scopes| ensures Corresponds(s, t, m, {}, v, k) {
      assert t.variables[..|s.variables|][v] == s.variables[v];
    }
  }

  /** A fragment the builder accepts at `at` and closes again. */
  predicate Fits(p: Program, at: nat, fragment: seq<Instruction>)
    requires at <= |p.instructions|
  {
    var built := FromPrefix(p.context, p.instructions[..at] + fragment);
    built.Appended? && |built.state.scopes| == 1
  }

  /** The code after an insertion point is accepted again, moved, in a builder that took the fragment first. */
  lemma MovedRestAccepted(s: State, t: State, rest: seq<Instruction>)
    requires Wellformed(s) && Wellformed(t) && |s.scopes| == 1 && |t.scopes| == 1 && s.context == t.context
    requires |s.variables| <= |t.variables| && t.variables[..|s.variables|] == s.variables
    requires Steps(s, rest).Appended?
    ensures var moved := Steps(t, Move(rest, |s.variables|, |t.variables| - |s.variables|));
      moved.Appended? && |moved.state.scopes| == |Steps(s, rest).state.scopes|
  {
    hide Steps, Wellformed, Move;
    var before, added := |s.variables|, |t.variables| - |s.variables|;
    FragmentRelated(s, t);
    StepsRelated(s, t, Identity(before), {}, rest);
    StepsDefined(s, rest);
    ExtendedNone(Identity(before), before + added);
    MoveIsRename(rest, before, added, 0);
  }

  /**
   * Weakening: at a point outside any block, inserting any fragment the builder accepts there and leaves
   * balanced, and moving later inputs past it, keeps a valid program valid.
   */
  lemma InsertedValid(p: Program, at: nat, fragment: seq<Instruction>)
    requires StaticallyValid(p) && at <= |p.instructions|
    requires Depth(p.instructions[..at]) == 0 && Fits(p, at, fragment)
    ensures StaticallyValid(Inserted(p, at, fragment))
  {
    hide Finalize, Steps, Wellformed, Lexical, Move, Depth;
    var prefix, rest := p.instructions[..at], p.instructions[at..];
    assert p.instructions == prefix + rest;
    ValidIffGlobal(p);
    ValidIffGlobal(Inserted(p, at, fragment));
    StepsConcat(New(p.context), prefix, rest);
    StepsConcat(New(p.context), prefix, fragment);
    var s := FromPrefix(p.context, prefix).state;
    var t := Steps(s, fragment).state;
    DepthIsBuilderDepth(p.context, prefix);
    Reached(p.context, prefix);
    NewWellformed(p.context);
    StepsVariables(New(p.context), prefix);
    StepsVariables(s, fragment);
    MovedRestAccepted(s, t, rest);
    var moved := Move(rest, |s.variables|, VariableCount(fragment));
    StepsConcat(New(p.context), prefix + fragment, moved);
  }

  /** Only such fragments do: any other is refused, or leaves a block the rest of the program never ends. */
  lemma InsertedValidIff(p: Program, at: nat, fragment: seq<Instruction>)
    requires StaticallyValid(p) && at <= |p.instructions| && Depth(p.instructions[..at]) == 0
    ensures StaticallyValid(Inserted(p, at, fragment)) <==> Fits(p, at, fragment)
  {
    hide StaticallyValid, Steps, Depth, Wellformed, Balance, Lexical;
    var prefix, rest := p.instructions[..at], p.instructions[at..];
    if Fits(p, at, fragment) {
      InsertedValid(p, at, fragment);
    }
    if StaticallyValid(Inserted(p, at, fragment)) {
      var q := Inserted(p, at, fragment);
      assert q.instructions[..at + |fragment|] == prefix + fragment;
      PrefixAccepted(q, at + |fragment|);
      assert p.instructions == prefix + rest;
      ValidIsBalanced(p);
      ValidIsBalanced(q);
      MoveBalance(rest, VariableCount(prefix), VariableCount(fragment));
      BalanceConcat(prefix, rest);
      BalanceConcat(prefix + fragment, Move(rest, VariableCount(prefix), VariableCount(fragment)));
      NewWellformed(p.context);
      StepsBalance(New(p.context), prefix + fragment);
      BalanceConcat(prefix, fragment);
      PrefixAccepted(p, at);
      StepsBalance(New(p.context), prefix);
      DepthIsBuilderDepth(p.context, prefix);
    }
  }

  lemma {:induction false} MoveBalance(code: seq<Instruction>, before: nat, added: nat)
    ensures Balance(Move(code, before, added)) == Balance(code)
    decreases |code|
  {
    if code != [] {
      assert Move(code, before, added) == [MoveOne(code[0], before, added)] + Move(code[1..], before, added);
      MoveBalance(code[1..], before, added);
    }
  }

  /** Every point of some code that is outside any block, once each. */
  method OpenPoints(code: seq<Instruction>) returns (points: seq<nat>)
    ensures |points| > 0 && forall i, j | 0 <= i < j < |points| :: points[i] < points[j]
    ensures forall x: int :: x in points <==> 0 <= x <= |code| && Depth(code[..x]) == 0
  {
    var depth := 0;
    points := [0];
    for k := 0 to |code|
      invariant depth == Depth(code[..k])
      invariant |points| > 0 && forall i, j | 0 <= i < j < |points| :: points[i] < points[j]
      invariant forall i | 0 <= i < |points| :: points[i] <= k
      invariant forall x: int :: x in points <==> 0 <= x <= k && Depth(code[..x]) == 0
    {
      assert code[..k + 1][..k] == code[..k];
      if code[k].operation.IsBlockBegin() {
        depth := depth + 1;
      } else if code[k].operation.IsBlockEnd() {
        depth := if depth == 0 then 0 else depth - 1;
      }
      if depth == 0 {
        points := points + [k + 1];
      }
    }
    assert code[..|code|] == code;
  }

  /** The points outside every block, in order. */
  ghost predicate AreOpen(points: seq<nat>, code: seq<Instruction>) {
    && points != [] && (forall i, j | 0 <= i < j < |points| :: points[i] < points[j])
    && forall x: nat :: x in points <==> x <= |code| && Depth(code[..x]) == 0
  }

  /** Every point outside all blocks can be drawn. */
  lemma PointDrawn(points: seq<nat>, code: seq<Instruction>, at: nat) returns (draw: nat)
    requires AreOpen(points, code) && at <= |code| && Depth(code[..at]) == 0
    ensures points[draw % |points|] == at
  {
    hide Depth;
    assert at in points;
    draw :| draw < |points| && points[draw] == at;
    assert draw % |points| == draw;
  }

  /** What becomes of the program a fragment is inserted in; the builder can panic on one that is not valid. */
  datatype Mutation = Mutated(program: Program) | Skipped | Panicked

  /**
   * The insertion, or why there is none: the code before the point or the fragment refused, or the result not
   * acceptable.
   */
  function Generated(p: Program, at: nat, fragment: seq<Instruction>): Mutation
    requires at <= |p.instructions|
  {
    var before, through := FromPrefix(p.context, p.instructions[..at]),
      FromPrefix(p.context, p.instructions[..at] + fragment);
    if before.Panicked? || (before.Appended? && through.Panicked?) then Mutation.Panicked
    else if before.Rejected? || through.Rejected? || |Inserted(p, at, fragment).instructions| > MAX_INSTRUCTIONS
      then Skipped
    else
      match Validity(Inserted(p, at, fragment))
      case None => Mutation.Panicked
      case Some(valid) => if valid then Mutated(Inserted(p, at, fragment)) else Skipped
  }

  /** On a valid program a fragment that fits, and is short enough, is inserted, and what is inserted is acceptable. */
  lemma GeneratedMutates(p: Program, at: nat, fragment: seq<Instruction>)
    requires at <= |p.instructions|
    ensures var r := Generated(p, at, fragment);
      && (r.Mutated? ==> r.program == Inserted(p, at, fragment) && Acceptable(r.program))
      && (StaticallyValid(p) && Depth(p.instructions[..at]) == 0 && Fits(p, at, fragment) ==>
            if |p.instructions| + |fragment| <= 4096 then r.Mutated? else r.Skipped?)
  {
    hide Steps, Depth;
    if StaticallyValid(p) && Depth(p.instructions[..at]) == 0 && Fits(p, at, fragment) {
      PrefixAccepted(p, at);
      InsertedValid(p, at, fragment);
    }
  }

  /**
   * Insert what a generator appends at the point the draw picks. The generator is any list of instructions it
   * hands to the builder it is given.
   */
  method Generate(p: Program, draw: nat, fragment: seq<Instruction>) returns (r: Mutation, at: nat)
    ensures exists points: seq<nat> :: AreOpen(points, p.instructions) && at == points[draw % |points|]
    ensures at <= |p.instructions| && Depth(p.instructions[..at]) == 0
    ensures r == Generated(p, at, fragment)
  {
    hide StaticallyValid, Steps, Depth;
    var points := OpenPoints(p.instructions);
    var index := points[draw % |points|];
    assert index in points && AreOpen(points, p.instructions);
    at := index;
    var builder := new ProgramBuilder(p.context);
    var reply := builder.AppendEach(p.instructions[..index]);
    if !reply.Fresh? {
      return if reply.Panic? then Mutation.Panicked else Skipped, at;
    }
    var before := |builder.variables|;
    reply := builder.AppendEach(fragment);
    StepsConcat(New(p.context), p.instructions[..index], fragment);
    if !reply.Fresh? {
      return if reply.Panic? then Mutation.Panicked else Skipped, at;
    }
    FragmentShape(p.context, p.instructions[..index], fragment);
    var added := |builder.variables| - before;
    var rest := MoveInputs(p.instructions[index..], before, added);
    var candidate := Program(p.context, builder.instructions + rest);
    if |candidate.instructions| > MAX_INSTRUCTIONS {
      return Skipped, at;
    }
    var valid := IsStaticallyValid(candidate);
    r := match valid case None => Mutation.Panicked case Some(v) => if v then Mutated(candidate) else Skipped;
  }

  lemma FragmentShape(context: ProgramContext, prefix: seq<Instruction>, fragment: seq<Instruction>)
    requires FromPrefix(context, prefix).Appended? && FromPrefix(context, prefix + fragment).Appended?
    ensures var s, t := FromPrefix(context, prefix).state, FromPrefix(context, prefix + fragment).state;
      && |s.variables| == VariableCount(prefix)
      && |t.variables| == |s.variables| + VariableCount(fragment)
      && t.instructions == prefix + fragment
  {
    hide Steps, Wellformed, Lexical;
    NewWellformed(context);
    Reached(context, prefix + fragment);
    StepsVariables(New(context), prefix);
    StepsVariables(New(context), prefix + fragment);
    VariableCountConcat(prefix, fragment);
  }

  method MoveInputs(code: seq<Instruction>, before: nat, added: nat) returns (rest: seq<Instruction>)
    ensures rest == Move(code, before, added)
  {
    rest := code;
    for k := 0 to |code|
      invariant |rest| == |code|
      invariant forall j | 0 <= j < k :: rest[j] == MoveOne(code[j], before, added)
      invariant forall j | k <= j < |code| :: rest[j] == code[j]
    {
      var inputs := rest[k].inputs;
      for j := 0 to |inputs|
        invariant |inputs| == |code[k].inputs|
        invariant forall x | 0 <= x < j :: inputs[x] == MoveInput(code[k].inputs[x], before, added)
        invariant forall x | j <= x < |inputs| :: inputs[x] == code[k].inputs[x]
      {
        if inputs[j] >= before {
          inputs := inputs[j := inputs[j] + added];
        }
      }
      rest := rest[k := Instruction(rest[k].operation, inputs)];
      assert rest[k] == MoveOne(code[k], before, added);
    }
  }

  /** The builder takes every prefix of a valid program. */
  lemma PrefixAccepted(p: Program, at: nat)
    requires StaticallyValid(p) && at <= |p.instructions|
    ensures FromPrefix(p.context, p.instructions[..at]).Appended?
  {
    assert p.instructions == p.instructions[..at] + p.instructions[at..];
    StepsConcat(New(p.context), p.instructions[..at], p.instructions[at..]);
  }
}
