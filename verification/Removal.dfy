/** Dropping instructions and renumbering the rest, and what dropping nops keeps. */
module Removal {
  import opened Ir
  import opened Builder
  import opened Scoping
  import opened Renaming

  predicate Dropped(mask: seq<bool>, k: nat) {
    k < |mask| && mask[k]
  }

  /** Where each variable defined from instruction `k` on is once the marked are dropped, `kept` being kept before. */
  function Mapping(code: seq<Instruction>, mask: seq<bool>, k: nat, kept: nat): seq<nat>
    requires k <= |code|
    decreases |code| - k
  {
    if k == |code| then []
    else
      var n := code[k].operation.Defines();
      if Dropped(mask, k) then Repeated<nat>(kept, n) + Mapping(code, mask, k + 1, kept)
      else Extended([], kept, n) + Mapping(code, mask, k + 1, kept + n)
  }

  /** The instructions from `k` on that are not marked, renamed. */
  function Keep(code: seq<Instruction>, mask: seq<bool>, k: nat, m: seq<nat>): seq<Instruction>
    requires k <= |code|
    decreases |code| - k
  {
    if k == |code| then []
    else if Dropped(mask, k) then Keep(code, mask, k + 1, m)
    else [RenameOne(code[k], m)] + Keep(code, mask, k + 1, m)
  }

  function Without(p: Program, mask: seq<bool>): Program {
    Program(p.context, Keep(p.instructions, mask, 0, Mapping(p.instructions, mask, 0, 0)))
  }

  function NopMask(code: seq<Instruction>): seq<bool> {
    seq(|code|, k requires 0 <= k < |code| => code[k].operation.Nop?)
  }

  function RemoveNops(p: Program): Program {
    Without(p, NopMask(p.instructions))
  }

  lemma {:induction false} MappingLength(code: seq<Instruction>, mask: seq<bool>, k: nat, kept: nat)
    requires k <= |code|
    ensures |Mapping(code, mask, k, kept)| == VariableCount(code[k..])
    decreases |code| - k
  {
    hide Operation.Defines, Extended, Repeated;
    if k < |code| {
      assert code[k..][1..] == code[k + 1..];
      var n := code[k].operation.Defines();
      MappingLength(code, mask, k + 1, if Dropped(mask, k) then kept else kept + n);
    }
  }

  predicate InputsInRange(p: Program) {
    forall k | 0 <= k < |p.instructions| :: InputsBelow(p.instructions[k], VariableCount(p.instructions))
  }

  lemma MappingStep(code: seq<Instruction>, mask: seq<bool>, k: nat, kept: nat)
    requires k < |code|
    ensures var n := code[k].operation.Defines();
      Mapping(code, mask, k, kept) ==
        if Dropped(mask, k) then Repeated<nat>(kept, n) + Mapping(code, mask, k + 1, kept)
        else Extended([], kept, n) + Mapping(code, mask, k + 1, kept + n)
  {
  }

  lemma MappingEnd(code: seq<Instruction>, mask: seq<bool>, kept: nat)
    ensures Mapping(code, mask, |code|, kept) == []
  {
  }

  method BuildMapping(code: seq<Instruction>, remove: seq<bool>) returns (mapping: seq<nat>)
    ensures mapping == Mapping(code, remove, 0, 0)
  {
    hide Operation.Defines, Extended, Repeated, Mapping;
    mapping := [];
    var kept := 0;
    for k := 0 to |code|
      invariant Mapping(code, remove, 0, 0) == mapping + Mapping(code, remove, k, kept)
    {
      MappingStep(code, remove, k, kept);
      var dropped := k < |remove| && remove[k];
      mapping, kept := MapOutputs(mapping, kept, code[k].operation.Defines(), dropped);
    }
    MappingEnd(code, remove, kept);
  }

  /** Number the outputs of one instruction: a dropped one's all point at whatever comes next. */
  method MapOutputs(before: seq<nat>, start: nat, outputs: nat, dropped: bool) returns (mapping: seq<nat>, kept: nat)
    ensures mapping == before + (if dropped then Repeated<nat>(start, outputs) else Extended([], start, outputs))
    ensures kept == if dropped then start else start + outputs
  {
    mapping, kept := before, start;
    for j := 0 to outputs
      invariant mapping == before + (if dropped then Repeated<nat>(start, j) else Extended([], start, j))
      invariant kept == if dropped then start else start + j
    {
      mapping := mapping + [kept];
      if !dropped {
        kept := kept + 1;
      }
    }
  }

  /** A program without its marked instructions; what is kept reads the same variables under their new numbers. */
  method WithoutMarked(p: Program, remove: seq<bool>) returns (r: Program)
    requires InputsInRange(p)
    ensures r == Without(p, remove)
  {
    var code := p.instructions;
    var mapping := BuildMapping(code, remove);
    MappingLength(code, remove, 0, 0);
    assert code[0..] == code;
    var instructions: seq<Instruction> := [];
    for k := 0 to |code|
      invariant Keep(code, remove, 0, mapping) == instructions + Keep(code, remove, k, mapping)
    {
      if !(k < |remove| && remove[k]) {
        assert InputsBelow(code[k], |mapping|);
        var inputs := code[k].inputs;
        for j := 0 to |inputs|
          invariant |inputs| == |code[k].inputs|
          invariant forall x | 0 <= x < j :: inputs[x] == Renamed(code[k].inputs[x], mapping)
          invariant forall x | j <= x < |inputs| :: inputs[x] == code[k].inputs[x]
        {
          inputs := inputs[j := mapping[inputs[j]]];
        }
        assert Instruction(code[k].operation, inputs) == RenameOne(code[k], mapping);
        instructions := instructions + [Instruction(code[k].operation, inputs)];
      }
    }
    r := Program(p.context, instructions);
  }

  /** A program without its nops. */
  method DropNops(p: Program) returns (r: Program)
    requires InputsInRange(p)
    ensures r == RemoveNops(p)
  {
    var remove: seq<bool> := [];
    for k := 0 to |p.instructions|
      invariant remove == NopMask(p.instructions)[..k]
    {
      remove := remove + [p.instructions[k].operation.Nop?];
    }
    assert remove == NopMask(p.instructions);
    r := WithoutMarked(p, remove);
  }

  lemma {:induction false} DefinedInRange(code: seq<Instruction>, n: nat, k: nat)
    requires Defined(code, n) && k < |code|
    ensures InputsBelow(code[k], n + VariableCount(code))
    decreases |code|
  {
    hide Operation.Defines;
    if k > 0 {
      DefinedInRange(code[1..], n + code[0].operation.Defines(), k - 1);
    }
  }

  /** A valid program's inputs are in range, so dropping from one never fails. */
  lemma ValidInRange(p: Program)
    requires StaticallyValid(p)
    ensures InputsInRange(p) && Defined(p.instructions, 0)
  {
    hide Steps, Wellformed, Finalize, VariableCount;
    NewWellformed(p.context);
    StepsDefined(New(p.context), p.instructions);
    forall k | 0 <= k < |p.instructions| ensures InputsBelow(p.instructions[k], VariableCount(p.instructions)) {
      DefinedInRange(p.instructions, 0, k);
    }
  }

  // ---------------------------------------------------------------------------------------------
  // Dropping nops
  // ---------------------------------------------------------------------------------------------

  /** A nop leaves every builder it is taken by related as it was: what it defines is never in scope. */
  lemma NopRelated(s: State, t: State, m: seq<nat>, i: Instruction, s': State, next: nat)
    requires Related(s, t, m, {}) && i.operation.Nop? && Grew(s, i, s') && Wellformed(s')
    ensures Related(s', t, m + Repeated<nat>(next, i.operation.Defines()), {})
  {
    hide Operation.Defines, Wellformed, Grew;
    NopVariables(s, i, s');
    var m' := m + Repeated<nat>(next, i.operation.Defines());
    forall v: nat, k: nat | v < |m'| && k < |s'.scopes| ensures Corresponds(s', t, m', {}, v, k) {
      if v < |m| {
        assert Corresponds(s, t, m, {}, v, k);
      }
    }
  }

  /** All a nop changes is to define variables in the scope that is never open. */
  lemma NopVariables(s: State, i: Instruction, s': State)
    requires Wellformed(s) && i.operation.Nop? && Grew(s, i, s')
    ensures s'.scopes == s.scopes && s'.context == s.context
    ensures |s'.variables| == |s.variables| + i.operation.Defines()
    ensures forall v | 0 <= v < |s.variables| :: s'.variables[v] == s.variables[v]
    ensures forall v | |s.variables| <= v < |s'.variables| :: s'.variables[v].scopeId == 0
    ensures forall k | 0 <= k < |s.scopes| :: s.scopes[k].id > 0
  {
    hide Operation.OutputVariables, Operation.InnerOutputVariables, Housed, ScopeOpenedBy;
  }

  lemma RenameOnePrefix(i: Instruction, m: seq<nat>, rest: seq<nat>)
    requires InputsBelow(i, |m|)
    ensures RenameOne(i, m + rest) == RenameOne(i, m)
  {
  }

  /** The builder takes what is left once the nops of accepted code are dropped. */
  lemma {:induction false} ReducedAccepted(s: State, t: State, m: seq<nat>, code: seq<Instruction>, k: nat,
    all: seq<nat>)
    requires k <= |code| && Related(s, t, m, {}) && Steps(s, code[k..]).Appended?
    requires all == m + Mapping(code, NopMask(code), k, |t.variables|)
    ensures var reduced := Steps(t, Keep(code, NopMask(code), k, all));
      && reduced.Appended?
      && |reduced.state.scopes| == |Steps(s, code[k..]).state.scopes|
    decreases |code| - k
  {
    hide Step, Related, Wellformed, RenameOne, Extended, Repeated, InputsBelow, Operation.Defines, Left;
    RelatedDepth(s, t, m, {});
    if k < |code| {
      var i, rest := code[k], code[k + 1..];
      assert code[k..][0] == i && code[k..][1..] == rest;
      var n := i.operation.Defines();
      RelatedParts(s, t, m, {});
      StepTaken(s, i);
      StepsDefined(s, code[k..]);
      if i.operation.Nop? {
        GrewNop(s, i, Step(s, i).state);
        NopRelated(s, t, m, i, Step(s, i).state, |t.variables|);
        ReducedAccepted(Step(s, i).state, t, m + Repeated<nat>(|t.variables|, n), code, k + 1, all);
      } else {
        StepRelated(s, t, m, {}, i);
        var t' := Step(t, RenameOne(i, m)).state;
        ExtendedSplit(m, |t.variables|, n);
        RenameOnePrefix(i, m, Mapping(code, NopMask(code), k, |t.variables|));
        ReducedAccepted(Step(s, i).state, t', Extended(m, |t.variables|, n), code, k + 1, all);
        KeepOne(code, k, all);
      }
    }
  }

  lemma KeepOne(code: seq<Instruction>, k: nat, all: seq<nat>)
    requires k < |code| && !code[k].operation.Nop?
    ensures Keep(code, NopMask(code), k, all) == [RenameOne(code[k], all)] + Keep(code, NopMask(code), k + 1, all)
  {
    hide RenameOne;
  }

  lemma ExtendedSplit(m: seq<nat>, next: nat, n: nat)
    ensures Extended(m, next, n) == m + Extended([], next, n)
  {
  }

  lemma GrewNop(s: State, i: Instruction, t: State)
    requires i.operation.Nop?
    ensures Left(s, i.operation) == s
  {
  }

  lemma RelatedParts(s: State, t: State, m: seq<nat>, dead: set<nat>)
    requires Related(s, t, m, dead)
    ensures Wellformed(s) && Wellformed(t) && |m| == |s.variables|
  {
  }

  lemma FreshRelated(context: ProgramContext)
    ensures Related(New(context), New(context), [], {})
  {
    NewWellformed(context);
  }

  lemma {:induction false} KeptAreUnmarked(code: seq<Instruction>, k: nat, m: seq<nat>)
    requires k <= |code|
    ensures forall i | i in Keep(code, NopMask(code), k, m) :: !i.operation.Nop?
    decreases |code| - k
  {
    if k < |code| {
      KeptAreUnmarked(code, k + 1, m);
    }
  }

  /** Dropping the nops of a valid program leaves a valid program, without any. */
  lemma RemoveNopsValid(p: Program)
    requires StaticallyValid(p)
    ensures StaticallyValid(RemoveNops(p))
    ensures forall i | i in RemoveNops(p).instructions :: !i.operation.Nop?
  {
    hide Finalize, Steps, Wellformed, Related, Keep, Mapping;
    ValidIffGlobal(p);
    ValidIffGlobal(RemoveNops(p));
    FreshRelated(p.context);
    var code := p.instructions;
    assert code[0..] == code;
    ReducedAccepted(New(p.context), New(p.context), [], code, 0, Mapping(code, NopMask(code), 0, 0));
    KeptAreUnmarked(code, 0, Mapping(code, NopMask(code), 0, 0));
  }
}
