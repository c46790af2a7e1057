/** Shortening a program by ever smaller tails. */
module Cutting {
  import opened Wrappers
  import opened Ir
  import opened Builder
  import opened Renaming
  import opened Removal
  import L = Lifecycle

  /** The first `kept` of a program's instructions. */
  function Prefix(p: Program, kept: nat): Program
    requires kept <= |p.instructions|
  {
    Program(p.context, p.instructions[..kept])
  }

  lemma WholePrefix(p: Program)
    ensures Prefix(p, |p.instructions|) == p
  {
  }

  function TailMask(total: nat, kept: nat): seq<bool> {
    seq(total, k => k >= kept)
  }

  lemma NoneCounted(code: seq<Instruction>, k: nat)
    requires k <= |code|
    ensures VariableCount(code[k..k]) == 0
  {
  }

  lemma OneCounted(code: seq<Instruction>, k: nat, kept: nat)
    requires k < kept <= |code|
    ensures VariableCount(code[..k + 1]) == VariableCount(code[..k]) + code[k].operation.Defines()
    ensures VariableCount(code[k..kept]) == code[k].operation.Defines() + VariableCount(code[k + 1..kept])
  {
    assert code[..k + 1] == code[..k] + [code[k]] && code[k..kept] == [code[k]] + code[k + 1..kept];
    VariableCountConcat(code[..k], [code[k]]);
    VariableCountConcat([code[k]], code[k + 1..kept]);
    assert [code[k]][1..] == [];
  }

  /** Variables of what is kept keep their numbers. */
  lemma {:induction false} TailMapping(code: seq<Instruction>, kept: nat, k: nat) returns (rest: seq<nat>)
    requires k <= kept <= |code|
    ensures Mapping(code, TailMask(|code|, kept), k, VariableCount(code[..k]))
         == Extended([], VariableCount(code[..k]), VariableCount(code[k..kept])) + rest
    decreases kept - k
  {
    hide Operation.Defines, Mapping, Extended, VariableCount;
    var mask := TailMask(|code|, kept);
    var before := VariableCount(code[..k]);
    if k == kept {
      rest := Mapping(code, mask, k, before);
      NoneCounted(code, kept);
      ExtendedNone([], before);
    } else {
      rest := TailMapping(code, kept, k + 1);
      var n := code[k].operation.Defines();
      OneCounted(code, k, kept);
      MappingStep(code, mask, k, before);
      ExtendedTwice([], before, n, VariableCount(code[k + 1..kept]));
      ExtendedSplit(Extended([], before, n), before + n, VariableCount(code[k + 1..kept]));
    }
  }

  lemma RenameOneIdentity(i: Instruction, n: nat, rest: seq<nat>)
    requires InputsBelow(i, n)
    ensures RenameOne(i, Extended([], 0, n) + rest) == i
  {
  }

  lemma {:induction false} KeepPrefix(code: seq<Instruction>, kept: nat, k: nat, m: seq<nat>)
    requires k <= |code| && kept <= |code|
    requires forall j | k <= j < kept :: RenameOne(code[j], m) == code[j]
    ensures Keep(code, TailMask(|code|, kept), k, m) == if k < kept then code[k..kept] else []
    decreases |code| - k
  {
    hide RenameOne;
    if k < |code| {
      KeepPrefix(code, kept, k + 1, m);
    }
  }

  lemma {:induction false} DefinedBefore(code: seq<Instruction>, n: nat, kept: nat, j: nat)
    requires Defined(code, n) && j < kept <= |code|
    ensures InputsBelow(code[j], n + VariableCount(code[..kept]))
    decreases |code|
  {
    hide Operation.Defines;
    assert code[..kept][1..] == code[1..][..kept - 1];
    if j > 0 {
      DefinedBefore(code[1..], n + code[0].operation.Defines(), kept - 1, j - 1);
    }
  }

  /** Dropping the end of a program leaves a prefix of it, its inputs as they were. */
  lemma WithoutTail(p: Program, kept: nat)
    requires Defined(p.instructions, 0) && kept <= |p.instructions|
    ensures Without(p, TailMask(|p.instructions|, kept)) == Prefix(p, kept)
  {
    hide Defined, InputsBelow, RenameOne, Extended, Keep, Mapping;
    var code := p.instructions;
    var rest := TailMapping(code, kept, 0);
    assert code[..0] == [] && code[0..kept] == code[..kept];
    var m := Extended([], 0, VariableCount(code[..kept])) + rest;
    forall j | 0 <= j < kept ensures RenameOne(code[j], m) == code[j] {
      DefinedBefore(code, 0, kept, j);
      RenameOneIdentity(code[j], VariableCount(code[..kept]), rest);
    }
    KeepPrefix(code, kept, 0, m);
  }

  /** Checking a prefix of a valid program never panics. */
  lemma PrefixNeverPanics(p: Program, kept: nat)
    requires StaticallyValid(p) && kept <= |p.instructions|
    ensures Validity(Prefix(p, kept)) == Some(StaticallyValid(Prefix(p, kept)))
  {
    hide StaticallyValid, L.EndsInside;
    L.ValidEndsInside(p);
    assert p.instructions == p.instructions[..kept] + p.instructions[kept..];
    L.EndsInsideConcat(p.instructions[..kept], p.instructions[kept..], 0);
    L.NeverPanics(Prefix(p, kept));
  }

  /** A valid program without its end, and whether that is valid. */
  method Cut(p: Program, kept: nat) returns (attempt: Program, valid: bool)
    requires StaticallyValid(p) && kept <= |p.instructions|
    ensures attempt == Prefix(p, kept) && valid == StaticallyValid(attempt)
  {
    hide StaticallyValid, Validity;
    ValidInRange(p);
    WithoutTail(p, kept);
    attempt := WithoutMarked(p, TailMask(|p.instructions|, kept));
    PrefixNeverPanics(p, kept);
    var answer := IsStaticallyValid(attempt);
    return attempt, answer.value;
  }

  /** The first of a length and its halvings that can be cut off a program, or zero if none can. */
  function FirstCut(p: Program, length: nat): (r: nat)
    requires length <= |p.instructions|
    ensures r <= length
    ensures r > 0 ==> StaticallyValid(Prefix(p, |p.instructions| - r))
    ensures r == 0 && length > 0 ==> !StaticallyValid(Prefix(p, |p.instructions| - 1))
  {
    if length == 0 || StaticallyValid(Prefix(p, |p.instructions| - length)) then length
    else FirstCut(p, length / 2)
  }

  function Halved(length: nat, n: nat): nat {
    if n == 0 then length else Halved(length, n - 1) / 2
  }

  lemma {:induction false} HalvedAgain(length: nat, n: nat)
    ensures Halved(length / 2, n) == Halved(length, n + 1)
    decreases n
  {
    if n > 0 {
      HalvedAgain(length, n - 1);
    }
  }

  /** The cut proposed is the length halved some number of times, as few as make it valid. */
  lemma {:induction false} FirstCutHalves(p: Program, length: nat) returns (n: nat)
    requires length <= |p.instructions|
    ensures FirstCut(p, length) == Halved(length, n)
    ensures forall m: nat | m < n ::
              && 0 < Halved(length, m) <= |p.instructions|
              && !StaticallyValid(Prefix(p, |p.instructions| - Halved(length, m)))
    decreases length
  {
    hide StaticallyValid, Prefix;
    if length == 0 || StaticallyValid(Prefix(p, |p.instructions| - length)) {
      n := 0;
    } else {
      var rest := FirstCutHalves(p, length / 2);
      n := rest + 1;
      HalvedAgain(length, rest);
      forall m: nat | m < n
        ensures 0 < Halved(length, m) <= |p.instructions|
        ensures !StaticallyValid(Prefix(p, |p.instructions| - Halved(length, m)))
      {
        if m > 0 {
          HalvedAgain(length, m - 1);
        }
      }
    }
  }

  class CuttingMinimizer {
    var program: Program
    var candidate: Option<Program>
    var length: nat
    ghost const original: Program

    /** The current program is always a valid prefix of the first, and a cut at most half of it. */
    ghost predicate Valid()
      reads this
    {
      && length <= |program.instructions| / 2
      && |program.instructions| <= |original.instructions|
      && program == Prefix(original, |program.instructions|)
      && StaticallyValid(program)
      && (candidate.Some? ==>
            && length > 0 && candidate == Some(Prefix(program, |program.instructions| - length))
            && StaticallyValid(candidate.value))
    }

    /** What every report lowers. */
    ghost function Left(): nat
      reads this
    {
      |program.instructions| + length
    }

    constructor (program: Program)
      requires StaticallyValid(program)
      ensures Valid() && this.program == program && original == program && candidate == None
      ensures length == |program.instructions| / 2
    {
      this.program := program;
      candidate := None;
      length := |program.instructions| / 2;
      original := program;
    }

    method Next() returns (r: Option<Program>)
      requires Valid()
      modifies this`candidate, this`length
      ensures Valid() && candidate == r && length == FirstCut(program, old(length))
      ensures old(candidate).Some? ==> r == old(candidate) && length == old(length)
      ensures r == if length == 0 then None else Some(Prefix(program, |program.instructions| - length))
    {
      hide StaticallyValid, Validity;
      while length > 0
        invariant length <= old(length) && candidate == old(candidate)
        invariant candidate.Some? ==> length == old(length)
        invariant FirstCut(program, old(length)) == FirstCut(program, length)
      {
        var total := |program.instructions|;
        var attempt, valid := Cut(program, total - length);
        if valid {
          candidate := Some(attempt);
          return candidate;
        }
        length := length / 2;
      }
      return None;
    }

    method Success()
      requires Valid()
      modifies this
      ensures Valid() && candidate == None
      ensures program == if old(candidate).Some? then old(candidate).value else old(program)
      ensures old(candidate).Some? ==> Left() < old(Left())
      ensures old(candidate).Some? ==> |program.instructions| < |old(program).instructions|
      ensures old(candidate).Some? ==>
                var half := |program.instructions| / 2;
                length == if old(length) <= half then old(length) else half
    {
      if candidate.Some? {
        program := candidate.value;
        candidate := None;
        length := if length <= |program.instructions| / 2 then length else |program.instructions| / 2;
      }
    }

    method Failure()
      requires Valid()
      modifies this`candidate, this`length
      ensures Valid() && candidate == None && length == old(length) / 2
      ensures old(length) > 0 ==> Left() < old(Left())
    {
      candidate := None;
      length := length / 2;
    }
  }
}
