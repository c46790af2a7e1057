/** A nop for an instruction, one instruction after another. */
module Nopping {
  import opened Wrappers
  import opened Ir
  import opened Builder
  import opened Scoping
  import opened Renaming
  import L = Lifecycle

  function NoppedAt(p: Program, k: nat): Program
    requires k < |p.instructions|
  {
    Program(p.context, p.instructions[k := p.instructions[k].Nopped()])
  }

  /** The variables instruction `k` defines. */
  function OutputsOf(code: seq<Instruction>, k: nat): set<nat>
    requires k < |code|
  {
    var first := VariableCount(code[..k]);
    Range(first, first + code[k].operation.Defines())
  }

  predicate ReadLater(code: seq<Instruction>, k: nat)
    requires k < |code|
  {
    exists j :: k < j < |code| && !Avoids(code[j], OutputsOf(code, k))
  }

  lemma NoppedDefines(i: Instruction)
    ensures i.Nopped().operation.Defines() == i.operation.Defines()
    ensures i.Nopped().operation.Nop? && i.Nopped().inputs == []
  {
  }

  lemma NopAccepted(s: State, i: Instruction)
    requires Wellformed(s) && i.operation.Nop? && i.inputs == []
    ensures Step(s, i).Appended? && Grew(s, i, Step(s, i).state) && Wellformed(Step(s, i).state)
  {
    StepTaken(s, i);
  }

  lemma PlainTaken(s: State, i: Instruction)
    requires Wellformed(s) && Step(s, i).Appended? && i.IsNoppable()
    ensures Grew(s, i, Step(s, i).state) && Wellformed(Step(s, i).state)
  {
    hide Step, Wellformed;
    StepTaken(s, i);
  }

  /** After an instruction and after its nop, the same is in scope but for what the instruction defined. */
  lemma NoppedRelated(s: State, i: Instruction, s': State, t': State)
    requires Wellformed(s) && Wellformed(s') && Wellformed(t') && i.IsNoppable()
    requires Grew(s, i, s') && Grew(s, i.Nopped(), t')
    ensures Related(s', t', Identity(|s'.variables|), Range(|s.variables|, |s'.variables|))
    ensures forall v | |s.variables| <= v < |t'.variables| :: t'.variables[v].scopeId == 0
    ensures |t'.variables| == |s'.variables| && s'.scopes == s.scopes
  {
    hide ScopeOpenedBy, Housed, Operation.OutputVariables, Operation.InnerOutputVariables;
    NoppedDefines(i);
    var dead := Range(|s.variables|, |s'.variables|);
    var m := Identity(|s'.variables|);
    forall v: nat, k: nat | v < |m| && k < |s'.scopes| ensures Corresponds(s', t', m, dead, v, k) {
    }
  }

  /** What nopping leaves of the rest is accepted just as before, up to any instruction that reads what is gone. */
  lemma NoppedRest(s: State, t: State, dead: set<nat>, rest: seq<Instruction>)
    requires Related(s, t, Identity(|s.variables|), dead) && |t.variables| == |s.variables|
    requires forall v | v in dead :: v < |s.variables|
    requires Steps(s, rest).Appended? && AllAvoid(rest, dead)
    ensures Steps(t, rest).Appended? && |Steps(t, rest).state.scopes| == |Steps(s, rest).state.scopes|
  {
    hide Steps, Wellformed, Corresponds;
    StepsRelated(s, t, Identity(|s.variables|), dead, rest);
    RenameAllIdentity(rest, |s.variables|);
  }

  /** An instruction that reads a variable in scope zero is refused. */
  lemma DeadReadRefused(s: State, i: Instruction, v: nat)
    requires Wellformed(s) && v in i.inputs && v < |s.variables| && s.variables[v].scopeId == 0
    ensures !Step(s, i).Appended?
  {
    hide Step, Housed, ScopeOpenedBy;
    StepTaken(s, i);
    var k :| 0 <= k < |i.inputs| && i.inputs[k] == v;
    assert !s.Visible(i.inputs[k]);
  }

  lemma {:induction false} DeadReadStops(s: State, t: State, dead: set<nat>, rest: seq<Instruction>, j: nat)
    requires Related(s, t, Identity(|s.variables|), dead) && |t.variables| == |s.variables|
    requires forall v | v in dead :: v < |s.variables| && t.variables[v].scopeId == 0
    requires Steps(s, rest).Appended? && j < |rest| && !Avoids(rest[j], dead)
    ensures !Steps(t, rest).Appended?
    decreases j
  {
    hide Step, Wellformed, Corresponds, Steps;
    if i :| 0 <= i < j && !Avoids(rest[i], dead) {
      DeadReadStops(s, t, dead, rest, i);
    } else {
      assert rest == rest[..j] + rest[j..];
      StepsConcat(s, rest[..j], rest[j..]);
      StepsConcat(t, rest[..j], rest[j..]);
      NoppedRest(s, t, dead, rest[..j]);
      StepsVariables(t, rest[..j]);
      var t' := Steps(t, rest[..j]).state;
      var x :| 0 <= x < |rest[j].inputs| && rest[j].inputs[x] in dead;
      var v := rest[j].inputs[x];
      assert t'.variables[v] == t.variables[v] by { assert t'.variables[..|t.variables|][v] == t.variables[v]; }
      DeadReadRefused(t', rest[j], v);
      FirstStepDecides(t', rest[j..]);
    }
  }

  lemma FirstStepDecides(s: State, code: seq<Instruction>)
    requires code != []
    ensures Steps(s, code).Appended? ==> Step(s, code[0]).Appended?
  {
  }

  lemma StepsHead(s: State, code: seq<Instruction>)
    requires code != []
    ensures Steps(s, code) == var first := Step(s, code[0]); if first.Appended? then Steps(first.state, code[1..])
      else first
  {
  }

  /** The builder before and after instruction `k`, as it is and nopped. */
  lemma AroundNop(p: Program, k: nat) returns (s: State, s': State, t': State, dead: set<nat>)
    requires StaticallyValid(p) && k < |p.instructions| && p.instructions[k].IsNoppable()
    ensures dead == OutputsOf(p.instructions, k)
    ensures FromPrefix(p.context, p.instructions) == Steps(s', p.instructions[k + 1..])
    ensures FromPrefix(p.context, NoppedAt(p, k).instructions) == Steps(t', p.instructions[k + 1..])
    ensures Related(s', t', Identity(|s'.variables|), dead) && |t'.variables| == |s'.variables|
    ensures forall v | v in dead :: v < |s'.variables| && t'.variables[v].scopeId == 0
  {
    hide Step, Steps, Wellformed, Related, Operation.Defines, Finalize, Grew;
    var code, nop := p.instructions, p.instructions[k].Nopped();
    var other := NoppedAt(p, k).instructions;
    assert code == code[..k] + code[k..] && other == code[..k] + other[k..];
    assert code[k..][1..] == code[k + 1..] && other[k..][1..] == code[k + 1..];
    StepsConcat(New(p.context), code[..k], code[k..]);
    StepsConcat(New(p.context), code[..k], other[k..]);
    s := FromPrefix(p.context, code[..k]).state;
    NewWellformed(p.context);
    StepsVariables(New(p.context), code[..k]);
    StepsHead(s, code[k..]);
    StepsHead(s, other[k..]);
    s' := Step(s, code[k]).state;
    NoppedDefines(code[k]);
    NopAccepted(s, nop);
    t' := Step(s, nop).state;
    PlainTaken(s, code[k]);
    NoppedRelated(s, code[k], s', t');
    GrewVariables(s, code[k], s');
    dead := OutputsOf(code, k);
    assert dead == Range(|s.variables|, |s'.variables|);
  }

  lemma GrewVariables(s: State, i: Instruction, t: State)
    requires Grew(s, i, t)
    ensures |t.variables| == |s.variables| + i.operation.Defines()
  {
  }

  /** Nopping an instruction keeps a valid program valid exactly when nothing later reads what it defined. */
  lemma NoppedValidIff(p: Program, k: nat)
    requires StaticallyValid(p) && k < |p.instructions| && p.instructions[k].IsNoppable()
    ensures StaticallyValid(NoppedAt(p, k)) <==> !ReadLater(p.instructions, k)
  {
    hide Step, Steps, Wellformed, Related, OutputsOf, Finalize;
    var code := p.instructions;
    var rest := code[k + 1..];
    var s, s', t', dead := AroundNop(p, k);
    ValidIffGlobal(p);
    ValidIffGlobal(NoppedAt(p, k));
    if ReadLater(code, k) {
      var j :| k < j < |code| && !Avoids(code[j], dead);
      assert rest[j - k - 1] == code[j];
      DeadReadStops(s', t', dead, rest, j - k - 1);
    } else {
      forall j | 0 <= j < |rest| ensures Avoids(rest[j], dead) {
        assert rest[j] == code[j + k + 1];
      }
      NoppedRest(s', t', dead, rest);
    }
  }

  lemma NoppedBalance(i: Instruction)
    requires i.IsNoppable()
    ensures !i.Nopped().operation.IsBlockEnd() && L.Balance([i.Nopped()]) == L.Balance([i]) == 0
  {
    L.BalanceOne(i);
    L.BalanceOne(i.Nopped());
  }

  lemma {:induction false} NoppedEndsInside(code: seq<Instruction>, k: nat, depth: int)
    requires k < |code| && code[k].IsNoppable() && L.EndsInside(code, depth)
    ensures L.EndsInside(code[k := code[k].Nopped()], depth)
    decreases |code|
  {
    hide L.Balance;
    var other := code[k := code[k].Nopped()];
    if k == 0 {
      assert other[1..] == code[1..];
      NoppedBalance(code[0]);
    } else {
      assert other[1..] == code[1..][k - 1 := code[k].Nopped()];
      NoppedEndsInside(code[1..], k - 1, depth + L.Balance([code[0]]));
    }
  }

  /** Checking a valid program with an instruction nopped never panics. */
  lemma NoppedNeverPanics(p: Program, k: nat)
    requires StaticallyValid(p) && k < |p.instructions| && p.instructions[k].IsNoppable()
    ensures Validity(NoppedAt(p, k)) == Some(StaticallyValid(NoppedAt(p, k)))
  {
    hide StaticallyValid, L.EndsInside;
    L.ValidEndsInside(p);
    NoppedEndsInside(p.instructions, k, 0);
    L.NeverPanics(NoppedAt(p, k));
  }

  // ---------------------------------------------------------------------------------------------
  // The minimizer
  // ---------------------------------------------------------------------------------------------

  /** Just what opens no block and closes none can be replaced by a nop. */
  lemma NoppableIff(i: Instruction)
    ensures i.IsNoppable() <==> i.operation.EnteredContext().None? && forall begin :: !i.operation.Closes(begin)
  {
    assert i.operation.EndBuildSetupConnection? ==> i.operation.Closes(BeginBuildSetupConnection);
    assert i.operation.EndOnSetupSuccess? ==> i.operation.Closes(BeginOnSetupSuccess(Mining));
  }

  /** An instruction a nop may take the place of. */
  predicate Live(i: Instruction) {
    i.IsNoppable() && !i.operation.Nop?
  }

  lemma LiveIsNoppable(i: Instruction)
    requires Live(i)
    ensures i.IsNoppable()
  {
  }

  function LiveCount(code: seq<Instruction>): nat {
    if code == [] then 0 else (if Live(code[|code| - 1]) then 1 else 0) + LiveCount(code[..|code| - 1])
  }

  lemma {:induction false} NoppingLowersLiveCount(code: seq<Instruction>, k: nat)
    requires k < |code| && Live(code[k])
    ensures LiveCount(code[k := code[k].Nopped()]) == LiveCount(code) - 1
  {
    var last := |code| - 1;
    var other := code[k := code[k].Nopped()];
    if k < last {
      NoppingLowersLiveCount(code[..last], k);
      assert other[..last] == code[..last][k := code[k].Nopped()];
    } else {
      assert other[..last] == code[..last];
    }
  }

  /** `code` with some of its instructions nopped, and nothing else changed. */
  predicate PartlyNopped(code: seq<Instruction>, original: seq<Instruction>) {
    && |code| == |original|
    && forall k | 0 <= k < |code| ::
         code[k] == original[k] || (original[k].IsNoppable() && code[k] == original[k].Nopped())
  }

  lemma NothingNopped(code: seq<Instruction>)
    ensures PartlyNopped(code, code)
  {
  }

  lemma NoppedPartly(p: Program, k: nat, original: seq<Instruction>)
    requires k < |p.instructions| && Live(p.instructions[k]) && PartlyNopped(p.instructions, original)
    ensures PartlyNopped(NoppedAt(p, k).instructions, original)
  {
  }

  class NoppingMinimizer {
    var program: Program
    var candidate: Option<Program>
    var next: nat

    ghost predicate Valid()
      reads this
    {
      candidate.Some? ==>
        && next < |program.instructions| && Live(program.instructions[next])
        && candidate.value == NoppedAt(program, next) && StaticallyValid(candidate.value)
    }

    /** What every report lowers. */
    ghost function Left(): nat
      reads this
    {
      LiveCount(program.instructions) + if next <= |program.instructions| then |program.instructions| - next else 0
    }

    constructor (program: Program)
      ensures Valid() && this.program == program && candidate == None && next == 0
    {
      this.program := program;
      candidate := None;
      next := 0;
    }

    /**
     * The next valid candidate; every instruction passed over could not be nopped, or not validly.
     * A candidate nothing was reported on is proposed again. It can panic only on a program that is not valid.
     */
    method Next() returns (r: Option<Program>, panicked: bool)
      requires Valid()
      modifies this`candidate, this`next
      ensures StaticallyValid(program) ==> !panicked
      ensures panicked ==> next < |program.instructions| && Validity(NoppedAt(program, next)) == None
      ensures Valid() && old(next) <= next && (!panicked ==> candidate == r)
      ensures old(candidate).Some? ==> r == old(candidate) && next == old(next) && !panicked
      ensures r.None? && !panicked ==> next >= |program.instructions|
      ensures r.Some? ==> next < |program.instructions|
      ensures forall k | old(next) <= k < next && k < |program.instructions| ::
                !Live(program.instructions[k]) || !StaticallyValid(NoppedAt(program, k))
    {
      hide StaticallyValid, Validity, Live;
      panicked := false;
      while next < |program.instructions|
        invariant old(next) <= next && candidate == old(candidate)
        invariant candidate.Some? ==> next == old(next)
        invariant forall k | old(next) <= k < next && k < |program.instructions| ::
            !Live(program.instructions[k]) || !StaticallyValid(NoppedAt(program, k))
        decreases |program.instructions| - next
      {
        if !Live(program.instructions[next]) {
          next := next + 1;
          continue;
        }
        var attempt := NoppedAt(program, next);
        if StaticallyValid(program) {
          LiveIsNoppable(program.instructions[next]);
          NoppedNeverPanics(program, next);
        }
        var valid := IsStaticallyValid(attempt);
        ValidityAnswers(attempt);
        if valid.None? {
          return None, true;
        }
        if !valid.value {
          next := next + 1;
          continue;
        }
        candidate := Some(attempt);
        return candidate, false;
      }
      return None, false;
    }

    method Success()
      requires Valid()
      modifies this
      ensures Valid() && candidate == None && next == old(next)
      ensures program == if old(candidate).Some? then old(candidate).value else old(program)
      ensures old(candidate).Some? ==> Left() < old(Left())
    {
      if candidate.Some? {
        NoppingLowersLiveCount(program.instructions, next);
        program := candidate.value;
        candidate := None;
      }
    }

    method Failure()
      modifies this`candidate, this`next
      ensures Valid() && candidate == None && next == old(next) + 1
      ensures old(next) < |program.instructions| ==> Left() < old(Left())
    {
      candidate := None;
      next := next + 1;
    }
  }
}
