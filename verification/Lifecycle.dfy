/** What a builder finalizes to, over every history of appends, the refused ones included. */
module Lifecycle {
  import opened Wrappers
  import opened Ir
  import opened Builder
  import opened Scoping
  import opened Renaming

  /** Block beginnings less block ends. */
  function Balance(code: seq<Instruction>): int
    decreases |code|
  {
    if code == [] then 0
    else
      (if code[0].operation.IsBlockBegin() then 1 else if code[0].operation.IsBlockEnd() then -1 else 0)
      + Balance(code[1..])
  }

  lemma {:induction false} BalanceConcat(a: seq<Instruction>, b: seq<Instruction>)
    ensures Balance(a + b) == Balance(a) + Balance(b)
    decreases |a|
  {
    if a == [] {
      assert a + b == b;
    } else {
      assert (a + b)[1..] == a[1..] + b;
      BalanceConcat(a[1..], b);
    }
  }

  lemma StepBalance(s: State, i: Instruction)
    requires Wellformed(s) && Step(s, i).Appended?
    ensures Wellformed(Step(s, i).state)
    ensures |Step(s, i).state.scopes| == |s.scopes| + Balance([i])
  {
    hide Step, Wellformed, Operation.Defines, NewVariable;
    StepTaken(s, i);
    assert [i][1..] == [];
    if i.operation.IsBlockEnd() {
      AcceptedEnd(s, i);
    }
  }

  /** Accepted code leaves as many more scopes open as it begins blocks without ending them. */
  lemma {:induction false} StepsBalance(s: State, code: seq<Instruction>)
    requires Wellformed(s) && Steps(s, code).Appended?
    ensures |Steps(s, code).state.scopes| == |s.scopes| + Balance(code)
    decreases |code|
  {
    hide Step, Wellformed;
    if code != [] {
      StepBalance(s, code[0]);
      StepsBalance(Step(s, code[0]).state, code[1..]);
      assert code == [code[0]] + code[1..];
      BalanceConcat([code[0]], code[1..]);
    }
  }

  /** A valid program ends every block it begins. */
  lemma ValidIsBalanced(p: Program)
    requires StaticallyValid(p)
    ensures Balance(p.instructions) == 0
  {
    hide Finalize, Steps, Wellformed;
    ValidIffGlobal(p);
    NewWellformed(p.context);
    StepsBalance(New(p.context), p.instructions);
  }

  // ---------------------------------------------------------------------------------------------
  // Code whose replay cannot panic
  // ---------------------------------------------------------------------------------------------

  /** Every block end is inside a block, `depth` of them being open before the code. */
  predicate EndsInside(code: seq<Instruction>, depth: int)
    decreases |code|
  {
    code == [] || ((code[0].operation.IsBlockEnd() ==> depth > 0) && EndsInside(code[1..], depth + Balance([code[0]])))
  }

  lemma BalanceOne(i: Instruction)
    ensures Balance([i]) == if i.operation.IsBlockBegin() then 1 else if i.operation.IsBlockEnd() then -1 else 0
  {
    assert [i][1..] == [];
  }

  lemma {:induction false} EndsInsideConcat(a: seq<Instruction>, b: seq<Instruction>, depth: int)
    ensures EndsInside(a + b, depth) <==> EndsInside(a, depth) && EndsInside(b, depth + Balance(a))
    decreases |a|
  {
    if a == [] {
      assert a + b == b;
    } else {
      assert (a + b)[1..] == a[1..] + b;
      assert a == [a[0]] + a[1..];
      BalanceConcat([a[0]], a[1..]);
      EndsInsideConcat(a[1..], b, depth + Balance([a[0]]));
    }
  }

  lemma {:induction false} AcceptedEndsInside(s: State, code: seq<Instruction>)
    requires Wellformed(s) && Steps(s, code).Appended?
    ensures EndsInside(code, |s.scopes| - 1)
    decreases |code|
  {
    hide Step, Wellformed, Accepts;
    if code != [] {
      StepTaken(s, code[0]);
      if code[0].operation.IsBlockEnd() {
        AcceptedEnd(s, code[0]);
      }
      StepBalance(s, code[0]);
      AcceptedEndsInside(Step(s, code[0]).state, code[1..]);
    }
  }

  lemma {:induction false} EndsInsideNeverPanics(s: State, code: seq<Instruction>)
    requires Wellformed(s) && EndsInside(code, |s.scopes| - 1)
    ensures !Steps(s, code).Panicked?
    decreases |code|
  {
    hide Step, Wellformed;
    if code != [] {
      AppendPanicsExactly(s, code[0]);
      if Step(s, code[0]).Appended? {
        StepBalance(s, code[0]);
        EndsInsideNeverPanics(Step(s, code[0]).state, code[1..]);
      }
    }
  }

  /** In valid code every block end is inside a block, and code of which that is so never panics the builder. */
  lemma ValidEndsInside(p: Program)
    requires StaticallyValid(p)
    ensures EndsInside(p.instructions, 0)
  {
    hide Wellformed, Finalize;
    NewWellformed(p.context);
    AcceptedEndsInside(New(p.context), p.instructions);
  }

  lemma NeverPanics(p: Program)
    requires EndsInside(p.instructions, 0)
    ensures Validity(p) == Some(StaticallyValid(p))
  {
    hide Wellformed;
    NewWellformed(p.context);
    EndsInsideNeverPanics(New(p.context), p.instructions);
  }

  // ---------------------------------------------------------------------------------------------
  // Builders whose caller carries on after a refusal
  // ---------------------------------------------------------------------------------------------

  /** The builder after each of some attempts, whether it was taken or refused. */
  function Attempts(s: State, code: seq<Instruction>): AppendResult
    decreases |code|
  {
    if code == [] then Appended(s)
    else
      match Step(s, code[0])
      case Appended(next) => Attempts(next, code[1..])
      case Rejected(_, left) => Attempts(left, code[1..])
      case Panicked => Panicked
  }

  predicate IsMisclosed(r: AppendResult) {
    r.Rejected? && r.error.InvalidBlockEnd?
  }

  /** How many attempts were block ends of the wrong kind. */
  function Misclosed(s: State, code: seq<Instruction>): nat
    decreases |code|
  {
    if code == [] then 0
    else
      var r := Step(s, code[0]);
      match r
      case Appended(next) => Misclosed(next, code[1..])
      case Rejected(_, left) => (if IsMisclosed(r) then 1 else 0) + Misclosed(left, code[1..])
      case Panicked => 0
  }

  /** A refusal changes nothing, unless it is of a block end of the wrong kind, which loses a scope. */
  lemma RefusalLoses(s: State, i: Instruction)
    requires Wellformed(s) && Step(s, i).Rejected?
    ensures var r := Step(s, i);
      && Wellformed(r.left) && r.left.context == s.context && r.left.instructions == s.instructions
      && (if IsMisclosed(r) then |r.left.scopes| == |s.scopes| - 1 else r.left == s)
  {
    hide FirstInvisible, FirstMismatch, Kinds;
    RejectedWellformed(s, i);
  }

  /** Scopes are lost one to each misclosed attempt, and the code records none of it. */
  lemma {:induction false} AttemptsBalance(s: State, code: seq<Instruction>)
    requires Wellformed(s) && Attempts(s, code).Appended?
    ensures var t := Attempts(s, code).state;
      && Wellformed(t) && t.context == s.context
      && |t.scopes| - |s.scopes| == Balance(t.instructions) - Balance(s.instructions) - Misclosed(s, code)
    decreases |code|
  {
    hide Step, Wellformed, IsMisclosed;
    if code != [] {
      if Step(s, code[0]).Appended? {
        StepTaken(s, code[0]);
        StepBalance(s, code[0]);
        BalanceConcat(s.instructions, [code[0]]);
        AttemptsBalance(Step(s, code[0]).state, code[1..]);
      } else {
        RefusalLoses(s, code[0]);
        AttemptsBalance(Step(s, code[0]).left, code[1..]);
      }
    }
  }

  /** The state is the one its own code replays to. */
  predicate Replays(s: State) {
    FromPrefix(s.context, s.instructions) == Appended(s)
  }

  lemma {:induction false} AttemptsReplay(s: State, code: seq<Instruction>)
    requires Wellformed(s) && Replays(s) && Attempts(s, code).Appended? && Misclosed(s, code) == 0
    ensures Replays(Attempts(s, code).state)
    decreases |code|
  {
    hide Step, Wellformed, Steps;
    if code != [] {
      if Step(s, code[0]).Appended? {
        StepTaken(s, code[0]);
        StepsOne(New(s.context), s.instructions, code[0]);
        AttemptsReplay(Step(s, code[0]).state, code[1..]);
      } else {
        RefusalLoses(s, code[0]);
        AttemptsReplay(Step(s, code[0]).left, code[1..]);
      }
    }
  }

  /** With no misclosed block, whatever was attempted, the program finalized replays to the builder's state. */
  lemma FinalizedReplays(context: ProgramContext, attempts: seq<Instruction>)
    requires Attempts(New(context), attempts).Appended? && Misclosed(New(context), attempts) == 0
    requires Finalize(Attempts(New(context), attempts).state).Success?
    ensures var s := Attempts(New(context), attempts).state;
      var p := Finalize(s).value;
      p.context == context && FromPrefix(p.context, p.instructions) == Appended(s)
  {
    hide Step, Wellformed;
    NewWellformed(context);
    AttemptsReplay(New(context), attempts);
    AttemptsBalance(New(context), attempts);
  }

  /**
   * `finalize` promises a valid program, and keeps the promise exactly when no attempt was a block end of
   * the wrong kind: that refusal leaves the scope it did not end, so the builder forgets an open block.
   */
  lemma FinalizedValidIff(context: ProgramContext, attempts: seq<Instruction>)
    requires Attempts(New(context), attempts).Appended?
    requires Finalize(Attempts(New(context), attempts).state).Success?
    ensures StaticallyValid(Finalize(Attempts(New(context), attempts).state).value)
        <==> Misclosed(New(context), attempts) == 0
  {
    hide Step, Wellformed, Steps;
    var s := Attempts(New(context), attempts).state;
    NewWellformed(context);
    AttemptsBalance(New(context), attempts);
    FinalizesAtGlobal(s);
    if StaticallyValid(Finalize(s).value) {
      ValidIsBalanced(Finalize(s).value);
    }
    if Misclosed(New(context), attempts) == 0 {
      FinalizedReplays(context, attempts);
    }
  }

  /** The shortest history that finalizes to an invalid program: begin a message, end a success block. */
  lemma MisclosedExample(context: ProgramContext)
    ensures var attempts := [Instruction(BeginBuildSetupConnection, []), Instruction(EndOnSetupSuccess, [])];
      && Attempts(New(context), attempts).Appended?
      && Finalize(Attempts(New(context), attempts).state).Success?
      && !StaticallyValid(Finalize(Attempts(New(context), attempts).state).value)
  {
    var begin, end := Instruction(BeginBuildSetupConnection, []), Instruction(EndOnSetupSuccess, []);
    var s := New(context);
    var s1 := Step(s, begin).state;
    assert Step(s, begin).Appended? && s1.scopes == s.scopes + [Scope(Some(0), 2, BuildSetupConnection)];
    assert IsMisclosed(Step(s1, end)) && Step(s1, end).left.scopes == s.scopes;
    var attempts := [begin, end];
    assert attempts[1..] == [end] && [end][1..] == [];
    assert Misclosed(s1, [end]) == 1;
    assert Attempts(s1, [end]) == Appended(Step(s1, end).left);
    FinalizedValidIff(context, attempts);
  }

  /**
   * Checking validity by replay panics on some programs instead of answering: exactly those with a bare
   * success-block end, where the code before it is accepted and leaves no block open.
   */
  lemma {:induction false} ReplayPanicsExactly(context: ProgramContext, code: seq<Instruction>)
    ensures FromPrefix(context, code).Panicked? <==>
      exists k :: 0 <= k < |code| && StrayEnd(context, code, k)
  {
    hide Step, Steps, Wellformed, OpenBlocks;
    if code == [] {
      EmptyReplay(context);
    } else {
      var last := |code| - 1;
      assert code == code[..last] + [code[last]];
      StepsOne(New(context), code[..last], code[last]);
      ReplayPanicsExactly(context, code[..last]);
      forall k | 0 <= k < last ensures StrayEnd(context, code, k) <==> StrayEnd(context, code[..last], k) {
        assert code[..last][..k] == code[..k];
      }
      if FromPrefix(context, code[..last]).Appended? {
        Reached(context, code[..last]);
        AppendPanicsExactly(FromPrefix(context, code[..last]).state, code[last]);
        assert forall k | 0 <= k < last :: !StrayEnd(context, code[..last], k);
        assert StrayEnd(context, code, last) <==> FromPrefix(context, code).Panicked?;
      } else {
        assert !StrayEnd(context, code, last);
      }
    }
  }

  lemma EmptyReplay(context: ProgramContext)
    ensures FromPrefix(context, []).Appended?
  {
  }

  /** Instruction `k` ends a success block where the builder, having taken all before it, has none open. */
  predicate StrayEnd(context: ProgramContext, code: seq<Instruction>, k: nat)
    requires k < |code|
  {
    && FromPrefix(context, code[..k]).Appended?
    && OpenBlocks(code[..k]) == []
    && code[k] == Instruction(EndOnSetupSuccess, [])
  }

  /** The shortest program whose validity check panics: a bare success-block end. */
  lemma ReplayPanicsExample(context: ProgramContext)
    ensures Validity(Program(context, [Instruction(EndOnSetupSuccess, [])])) == None
  {
    hide Step;
    var i := Instruction(EndOnSetupSuccess, []);
    NewWellformed(context);
    AppendPanicsExactly(New(context), i);
  }
}
