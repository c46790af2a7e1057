/** A setup that is not marked first, and is the first frame the peer is sent on its connection all the same. */
module Overtaken {
  import opened Wrappers
  import opened Ir
  import B = Builder
  import opened Scoping
  import opened Renaming
  import opened Compiler
  import opened Soundness
  import opened Events
  import opened Runner
  import opened Blocks
  import opened Generators
  import opened Fragments
  import opened Owed

  const SETUP: Setup := Setup.Setup(Mining, 2, 2, 0, false, false)

  const BEGIN: Instruction := Instruction(BeginOnSetupSuccess(Mining), [9])
  const END: Instruction := Instruction(EndOnSetupSuccess, [])

  /** Two connections, and a setup on the first. */
  function Opening(): seq<Instruction> {
    OpenCode(0, 0) + OpenCode(0, 2) + SetupCode(4, 1, SETUP)
  }

  /** A raw frame on the second, conditional on that setup's success. */
  function Conditional(): seq<Instruction> {
    [BEGIN] + RawCode(3, 11, [], 0, 0) + [END]
  }

  /** And then a setup on the second. */
  function Code(): seq<Instruction> {
    Opening() + Conditional() + SetupCode(12, 3, SETUP)
  }

  const EXAMPLE: Program := Program(ProgramContext(1, 0, 0), Code())

  // ---------------------------------------------------------------------------------------------
  // The program is valid
  // ---------------------------------------------------------------------------------------------

  lemma BeginTaken(s: B.State, attempt: nat, protocol: Protocol)
    requires Wellformed(s) && Has(s, attempt, AttemptVar(protocol))
    ensures var r := B.Step(s, Instruction(BeginOnSetupSuccess(protocol), [attempt]));
      && r.Appended? && Over(s, r.state) && |r.state.variables| == |s.variables| + 1
      && |r.state.scopes| == |s.scopes| + 1 && r.state.scopes[|s.scopes|].context == OnSetupSuccess
  {
    hide B.Step, Housed, ScopeOpenedBy;
    StepTaken(s, Instruction(BeginOnSetupSuccess(protocol), [attempt]));
  }

  lemma EndsTaken(s: B.State, t: B.State)
    requires Over(s, t) && |t.scopes| == |s.scopes| + 1 && t.scopes[|s.scopes|].context == OnSetupSuccess
    ensures var r := B.Step(t, END);
      r.Appended? && Over(s, r.state) && r.state.scopes == s.scopes && |r.state.variables| == |t.variables|
  {
    hide B.Step, Housed, ScopeOpenedBy;
    StepTaken(t, END);
    assert t.scopes[..|t.scopes| - 1] == s.scopes;
  }

  /** The builder after the opening, and after the block. */
  lemma OpeningTaken() returns (s: B.State)
    ensures B.Steps(B.New(EXAMPLE.context), Opening()) == B.Appended(s) && Wellformed(s)
    ensures |s.scopes| == 1 && |s.variables| == 10 && Has(s, 9, AttemptVar(Mining)) && Has(s, 3, ConnectionVar)
  {
    hide B.Step, B.Steps, Wellformed, Has, OpenCode, SetupCode;
    var s0 := B.New(EXAMPLE.context);
    NewWellformed(EXAMPLE.context);
    OpenTaken(s0, 0);
    var s1 := B.Steps(s0, OpenCode(0, 0)).state;
    OpenTaken(s1, 0);
    var s2 := B.Steps(s1, OpenCode(0, 2)).state;
    assert Has(s1, 0 + 1, [RoleVar, ConnectionVar][1]) && Has(s2, 2 + 1, [RoleVar, ConnectionVar][1]);
    StillHas(s1, s2, 1, ConnectionVar);
    SetupTaken(s2, 1, SETUP);
    s := B.Steps(s2, SetupCode(4, 1, SETUP)).state;
    StillHas(s2, s, 3, ConnectionVar);
    B.StepsConcat(s0, OpenCode(0, 0), OpenCode(0, 2));
    B.StepsConcat(s0, OpenCode(0, 0) + OpenCode(0, 2), SetupCode(4, 1, SETUP));
  }

  lemma ConditionalTaken(s: B.State) returns (t: B.State)
    requires Wellformed(s) && |s.scopes| == 1 && |s.variables| == 10 && Has(s, 9, AttemptVar(Mining))
      && Has(s, 3, ConnectionVar)
    ensures B.Steps(s, Conditional()) == B.Appended(t) && Wellformed(t)
    ensures |t.scopes| == 1 && |t.variables| == 12 && Has(t, 3, ConnectionVar)
  {
    hide B.Step, B.Steps, Wellformed, Has, RawCode;
    BeginTaken(s, 9, Mining);
    var s1 := B.Step(s, BEGIN).state;
    StepsOnce(s, BEGIN);
    StillHas(s, s1, 3, ConnectionVar);
    RawTaken(s1, 3, [], 0, 0);
    var s2 := B.Steps(s1, RawCode(3, 11, [], 0, 0)).state;
    OverBoth(s, s1, s2);
    EndsTaken(s, s2);
    t := B.Step(s2, END).state;
    StepsOnce(s2, END);
    StillHas(s, t, 3, ConnectionVar);
    B.StepsConcat(s, [BEGIN], RawCode(3, 11, [], 0, 0));
    B.StepsConcat(s, [BEGIN] + RawCode(3, 11, [], 0, 0), [END]);
  }

  lemma OverBoth(s: B.State, t: B.State, u: B.State)
    requires Over(s, t) && Over(t, u)
    ensures Over(s, u)
  {
    hide Wellformed;
  }

  lemma ExampleValid()
    ensures B.StaticallyValid(EXAMPLE)
  {
    hide B.Step, B.Steps, Wellformed, Has, Opening, Conditional, SetupCode, B.Finalize;
    var s := OpeningTaken();
    var t := ConditionalTaken(s);
    SetupTaken(t, 3, SETUP);
    B.StepsConcat(B.New(EXAMPLE.context), Opening(), Conditional());
    B.StepsConcat(B.New(EXAMPLE.context), Opening() + Conditional(), SetupCode(12, 3, SETUP));
    ValidIffGlobal(EXAMPLE);
  }

  // ---------------------------------------------------------------------------------------------
  // What it compiles to
  // ---------------------------------------------------------------------------------------------

  const SPEC: SetupSpec := SpecOf(SETUP)

  /** The last setup's await is action 8, and not marked first. */
  const ACTIONS: seq<Action> := [
    Action.Connect(0, 0), Action.Connect(1, 0), SetupFrame(0, SPEC), AwaitSetupResponse(0, 0, Mining, true),
    EnterOnSetupSuccess(0, 6), Send(1, 0, 0, false, Raw([])), ExitBlock,
    SetupFrame(1, SPEC), AwaitSetupResponse(1, 1, Mining, false)]

  lemma OpeningCompiles() returns (c: State)
    ensures CompileAll(Initial(EXAMPLE.context), Opening(), 0) == Success(c)
    ensures |c.values| == 10 && c.values[9] == AttemptValue(0, 0) && c.values[3] == ConnectionValue(1)
    ensures c.actions == ACTIONS[..4] && c.sessions == 1 && c.sent == {0} && c.blocks == []
  {
    hide CompileAll, CompileStep, OpenCode, SetupCode, SpecOf;
    var c0 := Initial(EXAMPLE.context);
    OpenCompiles(c0, 0, 0);
    var c1 := OpenOn(PushValues(c0, [RoleValue(0)]), 1, 0);
    OpenLength(0, 0);
    OpenLength(0, 2);
    OpenCompiles(c1, 0, 2);
    var c2 := OpenOn(PushValues(c1, [RoleValue(0)]), 3, 0);
    CompileTwo(c0, c1, c2, OpenCode(0, 0), OpenCode(0, 2), 0);
    var d, last := SetupCompiles(c2, 1, 0, SETUP, 4);
    c := SetupOn(d, last, 0, SPEC, Mining);
    CompileTwo(c0, c2, c, OpenCode(0, 0) + OpenCode(0, 2), SetupCode(4, 1, SETUP), 0);
    assert c.values[3] == c2.values[3];
  }

  lemma OpenLength(role: nat, n: nat)
    ensures |OpenCode(role, n)| == 2
  {
    LiteralsCount([LoadRole(role)]);
  }

  lemma ConditionalCompiles(c: State, index: nat) returns (d: State)
    requires |c.values| == 10 && c.values[9] == AttemptValue(0, 0) && c.values[3] == ConnectionValue(1)
    requires c.actions == ACTIONS[..4] && c.sessions == 1 && c.sent == {0} && c.blocks == []
    ensures CompileAll(c, Conditional(), index) == Success(d)
    ensures |d.values| == 12 && d.values[3] == ConnectionValue(1)
    ensures d.actions == ACTIONS[..7] && d.sessions == 1 && d.sent == {0, 1} && d.blocks == []
  {
    hide CompileAll, CompileStep, RawCode, SpecOf, EnterOn, FrameOn, PushValues, ExitOn;
    var raw := RawCode(3, 11, [], 0, 0);
    BeginStep(c, index);
    var c1 := EnterOn(c, index, 0);
    CompileOne(c, BEGIN, index);
    RawCompiles(c1, 3, 1, [], 0, 0, index + 1);
    var at := index + 1 + |raw|;
    var c2 := FrameOn(PushValues(c1, [BytesValue([])]), index + 2, 1, 0, 0, []);
    CompileTwo(c, c1, c2, [BEGIN], raw, index);
    EndStep(c2, at);
    FrameExits(c1, c2, index, at);
    d := ExitOn(c2, at).value;
    CompileOne(c2, END, at);
    CompileTwo(c, c2, d, [BEGIN] + raw, [END], index);
    assert d.actions == ACTIONS[..7];
  }

  lemma BeginStep(c: State, index: nat)
    requires |c.values| == 10 && c.values[9] == AttemptValue(0, 0) && c.values[3] == ConnectionValue(1)
    ensures var d := EnterOn(c, index, 0);
      && CompileStep(c, index, BEGIN) == Success(d)
      && |d.values| == 11 && d.values[3] == ConnectionValue(1) && d.sessions == c.sessions && d.sent == c.sent
      && d.actions == c.actions + [EnterOnSetupSuccess(0, PENDING)] && d.blocks == c.blocks + [|c.actions|]
  {
  }

  lemma EndStep(c: State, index: nat)
    ensures CompileStep(c, index, END) == ExitOn(c, index)
  {
  }

  lemma FrameExits(c1: State, c2: State, index: nat, at: nat)
    requires |c1.actions| == 5 && c1.actions[4] == EnterOnSetupSuccess(0, PENDING) && c1.blocks == [4]
    requires c2 == FrameOn(PushValues(c1, [BytesValue([])]), index + 2, 1, 0, 0, [])
    ensures var d := ExitOn(c2, at);
      && d.Success? && d.value.values == c1.values + [BytesValue([])]
      && d.value.actions == c1.actions[..4] + [EnterOnSetupSuccess(0, 6), Send(1, 0, 0, false, Raw([])), ExitBlock]
      && d.value.sessions == c1.sessions && d.value.sent == c1.sent + {1} && d.value.blocks == []
  {
  }

  lemma ExampleCompiles()
    ensures Compile(EXAMPLE).Success? && Compile(EXAMPLE).value.actions == ACTIONS
  {
    hide CompileAll, CompileStep, Opening, Conditional, SetupCode, SpecOf;
    var c := OpeningCompiles();
    var d := ConditionalCompiles(c, |Opening()|);
    CompileTwo(Initial(EXAMPLE.context), c, d, Opening(), Conditional(), 0);
    var at := |Opening() + Conditional()|;
    var e, last := SetupCompiles(d, 3, 1, SETUP, at);
    CompileTwo(Initial(EXAMPLE.context), d, SetupOn(e, last, 1, SPEC, Mining), Opening() + Conditional(),
      SetupCode(12, 3, SETUP), 0);
  }

  // ---------------------------------------------------------------------------------------------
  // A run of it
  // ---------------------------------------------------------------------------------------------

  /** Connections open, sends go through, and nothing is ever answered. */
  function Mute(): Peer {
    Peer((_, _, _) => true, (_, _) => None, (_, _, _) => Window([], Timeout), (_, _) => [])
  }

  lemma RunOn(n: nat, r: Run)
    requires Forward(ACTIONS) && n < |ACTIONS| && !Unmet(r, ACTIONS[n])
    ensures RunFrom(Mute(), ACTIONS, n, r) == RunFrom(Mute(), ACTIONS, n + 1, Perform(Mute(), r, ACTIONS[n]))
  {
    hide Perform, ACTIONS;
    RunStep(Mute(), ACTIONS, n, r);
  }

  lemma ActionsForward()
    ensures Forward(ACTIONS)
  {
    hide SPEC;
  }

  /** The run has these connections open, and these outcomes. */
  predicate Stands(r: Run, open: set<nat>, outcomes: seq<Outcome>) {
    r.links == open && r.states.Keys == open && r.outcomes == outcomes
  }

  lemma MuteConnects(r: Run, open: set<nat>, outcomes: seq<Outcome>, c: nat)
    requires Stands(r, open, outcomes)
    ensures Stands(Perform(Mute(), r, Action.Connect(c, 0)), open + {c}, outcomes + [Completed(NoResponse)])
  {
  }

  lemma MuteSends(r: Run, open: set<nat>, outcomes: seq<Outcome>, a: Action)
    requires Stands(r, open, outcomes) && a.Send? && a.connection in open
    ensures var r' := Perform(Mute(), r, a);
      Stands(r', open, outcomes + [Completed(NoResponse)]) && r'.sessions == r.sessions
  {
  }

  lemma MuteAwaits(r: Run, open: set<nat>, outcomes: seq<Outcome>, a: Action)
    requires Stands(r, open, outcomes) && a.AwaitSetupResponse? && a.connection in open
    ensures var r' := Perform(Mute(), r, a);
      Stands(r', open, outcomes + [TimedOut]) && !IsEstablished(r', a.session)
  {
  }

  lemma MuteSkips(r: Run)
    requires Forward(ACTIONS) && !IsEstablished(r, 0)
    ensures RunFrom(Mute(), ACTIONS, 4, r) == RunFrom(Mute(), ACTIONS, 7, Skip(r, 0, 3))
  {
    hide RunFrom, SPEC, Forward;
    RunStep(Mute(), ACTIONS, 4, r);
  }

  /** The first setup is sent and not answered. */
  lemma MuteStart() returns (r: Run)
    ensures Forward(ACTIONS) && RunFrom(Mute(), ACTIONS, 0, START) == RunFrom(Mute(), ACTIONS, 4, r)
    ensures |r.outcomes| == 4 && Stands(r, {0, 1}, r.outcomes) && !IsEstablished(r, 0)
  {
    hide RunFrom, SPEC, Perform, IsEstablished, Forward;
    ActionsForward();
    var peer, done := Mute(), Completed(NoResponse);
    RunOn(0, START);
    MuteConnects(START, {}, [], 0);
    var r1 := Perform(peer, START, ACTIONS[0]);
    RunOn(1, r1);
    MuteConnects(r1, {0}, [done], 1);
    var r2 := Perform(peer, r1, ACTIONS[1]);
    RunOn(2, r2);
    MuteSends(r2, {0, 1}, [done, done], ACTIONS[2]);
    var r3 := Perform(peer, r2, ACTIONS[2]);
    RunOn(3, r3);
    MuteAwaits(r3, {0, 1}, [done, done, done], ACTIONS[3]);
    r := Perform(peer, r3, ACTIONS[3]);
  }

  /** So the block's frame is skipped, and the second setup sent and not answered either. */
  lemma MuteRun() returns (r: Run)
    ensures Forward(ACTIONS) && r == RunFrom(Mute(), ACTIONS, 0, START)
    ensures |r.outcomes| == 9 && r.outcomes[5].Skipped? && r.outcomes[8] == TimedOut
  {
    hide RunFrom, SPEC, Perform, IsEstablished, Forward;
    var r4 := MuteStart();
    MuteSkips(r4);
    var r7 := Skip(r4, 0, 3);
    RunOn(7, r7);
    MuteSends(r7, {0, 1}, r7.outcomes, ACTIONS[7]);
    var r8 := Perform(Mute(), r7, ACTIONS[7]);
    RunOn(8, r8);
    MuteAwaits(r8, {0, 1}, r8.outcomes, ACTIONS[8]);
    r := Perform(Mute(), r8, ACTIONS[8]);
    RunEnd(Mute(), ACTIONS, r);
  }

  /**
   * In this run of a compiled valid program the setup on the second connection is not marked first, since a raw frame
   * comes before it in the program; yet it is the first frame the peer is sent there, that raw frame being skipped.
   */
  lemma NotMarkedYetFirst() returns (r: Run, k: nat)
    ensures B.StaticallyValid(EXAMPLE) && Compile(EXAMPLE).Success? && Compile(EXAMPLE).value.actions == ACTIONS
    ensures Forward(ACTIONS) && r == RunProgram(Mute(), Compile(EXAMPLE).value)
    ensures !ACTIONS[8].firstOnConnection && |r.outcomes| == 9 && !r.outcomes[8].Skipped?
    ensures 0 < k && Awaits(r.calls, k, ACTIONS[8]) && r.calls[k - 1].Sending? && r.calls[k - 1].connection == 1
    ensures !Heard(r.calls, k - 1, 1)
  {
    hide B.StaticallyValid, Compile, RunFrom, SPEC, Heard, Forward;
    ExampleValid();
    ExampleCompiles();
    r := MuteRun();
    OwedIsFirst(Mute(), EXAMPLE, 8);
    assert FirstHeard(ACTIONS, r.outcomes, 8);
    k :| 0 < k && Awaits(r.calls, k, ACTIONS[8]) && r.calls[k - 1].Sending? && r.calls[k - 1].connection == 1
      && (!Heard(r.calls, k - 1, 1) <==> FirstHeard(ACTIONS, r.outcomes, 8));
  }
}
