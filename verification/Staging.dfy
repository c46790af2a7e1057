/**
 * A reference semantics for programs themselves, with no compiled form: every instruction is staged, in a block that
 * is skipped or not, and what it asks for is carried out as it is reached, or skipped.
 */
module Staging {
  import opened Wrappers
  import opened Ir
  import B = Builder
  import opened Compiler
  import opened Ledger
  import opened Runner
  import opened Blocks

  // ---------------------------------------------------------------------------------------------
  // The first stage: values
  // ---------------------------------------------------------------------------------------------

  /** What is settled of a program whatever happens when it runs. */
  datatype Stage = Stage(values: seq<Value>, connections: nat, sessions: nat, sent: set<nat>)

  function FirstStage(context: ProgramContext): Stage {
    Stage([], context.numConnections, 0, Range(0, context.numConnections))
  }

  /** The stage after an instruction. */
  function Settle(st: Stage, plan: Plan): Stage {
    match plan
    case Define(values) => st.(values := st.values + values)
    case Edit(at, spec) => if at < |st.values| then st.(values := st.values[at := SetupValue(spec)]) else st
    case Open(_) => st.(values := st.values + [ConnectionValue(st.connections)], connections := st.connections + 1)
    case Setup(connection, _, _) =>
      st.(values := st.values + [AttemptValue(st.sessions, connection)], sessions := st.sessions + 1, sent :=
        st.sent + {connection})
    case Enter(_) => st.(values := st.values + [SessionValue])
    case Frame(connection, _, _, _) => st.(sent := st.sent + {connection})
    case _ => st
  }

  // ---------------------------------------------------------------------------------------------
  // The second stage: effects
  // ---------------------------------------------------------------------------------------------

  /** Whether actions are carried out, or skipped with a block, and how many blocks that one and those in it are. */
  datatype Doing = Carrying | Skipping(session: nat, depth: nat)

  datatype Walker = Walker(run: Run, doing: Doing)

  /** What an instruction asks for, its values settled. A block's beginning says nothing of where the block ends. */
  function Effects(st: Stage, plan: Plan): seq<Action> {
    match plan
    case Open(role) => [Action.Connect(st.connections, role)]
    case Setup(connection, spec, protocol) =>
      [SetupFrame(connection, spec), AwaitSetupResponse(connection, st.sessions, protocol, connection !in st.sent)]
    case Enter(session) => [EnterOnSetupSuccess(session, PENDING)]
    case Exit => [ExitBlock]
    case Frame(connection, extension, message, bytes) => [Send(connection, extension, message, false, Raw(bytes))]
    case Emit(action) => [action]
    case _ => []
  }

  /** One action, carried out or skipped. A block whose session was not agreed to is skipped to its own end. */
  function React(peer: Peer, w: Walker, a: Action): Walker {
    match w.doing
    case Carrying =>
      if Unmet(w.run, a) then Walker(Record(w.run, Skipped(SetupAgreed(a.session))), Skipping(a.session, 1))
      else Walker(Perform(peer, w.run, a), Carrying)
    case Skipping(session, depth) =>
      Walker(Record(w.run, Skipped(SetupAgreed(session))),
        if a.EnterOnSetupSuccess? then Skipping(session, depth + 1)
        else if !a.ExitBlock? then w.doing
        else if depth <= 1 then Carrying
        else Skipping(session, depth - 1))
  }

  function ReactAll(peer: Peer, w: Walker, actions: seq<Action>): Walker
    decreases |actions|
  {
    if actions == [] then w else ReactAll(peer, React(peer, w, actions[0]), actions[1..])
  }

  /** Staging the instructions of a program one by one, and carrying out what each asks for. */
  function Walk(peer: Peer, st: Stage, code: seq<Instruction>, w: Walker): Walker
    decreases |code|
  {
    if code == [] || Lower(st.values, code[0]).Failure? then w
    else
      var plan := Lower(st.values, code[0]).value;
      Walk(peer, Settle(st, plan), code[1..], ReactAll(peer, w, Effects(st, plan)))
  }

  function WalkProgram(peer: Peer, p: Program): Run {
    Walk(peer, FirstStage(p.context), p.instructions, Walker(START, Carrying)).run
  }

  // ---------------------------------------------------------------------------------------------
  // Actions that carry no jump targets
  // ---------------------------------------------------------------------------------------------

  lemma {:induction false} ReactAllConcat(peer: Peer, w: Walker, a: seq<Action>, b: seq<Action>)
    ensures ReactAll(peer, w, a + b) == ReactAll(peer, ReactAll(peer, w, a), b)
    decreases |a|
  {
    hide React;
    if a == [] {
      assert a + b == b;
    } else {
      assert (a + b)[1..] == a[1..] + b;
      ReactAllConcat(peer, React(peer, w, a[0]), a[1..], b);
    }
  }

  /** Where a block ends makes no difference. */
  lemma {:induction false} ReactAllIgnoresEnds(peer: Peer, w: Walker, a: seq<Action>, b: seq<Action>)
    requires |a| == |b| && forall j | 0 <= j < |a| :: SameButEnd(a[j], b[j])
    ensures ReactAll(peer, w, a) == ReactAll(peer, w, b)
    decreases |a|
  {
    hide React;
    if a != [] {
      assert SameButEnd(a[0], b[0]);
      ReactIgnoresEnd(peer, w, a[0], b[0]);
      ReactAllIgnoresEnds(peer, React(peer, w, a[0]), a[1..], b[1..]);
    }
  }

  lemma ReactIgnoresEnd(peer: Peer, w: Walker, a: Action, b: Action)
    requires SameButEnd(a, b)
    ensures React(peer, w, a) == React(peer, w, b)
  {
  }

  lemma ReactOne(peer: Peer, w: Walker, a: Action)
    ensures ReactAll(peer, w, [a]) == React(peer, w, a)
  {
    assert [a][1..] == [];
  }

  /** Skipping all the actions of a tree. */
  lemma {:induction false} SkipTree(peer: Peer, t: Tree, base: nat, r: Run, session: nat, depth: nat)
    requires Plain(t) && depth > 0
    ensures ReactAll(peer, Walker(r, Skipping(session, depth)), Flatten(t, base))
         == Walker(Skip(r, session, Size(t)), Skipping(session, depth))
    decreases t
  {
    hide Flatten, Bracket, Perform, ReactAll;
    match t {
      case Nil =>
        FlattenNothing(base);
        SkipNone(r, session);
        ReactNone(peer, Walker(r, Skipping(session, depth)));
      case Do(a, rest) =>
        var w := Walker(r, Skipping(session, depth));
        FlattenDo(a, rest, base);
        ReactAllConcat(peer, w, [a], Flatten(rest, base + 1));
        ReactOne(peer, w, a);
        SkipTree(peer, rest, base + 1, Record(r, Skipped(SetupAgreed(session))), session, depth);
        SkipTwice(r, session, 1, Size(rest));
        SkipOne(r, session);
      case Block(s, body, rest) =>
        var end := base + 1 + Size(body);
        var w := Walker(r, Skipping(session, depth));
        FlattenBlock(s, body, rest, base);
        ReactAllConcat(peer, w, Bracket(s, Flatten(body, base + 1), end), Flatten(rest, end + 1));
        ReactBracket(peer, w, s, Flatten(body, base + 1), end);
        SkipTree(peer, body, base + 1, Skip(r, session, 1), session, depth + 1);
        SkipTree(peer, rest, end + 1, Skip(r, session, Size(body) + 2), session, depth);
        SkipOne(r, session);
        SkipTwice(r, session, 1, Size(body));
        SkipOne(Skip(r, session, 1 + Size(body)), session);
        SkipTwice(r, session, 1 + Size(body), 1);
        SkipTwice(r, session, Size(body) + 2, Size(rest));
    }
  }

  lemma ReactBracket(peer: Peer, w: Walker, session: nat, body: seq<Action>, end: nat)
    ensures ReactAll(peer, w, Bracket(session, body, end))
         == React(peer, ReactAll(peer, React(peer, w, EnterOnSetupSuccess(session, end)), body), ExitBlock)
  {
    hide React, ReactAll;
    var enter := EnterOnSetupSuccess(session, end);
    ReactAllConcat(peer, w, [enter] + body, [ExitBlock]);
    ReactAllConcat(peer, w, [enter], body);
    ReactOne(peer, w, enter);
    ReactOne(peer, ReactAll(peer, w, [enter] + body), ExitBlock);
  }

  lemma SkipNone(r: Run, session: nat)
    ensures Skip(r, session, 0) == r
  {
    assert r.outcomes + Repeated(Skipped(SetupAgreed(session)), 0) == r.outcomes;
  }

  lemma ReactNone(peer: Peer, w: Walker)
    ensures ReactAll(peer, w, []) == w
  {
  }

  lemma SkipOne(r: Run, session: nat)
    ensures Skip(r, session, 1) == Record(r, Skipped(SetupAgreed(session)))
  {
    assert Repeated(Skipped(SetupAgreed(session)), 1) == [Skipped(SetupAgreed(session))];
  }

  lemma SkipTwice(r: Run, session: nat, m: nat, n: nat)
    ensures Skip(Skip(r, session, m), session, n) == Skip(r, session, m + n)
  {
    assert Repeated(Skipped(SetupAgreed(session)), m) + Repeated(Skipped(SetupAgreed(session)), n)
        == Repeated(Skipped(SetupAgreed(session)), m + n);
  }

  /** Reacting to all the actions of a tree is interpreting it. */
  lemma {:induction false} ReactInterprets(peer: Peer, t: Tree, base: nat, r: Run)
    requires Plain(t)
    ensures ReactAll(peer, Walker(r, Carrying), Flatten(t, base)) == Walker(Interpret(peer, t, r), Carrying)
    decreases t
  {
    hide Flatten, Bracket, Perform, ReactAll;
    var w := Walker(r, Carrying);
    match t {
      case Nil =>
        FlattenNothing(base);
        ReactNone(peer, w);
      case Do(a, rest) =>
        FlattenDo(a, rest, base);
        ReactAllConcat(peer, w, [a], Flatten(rest, base + 1));
        ReactOne(peer, w, a);
        ReactInterprets(peer, rest, base + 1, Perform(peer, r, a));
      case Block(s, body, rest) =>
        var end := base + 1 + Size(body);
        var inner := Flatten(body, base + 1);
        FlattenBlock(s, body, rest, base);
        ReactAllConcat(peer, w, Bracket(s, inner, end), Flatten(rest, end + 1));
        ReactBlock(peer, s, body, base, r);
        var after := if IsEstablished(r, s)
          then Record(Interpret(peer, body, Record(r, Completed(NoResponse))), Completed(NoResponse))
          else Skip(r, s, Size(body) + 2);
        if IsEstablished(r, s) {
          ReactInterprets(peer, body, base + 1, Record(r, Completed(NoResponse)));
          PerformMarker(peer, Interpret(peer, body, Record(r, Completed(NoResponse))), ExitBlock);
        }
        ReactInterprets(peer, rest, end + 1, after);
    }
  }

  /** One block: its body between two markers, or all of it skipped. */
  lemma ReactBlock(peer: Peer, session: nat, body: Tree, base: nat, r: Run)
    requires Plain(body)
    ensures var inner, entered := Flatten(body, base + 1), Record(r, Completed(NoResponse));
      ReactAll(peer, Walker(r, Carrying), Bracket(session, inner, base + 1 + Size(body))) ==
      if !IsEstablished(r, session) then Walker(Skip(r, session, Size(body) + 2), Carrying)
      else React(peer, ReactAll(peer, Walker(entered, Carrying), inner), ExitBlock)
  {
    hide Flatten, Bracket, Perform, ReactAll;
    var end := base + 1 + Size(body);
    var enter := EnterOnSetupSuccess(session, end);
    ReactBracket(peer, Walker(r, Carrying), session, Flatten(body, base + 1), end);
    PerformMarker(peer, r, enter);
    if !IsEstablished(r, session) {
      SkipOne(r, session);
      SkipTree(peer, body, base + 1, Skip(r, session, 1), session, 1);
      SkipTwice(r, session, 1, Size(body));
      SkipOne(Skip(r, session, 1 + Size(body)), session);
      SkipTwice(r, session, 1 + Size(body), 1);
    }
  }

  // ---------------------------------------------------------------------------------------------
  // The compiler settles the same stage, and emits the same effects
  // ---------------------------------------------------------------------------------------------

  function StageOf(c: State): Stage {
    Stage(c.values, c.connections, c.sessions, c.sent)
  }

  lemma ApplySettles(c: State, index: nat, plan: Plan, d: State)
    requires Apply(c, index, plan) == Success(d)
    ensures StageOf(d) == Settle(StageOf(c), plan) && Emitted(c, plan) == Effects(StageOf(c), plan)
  {
  }

  lemma {:induction false} EndsOnly(c: State, code: seq<Instruction>, index: nat)
    requires CompileAll(c, code, index).Success?
    ensures var d := CompileAll(c, code, index).value;
      |c.actions| <= |d.actions| && forall j | 0 <= j < |c.actions| :: SameButEnd(c.actions[j], d.actions[j])
    decreases |code|
  {
    hide Lower, Apply, Emitted, SameButEnd;
    if code == [] {
      SameItself(c.actions);
    } else {
      var plan := Lower(c.values, code[0]).value;
      var d := Apply(c, index, plan).value;
      ApplyEmits(c, index, plan, d);
      EndsOnly(d, code[1..], index + 1);
      SameThrough(c.actions, d.actions, CompileAll(c, code, index).value.actions);
    }
  }

  lemma SameItself(actions: seq<Action>)
    ensures forall j | 0 <= j < |actions| :: SameButEnd(actions[j], actions[j])
  {
  }

  lemma SameThrough(a: seq<Action>, b: seq<Action>, c: seq<Action>)
    requires |a| <= |b| <= |c|
    requires forall j | 0 <= j < |a| :: SameButEnd(a[j], b[j])
    requires forall j | 0 <= j < |b| :: SameButEnd(b[j], c[j])
    ensures forall j | 0 <= j < |a| :: SameButEnd(a[j], c[j])
  {
    forall j | 0 <= j < |a| ensures SameButEnd(a[j], c[j]) {
      assert SameButEnd(a[j], b[j]) && SameButEnd(b[j], c[j]);
    }
  }

  /** Walking code is reacting to the actions it compiles to. */
  lemma {:induction false} WalkReacts(peer: Peer, c: State, code: seq<Instruction>, index: nat, w: Walker)
    requires CompileAll(c, code, index).Success?
    ensures var d := CompileAll(c, code, index).value;
      |c.actions| <= |d.actions| && Walk(peer, StageOf(c), code, w) == ReactAll(peer, w, d.actions[|c.actions|..])
    decreases |code|
  {
    hide Lower, Apply, Emitted, SameButEnd, Settle, Effects, React, ReactAll;
    var d := CompileAll(c, code, index).value;
    EndsOnly(c, code, index);
    if code == [] {
      assert d.actions[|c.actions|..] == [];
      ReactNone(peer, w);
    } else {
      var plan := Lower(c.values, code[0]).value;
      var next := Apply(c, index, plan).value;
      ApplySettles(c, index, plan, next);
      ApplyEmits(c, index, plan, next);
      EndsOnly(next, code[1..], index + 1);
      var effects := Effects(StageOf(c), plan);
      WalkReacts(peer, next, code[1..], index + 1, ReactAll(peer, w, effects));
      var emitted, rest := d.actions[|c.actions|..|next.actions|], d.actions[|next.actions|..];
      assert d.actions[|c.actions|..] == emitted + rest;
      ReactAllConcat(peer, w, emitted, rest);
      forall j | 0 <= j < |effects| ensures SameButEnd(effects[j], emitted[j]) {
        assert SameButEnd(next.actions[|c.actions| + j], d.actions[|c.actions| + j]);
      }
      ReactAllIgnoresEnds(peer, w, effects, emitted);
    }
  }

  /**
   * Compiling is right: for every valid program that compiles and every peer, running its flat actions by their
   * back-patched jumps is walking the program itself, which knows of no jumps and no compiled form. Values are
   * settled even in blocks that are skipped, and effects only happen outside them.
   */
  lemma RunRefinesWalk(peer: Peer, p: Program)
    requires B.StaticallyValid(p) && Compile(p).Success?
    ensures Forward(Compile(p).value.actions)
    ensures RunProgram(peer, Compile(p).value) == WalkProgram(peer, p)
  {
    hide B.StaticallyValid, CompileAll, Flatten, Parse, Interpret, Forward, RunFrom, At, Walk, ReactAll;
    var actions := Compile(p).value.actions;
    RunRefinesBlocks(peer, p);
    CompiledIsFlattened(p);
    CompiledStands(p);
    ReactInterprets(peer, TreeOf(actions), 0, START);
    WalkReacts(peer, Initial(p.context), p.instructions, 0, Walker(START, Carrying));
    assert actions[0..] == actions;
  }
}
