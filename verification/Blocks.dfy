/** The block structure of compiled actions, and running it recursively instead of by skip jumps. */
module Blocks {
  import opened Ir
  import B = Builder
  import opened Scoping
  import opened Compiler
  import opened Soundness
  import opened Simulation
  import opened Ledger
  import opened Runner

  /** Actions as nested blocks, with no jump targets. */
  datatype Tree =
    | Nil
    | Do(action: Action, rest: Tree)
    | Block(session: nat, body: Tree, rest: Tree)

  function Size(t: Tree): nat {
    match t
    case Nil => 0
    case Do(_, rest) => 1 + Size(rest)
    case Block(_, body, rest) => Size(body) + 2 + Size(rest)
  }

  function Join(t: Tree, u: Tree): Tree {
    match t
    case Nil => u
    case Do(a, rest) => Do(a, Join(rest, u))
    case Block(s, body, rest) => Block(s, body, Join(rest, u))
  }

  /** The flat actions of a tree whose first action is number `base`, each enter naming its exit. */
  function Flatten(t: Tree, base: nat): (actions: seq<Action>)
    ensures |actions| == Size(t)
  {
    match t
    case Nil => []
    case Do(a, rest) => [a] + Flatten(rest, base + 1)
    case Block(s, body, rest) =>
      var end := base + 1 + Size(body);
      Bracket(s, Flatten(body, base + 1), end) + Flatten(rest, end + 1)
  }

  /** A block around some actions. */
  function Bracket(session: nat, body: seq<Action>, end: nat): (actions: seq<Action>)
    ensures |actions| == |body| + 2
  {
    [EnterOnSetupSuccess(session, end)] + body + [ExitBlock]
  }

  lemma FlattenDo(a: Action, rest: Tree, base: nat)
    ensures Flatten(Do(a, rest), base) == [a] + Flatten(rest, base + 1)
  {
  }

  lemma FlattenBlock(session: nat, body: Tree, rest: Tree, base: nat)
    ensures var end := base + 1 + Size(body);
      Flatten(Block(session, body, rest), base) == Bracket(session, Flatten(body, base + 1), end)
        + Flatten(rest, end + 1)
  {
  }

  lemma Reassociate<T>(a: seq<T>, b: seq<T>, c: seq<T>)
    ensures a + (b + c) == (a + b) + c
  {
  }

  lemma {:induction false} FlattenJoin(t: Tree, u: Tree, base: nat)
    ensures Flatten(Join(t, u), base) == Flatten(t, base) + Flatten(u, base + Size(t))
  {
    hide Bracket, Flatten, Size, Join;
    match t {
      case Nil => JoinNil(u, base);
      case Do(a, rest) =>
        FlattenJoin(rest, u, base + 1);
        JoinDo(a, rest, u, base);
      case Block(s, body, rest) =>
        FlattenJoin(rest, u, base + 1 + Size(body) + 1);
        JoinBlock(s, body, rest, u, base);
    }
  }

  lemma JoinNil(u: Tree, base: nat)
    ensures Flatten(Join(Nil, u), base) == Flatten(Nil, base) + Flatten(u, base + Size(Nil))
  {
  }

  lemma JoinDo(a: Action, rest: Tree, u: Tree, base: nat)
    requires Flatten(Join(rest, u), base + 1) == Flatten(rest, base + 1) + Flatten(u, base + 1 + Size(rest))
    ensures Flatten(Join(Do(a, rest), u), base) == Flatten(Do(a, rest), base) + Flatten(u, base + Size(Do(a, rest)))
  {
    hide Flatten;
    FlattenDo(a, rest, base);
    FlattenDo(a, Join(rest, u), base);
    Reassociate([a], Flatten(rest, base + 1), Flatten(u, base + 1 + Size(rest)));
  }

  lemma JoinBlock(s: nat, body: Tree, rest: Tree, u: Tree, base: nat)
    requires var end := base + 1 + Size(body);
      Flatten(Join(rest, u), end + 1) == Flatten(rest, end + 1) + Flatten(u, end + 1 + Size(rest))
    ensures Flatten(Join(Block(s, body, rest), u), base)
         == Flatten(Block(s, body, rest), base) + Flatten(u, base + Size(Block(s, body, rest)))
  {
    hide Flatten, Bracket;
    var end := base + 1 + Size(body);
    FlattenBlock(s, body, rest, base);
    FlattenBlock(s, body, Join(rest, u), base);
    Reassociate(Bracket(s, Flatten(body, base + 1), end), Flatten(rest, end + 1), Flatten(u, end + 1 + Size(rest)));
  }

  // ---------------------------------------------------------------------------------------------
  // Reading the structure off flat actions, whatever their jump targets say
  // ---------------------------------------------------------------------------------------------

  /** A tree under construction: what is done at each level that is still open. */
  datatype Open =
    | Top(done: Tree)
    | Inside(outer: Open, session: nat, done: Tree)

  function Add(z: Open, t: Tree): Open {
    match z
    case Top(done) => Top(Join(done, t))
    case Inside(outer, s, done) => Inside(outer, s, Join(done, t))
  }

  function ParseOne(z: Open, a: Action): Open {
    match a
    case EnterOnSetupSuccess(s, _) => Inside(z, s, Nil)
    case ExitBlock => if z.Inside? then Add(z.outer, Block(z.session, z.done, Nil)) else z
    case _ => Add(z, Do(a, Nil))
  }

  function Parse(actions: seq<Action>): Open {
    if actions == [] then Top(Nil) else ParseOne(Parse(actions[..|actions| - 1]), actions[|actions| - 1])
  }

  /** The tree of actions whose blocks are all closed. */
  function TreeOf(actions: seq<Action>): Tree {
    Parse(actions).done
  }

  /** The flat actions of a tree under construction: the ends of open blocks are pending. */
  function FlattenOpen(z: Open): seq<Action> {
    match z
    case Top(done) => Flatten(done, 0)
    case Inside(outer, s, done) =>
      var before := FlattenOpen(outer);
      before + [EnterOnSetupSuccess(s, PENDING)] + Flatten(done, |before| + 1)
  }

  /** Where the blocks still open were entered. */
  function Enters(z: Open): seq<nat> {
    match z
    case Top(_) => []
    case Inside(outer, _, _) => Enters(outer) + [|FlattenOpen(outer)|]
  }

  lemma AddFlattens(z: Open, t: Tree)
    ensures FlattenOpen(Add(z, t)) == FlattenOpen(z) + Flatten(t, |FlattenOpen(z)|)
    ensures Enters(Add(z, t)) == Enters(z)
  {
    hide Flatten;
    FlattenJoin(z.done, t, if z.Top? then 0 else |FlattenOpen(z.outer)| + 1);
  }

  lemma ParseOneMore(actions: seq<Action>, a: Action)
    ensures Parse(actions + [a]) == ParseOne(Parse(actions), a)
  {
    assert (actions + [a])[..|actions|] == actions;
  }

  /** Jump targets do not matter to the structure. */
  lemma {:induction false} ParseIgnoresEnds(a: seq<Action>, b: seq<Action>)
    requires |a| == |b| && forall j | 0 <= j < |a| :: SameButEnd(a[j], b[j])
    ensures Parse(a) == Parse(b)
  {
    if a != [] {
      var last := |a| - 1;
      ParseIgnoresEnds(a[..last], b[..last]);
      assert SameButEnd(a[last], b[last]);
    }
  }

  /** The compiler's actions are the flattening of their own structure, and its open blocks those left open in it. */
  ghost predicate Structured(c: State) {
    FlattenOpen(Parse(c.actions)) == c.actions && Enters(Parse(c.actions)) == c.blocks
  }

  lemma EmitStructured(c: State, added: seq<Action>, d: State)
    requires Structured(c) && d.actions == c.actions + added && d.blocks == c.blocks
    requires forall a | a in added :: !a.EnterOnSetupSuccess? && !a.ExitBlock?
    ensures Structured(d)
    decreases |added|
  {
    hide Structured;
    if added == [] {
      assert d.actions == c.actions;
      SameStructured(c, d);
    } else {
      var mid := c.(actions := c.actions + [added[0]]);
      EmitOneStructured(c, added[0], mid);
      assert d.actions == mid.actions + added[1..];
      EmitStructured(mid, added[1..], d);
    }
  }

  lemma SameStructured(c: State, d: State)
    requires Structured(c) && d.actions == c.actions && d.blocks == c.blocks
    ensures Structured(d)
  {
    hide Parse, FlattenOpen, Enters;
  }

  lemma EmitOneStructured(c: State, a: Action, d: State)
    requires Structured(c) && d.actions == c.actions + [a] && d.blocks == c.blocks && !a.EnterOnSetupSuccess?
      && !a.ExitBlock?
    ensures Structured(d)
  {
    hide Parse, FlattenOpen, Enters, Add, Flatten;
    ParseOneMore(c.actions, a);
    AddFlattens(Parse(c.actions), Do(a, Nil));
    FlattenDo(a, Nil, |c.actions|);
    FlattenNothing(|c.actions| + 1);
  }

  lemma FlattenNothing(base: nat)
    ensures Flatten(Nil, base) == []
  {
  }

  lemma EnterStructured(c: State, index: nat, session: nat)
    requires Structured(c)
    ensures Structured(EnterOn(c, index, session))
  {
    ParseOneMore(c.actions, EnterOnSetupSuccess(session, PENDING));
  }

  /** Closing a block patches its enter with its own exit, and makes it one block of the level around it. */
  lemma ExitStructured(c: State, index: nat)
    requires Structured(c) && c.blocks != []
    ensures ExitOn(c, index).Success? && Structured(ExitOn(c, index).value)
  {
    hide Bracket, Parse, Flatten, Add;
    var z := Parse(c.actions);
    var before := FlattenOpen(z.outer);
    var exit := |c.actions|;
    var d := ExitOn(c, index).value;
    var t := Block(z.session, z.done, Nil);
    AddFlattens(z.outer, t);
    BlockAlone(z.session, z.done, |before|);
    PatchedIsBracket(before, z.session, Flatten(z.done, |before| + 1), exit);
    ParseOneMore(c.actions, ExitBlock);
    ParseIgnoresEnds(c.actions + [ExitBlock], d.actions);
  }

  lemma BlockAlone(session: nat, body: Tree, base: nat)
    ensures Flatten(Block(session, body, Nil), base) == Bracket(session, Flatten(body, base + 1), base + 1 + Size(body))
  {
  }

  /** Writing the exit of a block into its enter. */
  lemma PatchedIsBracket(before: seq<Action>, session: nat, body: seq<Action>, end: nat)
    ensures var pending := before + [EnterOnSetupSuccess(session, PENDING)] + body + [ExitBlock];
      pending[|before| := EnterOnSetupSuccess(session, end)]
         == before + Bracket(session, body, end)
  {
  }

  lemma ApplyStructured(c: State, index: nat, plan: Plan)
    requires Structured(c) && Apply(c, index, plan).Success?
    requires plan.Emit? ==> plan.action.AdvanceTime? || plan.action.Probe?
    ensures Structured(Apply(c, index, plan).value)
  {
    hide Structured;
    var d := Apply(c, index, plan).value;
    match plan {
      case Enter(session) => EnterStructured(c, index, session);
      case Exit => ExitStructured(c, index);
      case _ =>
        assert d.actions == c.actions + Emitted(c, plan);
        EmitStructured(c, Emitted(c, plan), d);
    }
  }

  lemma StepStructured(b: B.State, c: State, i: Instruction)
    requires Wellformed(b) && Typed(b, c) && B.Step(b, i).Appended? && Structured(c)
    requires CompileStep(c, |b.instructions|, i).Success?
    ensures Structured(CompileStep(c, |b.instructions|, i).value)
  {
    hide B.Step, Wellformed, Typed, Structured, ValuesTyped, Admissible, Lower, Apply, PlanFits, Grew, Encodable;
    StepTaken(b, i);
    AcceptsAdmissible(b, i);
    TypedValues(b, c);
    LowerFits(b, c, i);
    PlanConditions(b, c, i, Lower(c.values, i).value);
    ApplyStructured(c, |b.instructions|, Lower(c.values, i).value);
  }

  lemma {:induction false} StepsStructured(b: B.State, c: State, code: seq<Instruction>)
    requires Wellformed(b) && Typed(b, c) && B.Steps(b, code).Appended? && Structured(c)
    requires CompileAll(c, code, |b.instructions|).Success?
    ensures Structured(CompileAll(c, code, |b.instructions|).value)
    decreases |code|
  {
    hide B.Step, Wellformed, Typed, Structured, CompileStep, Grew, Accepts, Left;
    if code != [] {
      StepTaken(b, code[0]);
      StepTyped(b, c, code[0]);
      StepStructured(b, c, code[0]);
      StepsStructured(B.Step(b, code[0]).state, CompileStep(c, |b.instructions|, code[0]).value, code[1..]);
    }
  }

  /** Back-patching is right: a compiled valid program is the flattening of its own block structure. */
  lemma CompiledIsFlattened(p: Program)
    requires B.StaticallyValid(p) && Compile(p).Success?
    ensures var actions := Compile(p).value.actions;
      Parse(actions).Top? && Flatten(TreeOf(actions), 0) == actions
  {
    hide B.Steps, CompileAll, Wellformed, Recorded, B.Finalize, Typed, Flatten, Parse;
    NewWellformed(p.context);
    InitialTyped(p.context);
    assert Structured(Initial(p.context)) by { EmptyStructured(p.context); }
    StepsStructured(B.New(p.context), Initial(p.context), p.instructions);
    CompiledRecorded(p);
  }

  lemma EmptyStructured(context: ProgramContext)
    ensures Structured(Initial(context))
  {
  }

  // ---------------------------------------------------------------------------------------------
  // Running the structure
  // ---------------------------------------------------------------------------------------------

  /** Only blocks enter and exit. */
  predicate Plain(t: Tree) {
    match t
    case Nil => true
    case Do(a, rest) => !a.EnterOnSetupSuccess? && !a.ExitBlock? && Plain(rest)
    case Block(_, body, rest) => Plain(body) && Plain(rest)
  }

  predicate PlainOpen(z: Open) {
    Plain(z.done) && (z.Inside? ==> PlainOpen(z.outer))
  }

  lemma {:induction false} PlainJoin(t: Tree, u: Tree)
    requires Plain(t) && Plain(u)
    ensures Plain(Join(t, u))
  {
    match t {
      case Nil =>
      case Do(_, rest) => PlainJoin(rest, u);
      case Block(_, _, rest) => PlainJoin(rest, u);
    }
  }

  lemma {:induction false} ParsePlain(actions: seq<Action>)
    ensures PlainOpen(Parse(actions))
  {
    if actions != [] {
      var last := |actions| - 1;
      ParsePlain(actions[..last]);
      var z, a := Parse(actions[..last]), actions[last];
      if a.ExitBlock? {
        if z.Inside? {
          PlainJoin(z.outer.done, Block(z.session, z.done, Nil));
        }
      } else if !a.EnterOnSetupSuccess? {
        PlainJoin(z.done, Do(a, Nil));
      }
    }
  }

  /**
   * The reference semantics: values are staged, having been settled when the program was compiled, and
   * effects are conditional. A block runs between two completed markers if its session was agreed when it is
   * reached; otherwise all of it is skipped.
   */
  function Interpret(peer: Peer, t: Tree, r: Run): Run {
    match t
    case Nil => r
    case Do(a, rest) => Interpret(peer, rest, Perform(peer, r, a))
    case Block(s, body, rest) =>
      Interpret(peer, rest,
        if IsEstablished(r, s)
        then Record(Interpret(peer, body, Record(r, Completed(NoResponse))), Completed(NoResponse))
        else Skip(r, s, Size(body) + 2))
  }

  /** The actions from `base` on are `flat`. */
  predicate Spells(actions: seq<Action>, base: nat, flat: seq<Action>) {
    base + |flat| <= |actions| && forall j {:trigger flat[j]} | 0 <= j < |flat| :: actions[base + j] == flat[j]
  }

  lemma SpellsBoth(actions: seq<Action>, base: nat, x: seq<Action>, y: seq<Action>)
    requires Spells(actions, base, x + y)
    ensures Spells(actions, base, x) && Spells(actions, base + |x|, y)
  {
    forall j | 0 <= j < |x| ensures actions[base + j] == x[j] {
      assert (x + y)[j] == x[j];
    }
    forall j | 0 <= j < |y| ensures actions[base + |x| + j] == y[j] {
      assert (x + y)[|x| + j] == y[j];
    }
  }

  /** The actions from `base` on are the tree's. */
  predicate At(actions: seq<Action>, base: nat, t: Tree) {
    Spells(actions, base, Flatten(t, base))
  }

  lemma SpellsOne(actions: seq<Action>, base: nat, a: Action)
    requires Spells(actions, base, [a])
    ensures base < |actions| && actions[base] == a
  {
    assert [a][0] == a && actions[base + 0] == a;
  }

  lemma AtDo(actions: seq<Action>, base: nat, a: Action, rest: Tree)
    requires At(actions, base, Do(a, rest))
    ensures base < |actions| && actions[base] == a && At(actions, base + 1, rest)
  {
    hide Flatten, Spells;
    FlattenDo(a, rest, base);
    SpellsBoth(actions, base, [a], Flatten(rest, base + 1));
    SpellsOne(actions, base, a);
  }

  lemma AtBlock(actions: seq<Action>, base: nat, s: nat, body: Tree, rest: Tree)
    requires At(actions, base, Block(s, body, rest))
    ensures var end := base + 1 + Size(body);
      && end < |actions|
      && actions[base] == EnterOnSetupSuccess(s, end) && actions[end] == ExitBlock
      && At(actions, base + 1, body) && At(actions, end + 1, rest)
  {
    hide Flatten, Spells, Bracket, Size;
    var end := base + 1 + Size(body);
    var inner := Flatten(body, base + 1);
    FlattenBlock(s, body, rest, base);
    assert base + |Bracket(s, inner, end)| == end + 1;
    SpellsBoth(actions, base, Bracket(s, inner, end), Flatten(rest, end + 1));
    SpellsBracket(actions, base, s, inner, end);
  }

  lemma SpellsBracket(actions: seq<Action>, base: nat, s: nat, inner: seq<Action>, end: nat)
    requires Spells(actions, base, Bracket(s, inner, end)) && end == base + 1 + |inner|
    ensures end < |actions| && actions[base] == EnterOnSetupSuccess(s, end) && actions[end] == ExitBlock
    ensures Spells(actions, base + 1, inner)
  {
    hide Spells;
    var enter := [EnterOnSetupSuccess(s, end)];
    SpellsBoth(actions, base, enter + inner, [ExitBlock]);
    SpellsBoth(actions, base, enter, inner);
    SpellsOne(actions, base, enter[0]);
    SpellsOne(actions, end, ExitBlock);
  }

  /** Where a tree's actions stand, running by skip jumps does what interpreting the tree does. */
  lemma {:induction false} RunInterprets(peer: Peer, actions: seq<Action>, base: nat, t: Tree, r: Run)
    requires Forward(actions) && At(actions, base, t) && Plain(t)
    ensures RunFrom(peer, actions, base, r) == RunFrom(peer, actions, base + Size(t), Interpret(peer, t, r))
    decreases t
  {
    hide Perform, Flatten, At, RunFrom, Forward;
    AtBounds(actions, base, t);
    match t {
      case Nil =>
      case Do(a, rest) =>
        AtDo(actions, base, a, rest);
        RunStep(peer, actions, base, r);
        RunInterprets(peer, actions, base + 1, rest, Perform(peer, r, a));
      case Block(s, body, rest) =>
        AtBlock(actions, base, s, body, rest);
        var end := base + 1 + Size(body);
        RunStep(peer, actions, base, r);
        if IsEstablished(r, s) {
          var entered := Record(r, Completed(NoResponse));
          assert Perform(peer, r, actions[base]) == entered by { PerformMarker(peer, r, actions[base]); }
          RunInterprets(peer, actions, base + 1, body, entered);
          var inside := Interpret(peer, body, entered);
          RunStep(peer, actions, end, inside);
          PerformMarker(peer, inside, actions[end]);
          RunInterprets(peer, actions, end + 1, rest, Record(inside, Completed(NoResponse)));
        } else {
          RunInterprets(peer, actions, end + 1, rest, Skip(r, s, Size(body) + 2));
        }
    }
  }

  lemma AtBounds(actions: seq<Action>, base: nat, t: Tree)
    requires At(actions, base, t)
    ensures base + Size(t) <= |actions|
  {
    hide Flatten;
  }

  lemma PerformMarker(peer: Peer, r: Run, a: Action)
    requires a.EnterOnSetupSuccess? || a.ExitBlock?
    ensures Perform(peer, r, a) == Record(r, Completed(NoResponse))
  {
  }

  /** Every block of a tree ends after it begins. */
  lemma {:induction false} AtForward(actions: seq<Action>, base: nat, t: Tree)
    requires At(actions, base, t) && Plain(t)
    ensures forall i | base <= i < base + Size(t) :: actions[i].EnterOnSetupSuccess? ==>
        i < actions[i].end < base + Size(t)
    decreases t
  {
    hide Flatten, At;
    AtBounds(actions, base, t);
    match t {
      case Nil =>
      case Do(a, rest) =>
        AtDo(actions, base, a, rest);
        AtForward(actions, base + 1, rest);
      case Block(s, body, rest) =>
        AtBlock(actions, base, s, body, rest);
        var end := base + 1 + Size(body);
        AtForward(actions, base + 1, body);
        AtForward(actions, end + 1, rest);
        forall i | base <= i < base + Size(t)
          ensures actions[i].EnterOnSetupSuccess? ==> i < actions[i].end < base + Size(t)
        {
          assert i == base || base + 1 <= i < end || i == end || end + 1 <= i;
        }
    }
  }

  lemma WholeStands(actions: seq<Action>, t: Tree)
    requires Flatten(t, 0) == actions
    ensures At(actions, 0, t)
  {
    hide Flatten;
  }

  /** A compiled valid program stands at zero as its own structure, and its blocks all end later than they begin. */
  lemma CompiledStands(p: Program)
    requires B.StaticallyValid(p) && Compile(p).Success?
    ensures var actions := Compile(p).value.actions;
      var t := TreeOf(actions);
      At(actions, 0, t) && Size(t) == |actions| && Plain(t) && Forward(actions)
  {
    hide B.StaticallyValid, Compile, Flatten, Parse;
    var actions := Compile(p).value.actions;
    CompiledIsFlattened(p);
    ParsePlain(actions);
    WholeStands(actions, TreeOf(actions));
    AtForward(actions, 0, TreeOf(actions));
  }

  /**
   * For every valid program and every peer, running the flat actions by their back-patched jumps is
   * interpreting the block structure: the same outcomes, sessions, connection states and calls.
   */
  lemma RunRefinesBlocks(peer: Peer, p: Program)
    requires B.StaticallyValid(p) && Compile(p).Success?
    ensures Forward(Compile(p).value.actions)
    ensures RunProgram(peer, Compile(p).value) == Interpret(peer, TreeOf(Compile(p).value.actions), START)
  {
    hide B.StaticallyValid, Compile, Flatten, Parse, Perform, Interpret, Forward, RunFrom, At;
    var actions := Compile(p).value.actions;
    CompiledStands(p);
    RunInterprets(peer, actions, 0, TreeOf(actions), START);
    RunEnd(peer, actions, Interpret(peer, TreeOf(actions), START));
  }
}
