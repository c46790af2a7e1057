/**
 * Scope implies dominance: what the builder's lexical scoping means for the compiled actions, and then for
 * every run of them.
 */
module Dominance {
  import opened Wrappers
  import opened Ir
  import B = Builder
  import opened Scoping
  import opened Renaming
  import opened Compiler
  import opened Soundness
  import opened Simulation
  import opened Ledger
  import opened Blocks

  /** A connection a program opens, or a session it attempts. */
  datatype Id = Conn(connection: nat) | Sess(session: nat)

  function DefinedBy(a: Action): set<Id> {
    match a
    case Connect(c, _) => {Conn(c)}
    case AwaitSetupResponse(_, s, _, _) => {Sess(s)}
    case _ => {}
  }

  function UsedBy(a: Action): set<Id> {
    match a
    case Send(c, _, _, _, _) => {Conn(c)}
    case AwaitSetupResponse(c, _, _, _) => {Conn(c)}
    case _ => {}
  }

  /** Defined where it can be used, or there before the program runs. */
  predicate Available(avail: set<Id>, base: nat, id: Id) {
    id in avail || (id.Conn? && id.connection < base)
  }

  predicate AllAvailable(ids: set<Id>, avail: set<Id>, base: nat) {
    forall id | id in ids :: Available(avail, base, id)
  }

  /** The ids a tree defines outside any block of its own. */
  function TopDefs(t: Tree): set<Id> {
    match t
    case Nil => {}
    case Do(a, rest) => DefinedBy(a) + TopDefs(rest)
    case Block(_, _, rest) => TopDefs(rest)
  }

  /** Every use in the tree is of something defined before it, in a block that is still open there. */
  predicate Scoped(t: Tree, avail: set<Id>, base: nat) {
    match t
    case Nil => true
    case Do(a, rest) => AllAvailable(UsedBy(a), avail, base) && Scoped(rest, avail + DefinedBy(a), base)
    case Block(s, body, rest) => Sess(s) in avail && Scoped(body, avail, base) && Scoped(rest, avail, base)
  }

  lemma {:induction false} ScopedJoin(t: Tree, u: Tree, avail: set<Id>, base: nat)
    ensures TopDefs(Join(t, u)) == TopDefs(t) + TopDefs(u)
    ensures Scoped(Join(t, u), avail, base) <==> Scoped(t, avail, base) && Scoped(u, avail + TopDefs(t), base)
  {
    hide AllAvailable, DefinedBy, UsedBy;
    match t {
      case Nil =>
        assert avail + {} == avail;
      case Do(a, rest) =>
        ScopedJoin(rest, u, avail + DefinedBy(a), base);
        assert avail + DefinedBy(a) + TopDefs(rest) == avail + TopDefs(t);
      case Block(_, _, rest) =>
        ScopedJoin(rest, u, avail, base);
    }
  }

  /** What can be used at the innermost level of a tree under construction. */
  function AvailAt(z: Open): set<Id> {
    match z
    case Top(done) => TopDefs(done)
    case Inside(outer, _, done) => AvailAt(outer) + TopDefs(done)
  }

  function OpenDepth(z: Open): nat {
    match z
    case Top(_) => 0
    case Inside(outer, _, _) => OpenDepth(outer) + 1
  }

  /** What can be used `n` success blocks deep. */
  function AvailLevel(z: Open, n: nat): set<Id> {
    if z.Top? || n >= OpenDepth(z) then AvailAt(z) else AvailLevel(z.outer, n)
  }

  predicate ScopedOpen(z: Open, base: nat) {
    match z
    case Top(done) => Scoped(done, {}, base)
    case Inside(outer, s, done) =>
      ScopedOpen(outer, base) && Sess(s) in AvailAt(outer) && Scoped(done, AvailAt(outer), base)
  }

  lemma AvailLevelBelow(z: Open, n: nat)
    ensures AvailLevel(z, n) <= AvailAt(z)
  {
  }

  lemma AddScoped(z: Open, t: Tree, base: nat)
    ensures AvailAt(Add(z, t)) == AvailAt(z) + TopDefs(t)
    ensures OpenDepth(Add(z, t)) == OpenDepth(z)
    ensures ScopedOpen(Add(z, t), base) <==> ScopedOpen(z, base) && Scoped(t, AvailAt(z), base)
    ensures forall n: nat | n < OpenDepth(z) :: AvailLevel(Add(z, t), n) == AvailLevel(z, n)
  {
    ScopedJoin(z.done, t, if z.Top? then {} else AvailAt(z.outer), base);
    assert {} + TopDefs(z.done) == TopDefs(z.done);
  }

  function DefsOf(actions: seq<Action>): set<Id>
    decreases |actions|
  {
    if actions == [] then {} else DefinedBy(actions[0]) + DefsOf(actions[1..])
  }

  function AddAll(z: Open, actions: seq<Action>): Open
    decreases |actions|
  {
    if actions == [] then z else AddAll(Add(z, Do(actions[0], Nil)), actions[1..])
  }

  lemma MoreAvailable(ids: set<Id>, avail: set<Id>, more: set<Id>, base: nat)
    requires AllAvailable(ids, avail, base) && avail <= more
    ensures AllAvailable(ids, more, base)
  {
  }

  lemma {:induction false} AddAllScoped(z: Open, actions: seq<Action>, base: nat)
    requires ScopedOpen(z, base) && forall a | a in actions :: AllAvailable(UsedBy(a), AvailAt(z), base)
    ensures var z' := AddAll(z, actions);
      && ScopedOpen(z', base)
      && AvailAt(z') == AvailAt(z) + DefsOf(actions)
      && OpenDepth(z') == OpenDepth(z)
      && forall n: nat | n < OpenDepth(z) :: AvailLevel(z', n) == AvailLevel(z, n)
    decreases |actions|
  {
    hide AllAvailable, UsedBy, DefinedBy, AvailAt, ScopedOpen, Add;
    if actions != [] {
      var t := Do(actions[0], Nil);
      AddScoped(z, t, base);
      var mid := Add(z, t);
      forall a | a in actions[1..] ensures AllAvailable(UsedBy(a), AvailAt(mid), base) {
        MoreAvailable(UsedBy(a), AvailAt(z), AvailAt(mid), base);
      }
      AddAllScoped(mid, actions[1..], base);
    }
  }

  lemma {:induction false} ParseAll(actions: seq<Action>, added: seq<Action>)
    requires forall a | a in added :: !a.EnterOnSetupSuccess? && !a.ExitBlock?
    ensures Parse(actions + added) == AddAll(Parse(actions), added)
    decreases |added|
  {
    hide Parse, Add;
    if added == [] {
      assert actions + added == actions;
    } else {
      ParseOneMore(actions, added[0]);
      assert actions + added == (actions + [added[0]]) + added[1..];
      ParseAll(actions + [added[0]], added[1..]);
    }
  }

  // ---------------------------------------------------------------------------------------------
  // From the builder's scopes
  // ---------------------------------------------------------------------------------------------

  /** The ids a value carries that have to be defined before it is used. */
  function ValueIds(v: Value): set<Id> {
    match v
    case ConnectionValue(c) => {Conn(c)}
    case AttemptValue(s, _) => {Sess(s)}
    case _ => {}
  }

  /** How many success blocks deep the builder's scope `k` is. */
  function Level(scopes: seq<B.Scope>, k: nat): nat
    requires k < |scopes|
  {
    |SuccessBegins(scopes[..k + 1])|
  }

  /** A variable in scope `k` carries ids available at that scope's depth. */
  ghost predicate VarAvailable(b: B.State, values: seq<Value>, z: Open, v: nat, k: nat)
    requires v < |b.variables| && v < |values| && k < |b.scopes|
  {
    b.variables[v].scopeId == b.scopes[k].id ==>
      AllAvailable(ValueIds(values[v]), AvailLevel(z, Level(b.scopes, k)), b.context.numConnections)
  }

  ghost predicate VarsAvailable(b: B.State, values: seq<Value>, z: Open) {
    && |values| == |b.variables|
    && forall v: nat, k: nat | v < |b.variables| && k < |b.scopes| :: VarAvailable(b, values, z, v, k)
  }

  ghost predicate Dominated(b: B.State, c: State) {
    var z := Parse(c.actions);
    && Structured(c)
    && ScopedOpen(z, b.context.numConnections)
    && OpenDepth(z) == |SuccessBegins(b.scopes)|
    && VarsAvailable(b, c.values, z)
  }

  lemma {:induction false} SuccessBeginsPrefix(scopes: seq<B.Scope>, n: nat)
    requires n <= |scopes|
    ensures |SuccessBegins(scopes[..n])| <= |SuccessBegins(scopes)|
  {
    if n < |scopes| {
      var last := |scopes| - 1;
      assert scopes[..last][..n] == scopes[..n];
      SuccessBeginsPrefix(scopes[..last], n);
    } else {
      assert scopes[..n] == scopes;
    }
  }

  /** Whatever a visible variable carries is available where the builder is. */
  lemma VisibleAvailable(b: B.State, c: State, v: nat)
    requires Wellformed(b) && Dominated(b, c) && b.Visible(v)
    ensures v < |c.values|
    ensures AllAvailable(ValueIds(c.values[v]), AvailAt(Parse(c.actions)), b.context.numConnections)
  {
    hide Housed, ScopeOpenedBy, ScopedOpen, Structured, AvailAt;
    var z := Parse(c.actions);
    var k: nat :| k < |b.scopes| && b.scopes[k].id == b.variables[v].scopeId;
    assert VarAvailable(b, c.values, z, v, k);
    AvailLevelBelow(z, Level(b.scopes, k));
    MoreAvailable(ValueIds(c.values[v]), AvailLevel(z, Level(b.scopes, k)), AvailAt(z), b.context.numConnections);
  }

  /** What the actions of a plan use is available where the builder is. */
  lemma PlanUsesAvailable(b: B.State, c: State, i: Instruction, plan: Plan)
    requires Wellformed(b) && Dominated(b, c) && PlanFits(b, c, i, plan)
    ensures !plan.Exit? && !plan.Enter? ==>
      forall a | a in Emitted(c, plan) :: AllAvailable(UsedBy(a), AvailAt(Parse(c.actions)), b.context.numConnections)
    ensures plan.Enter? ==> Sess(plan.session) in AvailAt(Parse(c.actions))
  {
    hide Wellformed, Dominated, AvailAt, Parse;
    if plan.Setup? || plan.Frame? || plan.Enter? {
      VisibleAvailable(b, c, i.inputs[0]);
    }
  }

  /** The structure after a plan. */
  function OpenAfterPlan(z: Open, c: State, plan: Plan): Open {
    match plan
    case Enter(s) => Inside(z, s, Nil)
    case Exit => if z.Inside? then Add(z.outer, Block(z.session, z.done, Nil)) else z
    case _ => AddAll(z, Emitted(c, plan))
  }

  lemma PlanParses(c: State, index: nat, plan: Plan, d: State)
    requires Structured(c) && Apply(c, index, plan) == Success(d)
    requires plan.Emit? ==> plan.action.AdvanceTime? || plan.action.Probe?
    ensures Parse(d.actions) == OpenAfterPlan(Parse(c.actions), c, plan)
  {
    hide Parse, Structured, FlattenOpen, Enters, AddAll;
    match plan {
      case Enter(session) => ParseOneMore(c.actions, EnterOnSetupSuccess(session, PENDING));
      case Exit =>
        ParseOneMore(c.actions, ExitBlock);
        ParseIgnoresEnds(c.actions + [ExitBlock], d.actions);
      case _ =>
        assert d.actions == c.actions + Emitted(c, plan);
        ParseAll(c.actions, Emitted(c, plan));
    }
  }

  /** The structure after a plan is scoped, and outer levels keep what they had. */
  lemma OpenAfterScoped(b: B.State, c: State, i: Instruction, plan: Plan)
    requires Wellformed(b) && Dominated(b, c) && PlanFits(b, c, i, plan)
    requires plan.Exit? ==> Parse(c.actions).Inside?
    ensures var z, z' := Parse(c.actions), OpenAfterPlan(Parse(c.actions), c, plan);
      && ScopedOpen(z', b.context.numConnections)
      && OpenDepth(z') == (
           if plan.Enter? then OpenDepth(z) + 1
           else if plan.Exit? then OpenDepth(z) - 1
           else OpenDepth(z))
      && (forall n: nat | n <= OpenDepth(z) && n <= OpenDepth(z') :: AvailLevel(z, n) <= AvailLevel(z', n))
      && (!plan.Enter? && !plan.Exit? ==> AvailAt(z') == AvailAt(z) + DefsOf(Emitted(c, plan)))
  {
    hide Wellformed, PlanFits, Parse, AddAll, DefsOf, Emitted, VarsAvailable, Structured, Add;
    PlanUsesAvailable(b, c, i, plan);
    var z := Parse(c.actions);
    match plan {
      case Enter(_) =>
      case Exit => AddScoped(z.outer, Block(z.session, z.done, Nil), b.context.numConnections);
      case _ => AddAllScoped(z, Emitted(c, plan), b.context.numConnections);
    }
  }

  /** The ids of a new value are defined by what the plan emits, or were there before the program. */
  lemma NewValueIds(b: B.State, c: State, i: Instruction, index: nat, plan: Plan, d: State, n: nat)
    requires PlanFits(b, c, i, plan) && Apply(c, index, plan) == Success(d)
    requires n < i.operation.Defines() && |d.values| == |c.values| + i.operation.Defines()
    ensures AllAvailable(ValueIds(d.values[|c.values| + n]), DefsOf(Emitted(c, plan)), b.context.numConnections)
    ensures i.operation.IsBlockBegin() ==> ValueIds(d.values[|c.values| + n]) == {}
    ensures !plan.Exit?
  {
    hide Encodable;
    match plan {
      case Define(vs) =>
        assert d.values[|c.values| + n] == vs[n];
        ShapeIds(vs[n], NewKinds(i.operation)[n], b.context.numConnections, DefsOf(Emitted(c, plan)));
        if i.operation.IsBlockBegin() {
          assert vs[n].SetupValue?;
        }
      case Open(role) =>
        DefsOfOne(Emitted(c, plan)[0]);
      case Setup(_, _, _) =>
        DefsOfTwo(Emitted(c, plan)[0], Emitted(c, plan)[1]);
      case _ =>
    }
  }

  lemma ShapeIds(v: Value, kind: Variable, connections: nat, avail: set<Id>)
    requires HasShape(v, kind, connections, 0)
    ensures AllAvailable(ValueIds(v), avail, connections)
  {
  }

  lemma DefsOfOne(a: Action)
    ensures DefsOf([a]) == DefinedBy(a)
  {
    assert [a][1..] == [];
  }

  lemma DefsOfTwo(a: Action, b: Action)
    ensures DefsOf([a, b]) == DefinedBy(a) + DefinedBy(b)
  {
    assert [a, b][1..] == [b];
    DefsOfOne(b);
  }

  /** Older values carry the ids they did. */
  lemma OldValueIds(c: State, op: Operation, d: State, v: nat)
    requires ValuesGrew(c, op, d) && v < |c.values|
    ensures v < |d.values| && ValueIds(d.values[v]) == ValueIds(c.values[v])
  {
  }

  lemma LevelKept(scopes: seq<B.Scope>, more: seq<B.Scope>, k: nat)
    requires k < |scopes| && k < |more| && (more <= scopes || scopes <= more)
    ensures Level(more, k) == Level(scopes, k)
    ensures Level(more, k) <= |SuccessBegins(more)| && Level(scopes, k) <= |SuccessBegins(scopes)|
  {
    assert more[..k + 1] == scopes[..k + 1];
    SuccessBeginsPrefix(scopes, k + 1);
    SuccessBeginsPrefix(more, k + 1);
  }

  lemma LevelOfLast(scopes: seq<B.Scope>)
    requires |scopes| > 0
    ensures Level(scopes, |scopes| - 1) == |SuccessBegins(scopes)|
  {
    assert scopes[..|scopes|] == scopes;
  }

  lemma OldVarAvailable(b: B.State, c: State, z: Open, b': B.State, d: State, z': Open, op: Operation, v: nat, k: nat)
    requires VarsAvailable(b, c.values, z) && ValuesGrew(c, op, d) && b'.context == b.context
    requires v < |b.variables| && v < |b'.variables| && b'.variables[v] == b.variables[v] && v < |d.values|
    requires k < |b.scopes| && k < |b'.scopes| && (b'.scopes <= b.scopes || b.scopes <= b'.scopes)
    requires OpenDepth(z) == |SuccessBegins(b.scopes)| && OpenDepth(z') == |SuccessBegins(b'.scopes)|
    requires forall n: nat | n <= OpenDepth(z) && n <= OpenDepth(z') :: AvailLevel(z, n) <= AvailLevel(z', n)
    ensures VarAvailable(b', d.values, z', v, k)
  {
    hide AvailLevel, OpenDepth, ValuesGrew, AllAvailable, SuccessBegins, Level;
    assert VarAvailable(b, c.values, z, v, k);
    OldValueIds(c, op, d, v);
    LevelKept(b.scopes, b'.scopes, k);
    if b.variables[v].scopeId == b.scopes[k].id {
      MoreAvailable(ValueIds(c.values[v]), AvailLevel(z, Level(b.scopes, k)), AvailLevel(z', Level(b.scopes, k)),
        b.context.numConnections);
    }
  }

  lemma NewVarAvailable(b: B.State, c: State, i: Instruction, plan: Plan, b': B.State, d: State, z': Open, v: nat,
    k: nat)
    requires Wellformed(Left(b, i.operation)) && |b.variables| == |c.values|
    requires PlanFits(b, c, i, plan) && Apply(c, |b.instructions|, plan) == Success(d) && ValuesGrew(c, i.operation, d)
    requires Grew(Left(b, i.operation), i, b') && |c.values| <= v < |d.values| && v < |b'.variables| && k < |b'.scopes|
    requires OpenDepth(z') == |SuccessBegins(b'.scopes)|
    requires !plan.Enter? && !plan.Exit? ==> DefsOf(Emitted(c, plan)) <= AvailAt(z')
    ensures VarAvailable(b', d.values, z', v, k)
  {
    hide Housed, ScopeOpenedBy, PlanFits, Apply, Emitted, DefsOf, AvailAt, Operation.OutputVariables,
      Operation.InnerOutputVariables, ValuesGrew,
      SuccessBegins, HasShape;
    var mid := Left(b, i.operation);
    LeftVariables(b, i.operation);
    LeftContext(b, i.operation);
    GrewLengths(c, i.operation, d);
    var n := v - |c.values|;
    NewValueIds(b, c, i, |b.instructions|, plan, d, n);
    if plan.Enter? {
      EnterIsBegin(b, c, i, plan);
    }
    var ids, defs := ValueIds(d.values[v]), DefsOf(Emitted(c, plan));
    if b'.variables[v].scopeId == b'.scopes[k].id && !i.operation.IsBlockBegin() {
      NewVariableScope(mid, i.operation, n);
      assert b'.scopes == mid.scopes;
      assert k == |mid.scopes| - 1;
      LevelOfLast(b'.scopes);
      MoreAvailable(ids, defs, AvailAt(z'), b.context.numConnections);
    }
  }

  lemma GrewLengths(c: State, op: Operation, d: State)
    requires ValuesGrew(c, op, d)
    ensures |d.values| == |c.values| + op.Defines()
  {
  }

  lemma EnterIsBegin(b: B.State, c: State, i: Instruction, plan: Plan)
    requires PlanFits(b, c, i, plan) && plan.Enter?
    ensures i.operation.IsBlockBegin()
  {
  }

  lemma NewVariableScope(s: B.State, op: Operation, n: nat)
    requires |s.scopes| > 0 && n < op.Defines() && !op.IsBlockBegin()
    ensures NewVariable(s, op, n).scopeId in {0, B.CurrentId(s)}
  {
  }

  lemma ScopesComparable(b: B.State, i: Instruction, b': B.State)
    requires Wellformed(b) && Accepts(b, i) && Grew(Left(b, i.operation), i, b')
    ensures b'.scopes <= b.scopes || b.scopes <= b'.scopes
    ensures b'.context == b.context
    ensures |b'.variables| == |b.variables| + i.operation.Defines()
    ensures forall v | 0 <= v < |b.variables| :: b'.variables[v] == b.variables[v]
  {
    hide NewVariable, Admissible, Housed, ScopeOpenedBy, Operation.Defines;
  }

  /** Everything `Dominated` says, over one plan. */
  lemma PlanDominated(b: B.State, c: State, i: Instruction, plan: Plan, b': B.State, d: State)
    requires Wellformed(b) && Wellformed(Left(b, i.operation)) && Dominated(b, c) && Accepts(b, i)
      && PlanFits(b, c, i, plan)
    requires Grew(Left(b, i.operation), i, b')
    requires Apply(c, |b.instructions|, plan) == Success(d) && ValuesGrew(c, i.operation, d)
    requires SuccessBegins(b'.scopes) == BeginsAfter(SuccessBegins(b.scopes), plan, |b.instructions|)
    requires plan.Exit? ==> SuccessBegins(b.scopes) != []
    requires Structured(d) && (plan.Emit? ==> plan.action.AdvanceTime? || plan.action.Probe?)
    ensures Dominated(b', d)
  {
    hide Wellformed, Accepts, PlanFits, Apply, Grew, ValuesGrew, Structured, Parse, SuccessBegins, OpenAfterPlan,
      AvailAt, ScopedOpen,
      VarAvailable, DefsOf, Emitted, AvailLevel, Left, Operation.Defines;
    var z, z' := Parse(c.actions), Parse(d.actions);
    DepthInside(z);
    PlanParses(c, |b.instructions|, plan, d);
    OpenAfterScoped(b, c, i, plan);
    ScopesComparable(b, i, b');
    GrewLengths(c, i.operation, d);
    LeftVariables(b, i.operation);
    LeftContext(b, i.operation);
    forall v: nat, k: nat | v < |b'.variables| && k < |b'.scopes| ensures VarAvailable(b', d.values, z', v, k) {
      if v < |b.variables| && k < |b.scopes| {
        OldVarAvailable(b, c, z, b', d, z', i.operation, v, k);
      } else if v < |b.variables| {
        NewScopeUnused(b, i, b', v, k);
        UnusedAvailable(b', d.values, z', v, k);
      } else {
        NewVarAvailable(b, c, i, plan, b', d, z', v, k);
      }
    }
  }

  lemma LeftContext(b: B.State, op: Operation)
    ensures Left(b, op).context == b.context
  {
  }

  lemma DepthInside(z: Open)
    ensures z.Inside? <==> OpenDepth(z) > 0
  {
  }

  lemma NewScopeUnused(b: B.State, i: Instruction, b': B.State, v: nat, k: nat)
    requires Wellformed(b) && Grew(Left(b, i.operation), i, b') && v < |b.variables| && v < |b'.variables|
      && |b.scopes| <= k < |b'.scopes|
    ensures b'.variables[v].scopeId != b'.scopes[k].id
  {
    hide NewVariable, Housed, ScopeOpenedBy, Operation.Defines;
    assert b'.variables[v] == b.variables[v];
  }

  lemma UnusedAvailable(b: B.State, values: seq<Value>, z: Open, v: nat, k: nat)
    requires v < |b.variables| && v < |values| && k < |b.scopes| && b.variables[v].scopeId != b.scopes[k].id
    ensures VarAvailable(b, values, z, v, k)
  {
  }

  lemma StepDominated(b: B.State, c: State, i: Instruction)
    requires Wellformed(b) && Typed(b, c) && Dominated(b, c) && B.Step(b, i).Appended?
    requires CompileStep(c, |b.instructions|, i).Success?
    ensures Dominated(B.Step(b, i).state, CompileStep(c, |b.instructions|, i).value)
  {
    hide B.Step, Wellformed, Typed, Dominated, ValuesTyped, Admissible, Lower, Apply, PlanFits, Grew, Encodable,
      Structured, ValuesGrew,
      SuccessBegins, BeginsAfter;
    StepTaken(b, i);
    AcceptsAdmissible(b, i);
    TypedValues(b, c);
    LowerFits(b, c, i);
    var plan, b', d := Lower(c.values, i).value, B.Step(b, i).state, CompileStep(c, |b.instructions|, i).value;
    PlanConditions(b, c, i, plan);
    BeginsFollow(b, c, i, plan, b');
    ApplyValues(b, c, i, |b.instructions|, plan, d);
    DominatedStructured(b, c);
    ApplyStructured(c, |b.instructions|, plan);
    LeftWellformed(b, i);
    PlanDominated(b, c, i, plan, b', d);
  }

  lemma DominatedStructured(b: B.State, c: State)
    requires Dominated(b, c)
    ensures Structured(c)
  {
    hide Structured, ScopedOpen, VarsAvailable, Parse;
  }

  lemma LeftWellformed(b: B.State, i: Instruction)
    requires Wellformed(b) && Accepts(b, i)
    ensures Wellformed(Left(b, i.operation))
  {
    hide Wellformed, Admissible;
    if i.operation.IsBlockEnd() {
      AcceptedEnd(b, i);
      ExitWellformed(b);
    }
  }

  lemma {:induction false} StepsDominated(b: B.State, c: State, code: seq<Instruction>)
    requires Wellformed(b) && Typed(b, c) && B.Steps(b, code).Appended? && Dominated(b, c)
    requires CompileAll(c, code, |b.instructions|).Success?
    ensures Dominated(B.Steps(b, code).state, CompileAll(c, code, |b.instructions|).value)
    decreases |code|
  {
    hide B.Step, Wellformed, Typed, Dominated, CompileStep, Grew, Accepts, Left;
    if code != [] {
      StepTaken(b, code[0]);
      StepTyped(b, c, code[0]);
      StepDominated(b, c, code[0]);
      StepsDominated(B.Step(b, code[0]).state, CompileStep(c, |b.instructions|, code[0]).value, code[1..]);
    }
  }

  lemma InitialDominated(context: ProgramContext)
    ensures Dominated(B.New(context), Initial(context))
  {
    var s := B.New(context);
    assert s.scopes == [B.Scope(None, 1, Global)];
    assert s.scopes[..0] == [];
  }

  /** In a compiled valid program every use is scoped: what it needs is defined earlier, in a block still open. */
  lemma CompiledIsScoped(p: Program)
    requires B.StaticallyValid(p) && Compile(p).Success?
    ensures Scoped(TreeOf(Compile(p).value.actions), {}, p.context.numConnections)
  {
    hide B.Steps, CompileAll, Wellformed, Recorded, B.Finalize, Typed, Flatten, Parse, Scoped, Dominated, Structured;
    NewWellformed(p.context);
    InitialTyped(p.context);
    InitialDominated(p.context);
    StepsDominated(B.New(p.context), Initial(p.context), p.instructions);
    CompiledRecorded(p);
    CompiledIsFlattened(p);
    DominatedScoped(B.FromPrefix(p.context, p.instructions).state, Lowered(p));
    Reached(p.context, p.instructions);
  }

  lemma DominatedScoped(b: B.State, c: State)
    requires Dominated(b, c) && Parse(c.actions).Top?
    ensures Scoped(TreeOf(c.actions), {}, b.context.numConnections)
  {
    hide Structured, VarsAvailable, Parse;
  }
}
