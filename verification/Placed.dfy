/** The generators' fragments at any point outside every block, and what that leaves of the program around them. */
module Placed {
  import opened Wrappers
  import opened Ir
  import B = Builder
  import opened Scoping
  import opened Renaming
  import opened Compiler
  import opened Simulation
  import opened Ledger
  import opened Generators
  import opened Fragments
  import opened Setups
  import opened Weakening
  import H = Homomorphism
  import I = Insertion

  /** The program is as it was around the fragment: later ids and indices moved past its own, and no note changed. */
  ghost predicate Inserts(
    p: Program, at: nat, fragment: seq<Instruction>, added: seq<Action>, noted: map<nat, seq<ClientViolation>>,
      sessions: nat)
    requires at <= |p.instructions|
  {
    var q := I.Inserted(p, at, fragment);
    && Compile(p).Success? && Compile(Before(p, at)).Success? && B.StaticallyValid(q) && Compile(q).Success?
    && var c, whole, r := Lowered(Before(p, at)), Compile(p).value, Compile(q).value;
    var e := Move(Ids(c.connections, c.sessions, |c.actions|), Ids(1, sessions, |added|), {}, {});
    && c.actions <= whole.actions
    && r.actions == c.actions + added + H.MoveActions(e, whole.actions[|c.actions|..])
    && (forall j | 0 <= j < |c.actions| :: Notes(r.metadata, j) == Notes(whole.metadata, j))
    && (forall j | |c.actions| <= j < |c.actions| + |added| ::
          Notes(r.metadata, j) == if j in noted then noted[j] else [])
    && (forall j | |c.actions| <= j < |whole.actions| :: Notes(r.metadata, j + |added|) == Notes(whole.metadata, j))
  }

  /** If a program compiles so does all before any point of it. */
  lemma BeforeCompiles(p: Program, at: nat)
    requires at <= |p.instructions| && Compile(p).Success?
    ensures Compile(Before(p, at)).Success?
  {
    hide CompileAll;
    assert p.instructions == p.instructions[..at] + p.instructions[at..];
    CompileAllConcat(Initial(p.context), p.instructions[..at], p.instructions[at..], 0);
  }

  /** Nothing is sent on a connection from before. */
  ghost predicate SendsPast(added: seq<Action>, connections: nat) {
    forall j, x: nat | 0 <= j < |added| && x < connections :: !IsSendOn(added[j], x)
  }

  /** A fragment that opens a connection, and sends on no other. */
  lemma InsertsAnywhere(
    p: Program, at: nat, role: nat, code: seq<Instruction>, added: seq<Action>, noted: map<nat, seq<ClientViolation>>,
      sessions: nat)
    requires B.StaticallyValid(p) && Compile(p).Success? && at <= |p.instructions| && I.Depth(p.instructions[..at]) == 0
    requires Compile(Before(p, at)).Success?
    requires Adds(Before(p, at), OpenedThen(Before(p, at), role, code), added, noted, sessions)
    requires SendsPast(added, Lowered(Before(p, at)).connections)
    requires forall j | j in noted :: j >= |Lowered(Before(p, at)).actions|
    requires I.Fits(p, at, OpenCode(role, VariableCount(p.instructions[..at])) + code)
    ensures Inserts(p, at, OpenCode(role, VariableCount(p.instructions[..at])) + code, added, noted, sessions)
  {
    hide B.StaticallyValid, CompileAll, I.Depth, I.Fits, VariableCount, I.Inserted, Further, OpenCode, NotesInserted,
      TablesInserted;
    var fragment := OpenCode(role, VariableCount(p.instructions[..at])) + code;
    I.InsertedValid(p, at, fragment);
    assert Through(p, at, fragment) == OpenedThen(Before(p, at), role, code);
    InsertedCompiles(p, at, fragment);
    PointsValid(p, at, fragment);
    CompiledRecorded(Before(p, at));
    CompiledRecorded(Through(p, at, fragment));
    var c, d := Lowered(Before(p, at)), Lowered(Through(p, at, fragment));
    BetweenIs(c, d, added, sessions);
    NoteBounds(c, p.context.numConnections);
    NotesPlaced(c, d, Compile(p).value, Compile(I.Inserted(p, at, fragment)).value, added, noted, Between(c, d));
  }

  /** The fragment leaves the connections from before alone. */
  lemma BetweenIs(c: State, d: State, added: seq<Action>, sessions: nat)
    requires d.connections == c.connections + 1 && d.sessions == c.sessions + sessions && d.actions == c.actions + added
    requires SendsPast(added, c.connections)
    requires forall x | x in Between(c, d).sent :: exists j ::
        |c.actions| <= j < |d.actions| && IsSendOn(d.actions[j], x)
    requires forall x | x in Between(c, d).raw :: exists j :: |c.actions| <= j < |d.actions| && IsRawOn(d.actions[j], x)
    ensures Between(c, d) == Move(Ids(c.connections, c.sessions, |c.actions|), Ids(1, sessions, |added|), {}, {})
  {
    forall x: nat, j | x < c.connections && |c.actions| <= j < |d.actions|
      ensures !IsSendOn(d.actions[j], x) && !IsRawOn(d.actions[j], x)
    {
      assert d.actions[j] == added[j - |c.actions|];
    }
    assert Between(c, d).sent == {} && Between(c, d).raw == {};
  }

  lemma NotesPlaced(
    c: State, d: State, whole: CompiledProgram, r: CompiledProgram, added: seq<Action>,
    noted: map<nat, seq<ClientViolation>>, e: Move)
    requires NotesInserted(c.actions, d, whole, r, e) && e.sent == {} && e.raw == {}
    requires d.actions == c.actions + added && d.metadata.violations == c.metadata.violations + noted
    requires forall j | j in c.metadata.violations :: j < |c.actions|
    ensures forall j | 0 <= j < |c.actions| :: Notes(r.metadata, j) == Notes(whole.metadata, j)
    ensures forall j | |c.actions| <= j < |c.actions| + |added| ::
        Notes(r.metadata, j) == if j in noted then noted[j] else []
    ensures forall j | |c.actions| <= j < |whole.actions| :: Notes(r.metadata, j + |added|) == Notes(whole.metadata, j)
  {
    forall j | |c.actions| <= j < |c.actions| + |added|
      ensures Notes(r.metadata, j) == if j in noted then noted[j] else []
    {
      assert Notes(r.metadata, j) == Notes(d.metadata, j);
    }
    forall j | |c.actions| <= j < |whole.actions| ensures Notes(r.metadata, j + |added|) == Notes(whole.metadata, j) {
      assert Notes(r.metadata, j + |d.actions| - |c.actions|)
        == MoveNotes(e, Notes(whole.metadata, j), whole.actions[j]);
      assert j + |d.actions| - |c.actions| == j + |added|;
    }
  }

  // ---------------------------------------------------------------------------------------------
  // What the generators append is that code
  // ---------------------------------------------------------------------------------------------

  /** On a new connection the conforming generator appends the connection's opening and then the setup. */
  lemma ConformingIs(s: B.State, role: nat, protocol: Protocol, d: Draws)
    ensures ConformingCode(s, role, FreshOne, protocol, d)
         == OpenCode(role, |s.variables|)
           + SetupCode(|s.variables| + 2, |s.variables| + 1, ConformingSetup(protocol, d))
  {
    hide OpenCode, SetupCode;
  }

  /** The builder the generators find at a point outside every block. */
  lemma BuilderAt(p: Program, at: nat)
    requires B.StaticallyValid(p) && at <= |p.instructions| && I.Depth(p.instructions[..at]) == 0
    ensures var r := B.FromPrefix(p.context, p.instructions[..at]);
      && r.Appended? && Wellformed(r.state) && r.state.context == p.context
      && |r.state.variables| == VariableCount(p.instructions[..at])
    ensures B.StaticallyValid(Before(p, at))
  {
    hide B.Steps, B.StaticallyValid, I.Depth, Above, B.Finalize;
    AboveItself(p, at);
    var b := B.FromPrefix(p.context, p.instructions[..at]).state;
    AboveWellformed(b, b);
    I.DepthIsBuilderDepth(p.context, p.instructions[..at]);
    ValidIffGlobal(Before(p, at));
  }

  /**
   * At any point outside every block of a valid program, what the conforming generator appends for a new connection
   * adds one connection and one setup on it, which is conforming, first and noted for nothing, and leaves the actions
   * and the notes of the program around it as they were.
   */
  lemma ConformingPlaced(p: Program, at: nat, role: nat, protocol: Protocol, d: Draws)
    requires B.StaticallyValid(p) && Compile(p).Success? && at <= |p.instructions| && I.Depth(p.instructions[..at]) == 0
    requires role < p.context.numRoles
    ensures Compile(Before(p, at)).Success? && B.FromPrefix(p.context, p.instructions[..at]).Appended?
    ensures var c, s := Lowered(Before(p, at)), B.FromPrefix(p.context, p.instructions[..at]).state;
      var spec := SpecOf(ConformingSetup(protocol, d));
      && Conforming(spec, protocol)
      && Inserts(p, at, ConformingCode(s, role, FreshOne, protocol, d),
           [Action.Connect(c.connections, role), SetupFrame(c.connections, spec),
             Await(c.connections, c.sessions, protocol, true)],
           map[], 1)
  {
    hide B.StaticallyValid, CompileAll, B.Steps, Wellformed, I.Depth, I.Fits, VariableCount, Adds, Inserts, OpenCode,
      SetupCode, Fragment,
      Conforming, SpecOf, ConformingCode, OpenedThen;
    BeforeCompiles(p, at);
    BuilderAt(p, at);
    var c, s := Lowered(Before(p, at)), B.FromPrefix(p.context, p.instructions[..at]).state;
    ConformingTaken(s, role, FreshOne, protocol, d);
    FragmentFits(p, at, role, Reused(s, FreshOne, d).Some?, ConformingCode(s, role, FreshOne, protocol, d));
    ConformingIs(s, role, protocol, d);
    ConformingFragment(Before(p, at), role, protocol, d);
    InsertsAnywhere(p, at, role, SetupCode(|s.variables| + 2, |s.variables| + 1, ConformingSetup(protocol, d)),
      [Action.Connect(c.connections, role), SetupFrame(c.connections, SpecOf(ConformingSetup(protocol, d))),
       Await(c.connections, c.sessions, protocol, true)], map[], 1);
  }

  /** So does each departing fragment, its own setup noted for just what came before it. */
  lemma AdversarialPlaced(p: Program, at: nat, role: nat, departure: Departure, protocol: Protocol, d: Draws)
    requires B.StaticallyValid(p) && Compile(p).Success? && at <= |p.instructions| && I.Depth(p.instructions[..at]) == 0
    requires role < p.context.numRoles
    ensures Compile(Before(p, at)).Success? && B.FromPrefix(p.context, p.instructions[..at]).Appended?
    ensures var c, s := Lowered(Before(p, at)), B.FromPrefix(p.context, p.instructions[..at]).state;
      var spec := SpecOf(DepartingSetup(departure, protocol, d));
      && Departs(departure, spec, protocol)
      && Inserts(p, at, AdversarialCode(s, role, departure, protocol, d),
           DepartingActions(departure, role, c.connections, c.sessions, spec, d.messageType),
           DepartingNotes(departure, |c.actions|), if departure.SecondSetup? then 2 else 1)
  {
    hide B.StaticallyValid, CompileAll, B.Steps, Wellformed, I.Depth, I.Fits, VariableCount, Adds, Inserts, OpenCode,
      DepartingCode, Fragment,
      Departs, SpecOf, DepartingSetup, OpenedThen;
    BeforeCompiles(p, at);
    BuilderAt(p, at);
    var c, s := Lowered(Before(p, at)), B.FromPrefix(p.context, p.instructions[..at]).state;
    AdversarialTaken(s, role, departure, protocol, d);
    FragmentFits(p, at, role, false, AdversarialCode(s, role, departure, protocol, d));
    AdversarialFragment(Before(p, at), role, departure, protocol, d);
    InsertsAnywhere(p, at, role, DepartingCode(departure, |s.variables| + 2, |s.variables| + 1, protocol, d),
      DepartingActions(departure, role, c.connections, c.sessions, SpecOf(DepartingSetup(departure, protocol, d)),
        d.messageType),
      DepartingNotes(departure, |c.actions|), if departure.SecondSetup? then 2 else 1);
  }
}
