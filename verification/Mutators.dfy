/** Rewriting one instruction in place: another variable for an input, or other data for an operation. */
module Mutators {
  import opened Wrappers
  import opened Ir
  import opened Builder
  import opened Scoping
  import opened Renaming
  import opened Nopping

  // ---------------------------------------------------------------------------------------------
  // Swapping one instruction for another
  // ---------------------------------------------------------------------------------------------

  /** Operations that define the same variables and do the same to the blocks around them. */
  predicate SameSignature(a: Operation, b: Operation) {
    && a.OutputVariables() == b.OutputVariables()
    && a.InnerOutputVariables() == b.InnerOutputVariables()
    && a.EnteredContext() == b.EnteredContext()
    && ClosedContext(a) == ClosedContext(b)
    && (a.Nop? <==> b.Nop?)
  }

  function Swapped(p: Program, k: nat, j: Instruction): Program
    requires k < |p.instructions|
  {
    Program(p.context, p.instructions[k := j])
  }

  lemma SameBlocks(a: Operation, b: Operation)
    requires SameSignature(a, b)
    ensures a.IsBlockBegin() == b.IsBlockBegin() && a.IsBlockEnd() == b.IsBlockEnd() && a.Defines() == b.Defines()
  {
    assert a.IsBlockBegin() == a.EnteredContext().Some? && b.IsBlockBegin() == b.EnteredContext().Some?;
    assert a.IsBlockEnd() == ClosedContext(a).Some? && b.IsBlockEnd() == ClosedContext(b).Some?;
  }

  /** After either of two instructions of one signature, the same is in scope. */
  lemma SwapRelated(s: State, i: Instruction, j: Instruction)
    requires Wellformed(s) && Accepts(s, i) && Accepts(s, j) && SameSignature(i.operation, j.operation)
    ensures Step(s, i).Appended? && Step(s, j).Appended?
    ensures var s', t' := Step(s, i).state, Step(s, j).state;
      Related(s', t', Identity(|s'.variables|), {}) && |t'.variables| == |s'.variables|
  {
    hide Step, Wellformed, Accepts, ScopeOpenedBy, Housed, Operation.OutputVariables, Operation.InnerOutputVariables,
      Operation.Defines,
      Operation.EnteredContext, ClosedContext;
    StepTaken(s, i);
    StepTaken(s, j);
    SameBlocks(i.operation, j.operation);
    var s', t' := Step(s, i).state, Step(s, j).state;
    assert Left(s, i.operation) == Left(s, j.operation);
    assert s'.scopes == t'.scopes;
    forall v: nat | v < |s'.variables| ensures t'.variables[v] == s'.variables[v] {
      if v >= |Left(s, i.operation).variables| {
        assert NewVariable(Left(s, i.operation), i.operation, v - |Left(s, i.operation).variables|)
            == NewVariable(Left(s, j.operation), j.operation, v - |Left(s, j.operation).variables|);
      }
    }
  }

  /**
   * A valid program stays valid with an instruction swapped for one of its signature exactly when that is accepted
   * there.
   */
  lemma SwappedValidIff(p: Program, k: nat, j: Instruction)
    requires StaticallyValid(p) && k < |p.instructions| && SameSignature(p.instructions[k].operation, j.operation)
    ensures var before := FromPrefix(p.context, p.instructions[..k]);
      before.Appended? && (StaticallyValid(Swapped(p, k, j)) <==> Accepts(before.state, j))
  {
    hide Step, Steps, Wellformed, Related, Accepts, Finalize, SameSignature;
    var code, other := p.instructions, Swapped(p, k, j).instructions;
    assert code == code[..k] + code[k..] && other == code[..k] + other[k..];
    assert code[k..][1..] == code[k + 1..] && other[k..][1..] == code[k + 1..];
    StepsConcat(New(p.context), code[..k], code[k..]);
    StepsConcat(New(p.context), code[..k], other[k..]);
    var s := FromPrefix(p.context, code[..k]).state;
    NewWellformed(p.context);
    StepsVariables(New(p.context), code[..k]);
    StepsHead(s, code[k..]);
    StepsHead(s, other[k..]);
    StepTaken(s, code[k]);
    StepTaken(s, j);
    ValidIffGlobal(p);
    ValidIffGlobal(Swapped(p, k, j));
    if Accepts(s, j) {
      SwapRelated(s, code[k], j);
      NothingDead(code[k + 1..]);
      NoppedRest(Step(s, code[k]).state, Step(s, j).state, {}, code[k + 1..]);
    }
  }

  lemma NothingDead(code: seq<Instruction>)
    ensures AllAvoid(code, {})
  {
  }

  // ---------------------------------------------------------------------------------------------
  // Rewiring an input
  // ---------------------------------------------------------------------------------------------

  /** The instructions from `k` on that read something. */
  function Readers(code: seq<Instruction>, k: nat): (r: seq<nat>)
    requires k <= |code|
    ensures forall j: nat :: j in r <==> k <= j < |code| && code[j].inputs != []
    decreases |code| - k
  {
    if k == |code| then []
    else (if code[k].inputs == [] then [] else [k]) + Readers(code, k + 1)
  }

  lemma ReadersStep(code: seq<Instruction>, k: nat)
    requires k < |code|
    ensures Readers(code, k) == (if code[k].inputs == [] then [] else [k]) + Readers(code, k + 1)
  {
  }

  lemma ReadersEnd(code: seq<Instruction>)
    ensures Readers(code, |code|) == []
  {
  }

  function Rewired(p: Program, k: nat, slot: nat, v: nat): Program
    requires k < |p.instructions| && slot < |p.instructions[k].inputs|
  {
    Swapped(p, k, Instruction(p.instructions[k].operation, p.instructions[k].inputs[slot := v]))
  }

  /** Rewire one input of one instruction to another variable of its type, all drawn at random. */
  function MutateInput(p: Program, at: nat, slotDraw: nat, pick: nat): Result<Program, MutatorError> {
    match Chosen(Readers(p.instructions, 0), at)
    case None => Failure(NoMutationsAvailable)
    case Some(k) =>
      var before := FromPrefix(p.context, p.instructions[..k]);
      if before.Panicked? then Failure(BuilderPanic)
      else if before.Rejected? then Failure(CreatedInvalidProgram)
      else
        var slot := slotDraw % |p.instructions[k].inputs|;
        var current := p.instructions[k].inputs[slot];
        if !before.state.Visible(current) then Failure(CreatedInvalidProgram)
        else
          match Chosen(VisibleOf(before.state, before.state.variables[current].kind, 0), pick)
          case None => Failure(NoMutationsAvailable)
          case Some(v) => if v == current then Failure(NoMutationsAvailable) else Success(Rewired(p, k, slot, v))
  }

  /**
   * Rewiring an input of a valid program leaves it valid exactly when the new variable is in scope there and of the old
   * type.
   */
  lemma RewiredValidIff(p: Program, k: nat, slot: nat, v: nat)
    requires StaticallyValid(p) && k < |p.instructions| && slot < |p.instructions[k].inputs|
    ensures var before, current := FromPrefix(p.context, p.instructions[..k]), p.instructions[k].inputs[slot];
      && before.Appended? && before.state.Visible(current)
      && (StaticallyValid(Rewired(p, k, slot, v)) <==>
            before.state.Visible(v) && before.state.variables[v].kind == before.state.variables[current].kind)
  {
    hide Steps, Wellformed, Finalize, Operation.InputVariables;
    var i := p.instructions[k];
    var j := Instruction(i.operation, i.inputs[slot := v]);
    SwappedValidIff(p, k, i);
    SwappedValidIff(p, k, j);
    assert Swapped(p, k, i) == p;
    var s := FromPrefix(p.context, p.instructions[..k]).state;
    assert s.Visible(i.inputs[slot]) && KindOf(s, i.inputs[slot]) == i.operation.InputVariables()[slot];
    if Accepts(s, j) {
      assert s.Visible(j.inputs[slot]) && KindOf(s, j.inputs[slot]) == i.operation.InputVariables()[slot];
    }
  }

  /**
   * Whatever the draws, a valid program is rewired to a valid one that differs in one input, or there was nothing to
   * draw.
   */
  lemma MutateInputValid(p: Program, at: nat, slotDraw: nat, pick: nat)
    requires StaticallyValid(p)
    ensures match MutateInput(p, at, slotDraw, pick)
            case Failure(error) => error == NoMutationsAvailable
            case Success(q) =>
              && StaticallyValid(q)
              && exists k: nat, slot: nat, v: nat :: IsRewiring(p, q, k, slot, v)
  {
    hide StaticallyValid, Steps, Readers, VisibleOf;
    var chosen := Chosen(Readers(p.instructions, 0), at);
    if chosen.Some? {
      var k := chosen.value;
      var slot := slotDraw % |p.instructions[k].inputs|;
      RewiredValidIff(p, k, slot, 0);
      var s, current := FromPrefix(p.context, p.instructions[..k]).state, p.instructions[k].inputs[slot];
      var picked := Chosen(VisibleOf(s, s.variables[current].kind, 0), pick);
      if picked.Some? && picked.value != current {
        RewiredValidIff(p, k, slot, picked.value);
        assert IsRewiring(p, Rewired(p, k, slot, picked.value), k, slot, picked.value);
      }
    }
  }

  /** `q` is `p` with one input slot given another variable. */
  predicate IsRewiring(p: Program, q: Program, k: nat, slot: nat, v: nat) {
    && k < |p.instructions| && slot < |p.instructions[k].inputs| && v != p.instructions[k].inputs[slot]
    && q == Rewired(p, k, slot, v)
  }

  /** Every valid rewiring of one input can be drawn. */
  lemma MutateInputReaches(p: Program, k: nat, slot: nat, v: nat) returns (at: nat, slotDraw: nat, pick: nat)
    requires StaticallyValid(p) && k < |p.instructions| && slot < |p.instructions[k].inputs|
      && v != p.instructions[k].inputs[slot]
    requires StaticallyValid(Rewired(p, k, slot, v))
    ensures MutateInput(p, at, slotDraw, pick) == Success(Rewired(p, k, slot, v))
  {
    hide StaticallyValid, Steps, Readers, VisibleOf, Rewired, Chosen;
    RewiredValidIff(p, k, slot, v);
    at := ChosenReaches(Readers(p.instructions, 0), k);
    slotDraw := slot;
    ModSmall(slot, |p.instructions[k].inputs|);
    var s, current := FromPrefix(p.context, p.instructions[..k]).state, p.instructions[k].inputs[slot];
    pick := ChosenReaches(VisibleOf(s, s.variables[current].kind, 0), v);
  }

  /** The mutator, replacing the program it is given. */
  class InputMutator {
    var program: Program

    constructor (program: Program)
      ensures this.program == program
    {
      this.program := program;
    }

    method FindReaders() returns (readers: seq<nat>)
      ensures readers == Readers(program.instructions, 0)
    {
      hide Readers;
      var code := program.instructions;
      readers := [];
      for k := 0 to |code|
        invariant Readers(code, 0) == readers + Readers(code, k)
      {
        ReadersStep(code, k);
        if code[k].inputs != [] {
          readers := readers + [k];
        }
      }
      ReadersEnd(code);
    }

    method Mutate(at: nat, slotDraw: nat, pick: nat) returns (failed: Option<MutatorError>)
      modifies this
      ensures match MutateInput(old(program), at, slotDraw, pick)
              case Success(q) => program == q && failed == None
              case Failure(error) => program == old(program) && failed == Some(error)
    {
      hide Steps, Readers, VisibleOf, State.Visible;
      var readers := FindReaders();
      var reader := Chosen(readers, at);
      if reader.None? {
        return Some(NoMutationsAvailable);
      }
      var k := reader.value;
      var builder := new ProgramBuilder(program.context);
      var reply := builder.AppendEach(program.instructions[..k]);
      if !reply.Fresh? {
        return Some(if reply.Panic? then BuilderPanic else CreatedInvalidProgram);
      }
      var slot := slotDraw % |program.instructions[k].inputs|;
      var current := program.instructions[k].inputs[slot];
      var visible := builder.IsVisible(current);
      if !visible {
        return Some(CreatedInvalidProgram);
      }
      VisibleInRange(builder.View(), current);
      var replacement := builder.GetRandomVariable(builder.variables[current].kind, pick);
      if replacement.None? || replacement.value == current {
        return Some(NoMutationsAvailable);
      }
      var i := program.instructions[k];
      program := Program(program.context,
        program.instructions[k := Instruction(i.operation, i.inputs[slot := replacement.value])]);
      return None;
    }
  }

  lemma VisibleInRange(s: State, v: nat)
    requires s.Visible(v)
    ensures v < |s.variables|
  {
  }

  // ---------------------------------------------------------------------------------------------
  // Rewriting an operation's data
  // ---------------------------------------------------------------------------------------------

  /** Another index below a count, if there is one. */
  function OtherIndex(current: nat, count: nat, draw: nat): (r: Option<nat>) {
    if count == 0 then None
    else if current >= count then Some(draw % count)
    else if count == 1 then None
    else
      var pick := draw % (count - 1);
      Some(if pick >= current then pick + 1 else pick)
  }

  /** How many indices there are to draw from. */
  function Others(current: nat, count: nat): nat {
    if current >= count then count else count - 1
  }

  /**
   * The draws below the number of other indices map one to one onto those indices: each is below the count and
   * not the current one, no two draws give the same, and every one is given by a draw.
   */
  lemma OtherIndexIsOneToOne(current: nat, count: nat)
    ensures OtherIndex(current, count, 0).None? <==> Others(current, count) == 0
    ensures forall d: nat | d < Others(current, count) ::
      OtherIndex(current, count, d).Some? && OtherIndex(current, count, d).value < count
        && OtherIndex(current, count, d).value != current
    ensures forall d: nat, e: nat | d < e < Others(current, count) ::
        OtherIndex(current, count, d) != OtherIndex(current, count, e)
    ensures forall x: nat | x < count && x != current ::
      exists d: nat :: d < Others(current, count) && OtherIndex(current, count, d) == Some(x)
  {
    forall d: nat | d < Others(current, count)
      ensures OtherIndex(current, count, d) == Some(if current >= count || d < current then d else d + 1)
    {
      ModSmall(d, Others(current, count));
    }
    forall x: nat | x < count && x != current
      ensures exists d: nat :: d < Others(current, count) && OtherIndex(current, count, d) == Some(x)
    {
      var d: nat := if current >= count || x < current then x else x - 1;
      assert d < Others(current, count) && OtherIndex(current, count, d) == Some(x);
    }
  }

  /** A number other than `value`, the one drawn unless that is it; no larger than both, or one. */
  function OtherNumber(value: nat, draw: nat): (r: nat)
    ensures r != value && (draw != value ==> r == draw)
    ensures r == draw || r < value || r == 1
  {
    if draw != value then draw else if value == 0 then 1 else value - 1
  }

  function OtherFlags(value: bv32, draw: bv32): (r: bv32)
    ensures r != value && (draw != value ==> r == draw)
  {
    if draw != value then draw else value ^ 1
  }

  /**
   * No letters, as many as a field takes or one more, or the text with another letter: the last if the one drawn
   * is the text itself.
   */
  function OtherText(value: Text, kind: nat, letter: nat): (r: Text)
    ensures r != value
  {
    var more := value + [97 + letter % 26];
    var drawn := match kind % 4
      case 0 => []
      case 1 => Repeated<Byte>(97, 255)
      case 2 => Repeated<Byte>(97, 256)
      case _ => more;
    assert |more| == |value| + 1;
    if drawn != value then drawn else more
  }

  function BitOf(k: nat): (r: nat)
    ensures r in {1, 2, 4, 8, 16, 32, 64, 128}
  {
    match k % 8
    case 0 => 1
    case 1 => 2
    case 2 => 4
    case 3 => 8
    case 4 => 16
    case 5 => 32
    case 6 => 64
    case _ => 128
  }

  function Flip(b: Byte, k: nat): (r: Byte)
    ensures r == b + BitOf(k) || r == b - BitOf(k)
    ensures r != b
  {
    var bit := BitOf(k);
    if (b / bit) % 2 == 0 then b + bit else b - bit
  }

  /** Bytes a bit away, or longer or shorter by one; nothing to shorten or flip can only grow. */
  function OtherBytes(value: seq<Byte>, kind: nat, at: nat, byte: Byte): (r: seq<Byte>)
    ensures r != value
  {
    if value == [] || kind % 3 == 1 then
      assert |value + [byte]| == |value| + 1;
      value + [byte]
    else if kind % 3 == 0 then
      var k := at % |value|;
      var r := value[k := Flip(value[k], kind / 3)];
      assert r[k] != value[k];
      r
    else value[..|value| - 1]
  }

  /** What a rewrite draws, each part used only by the operations that need it. */
  datatype Draw = Draw(index: nat, word: Word16, byte: Byte, flags: bv32, kind: nat, at: nat, duration: nat, coin: bool)

  function MutateOperation(op: Operation, context: ProgramContext, d: Draw): Option<Operation> {
    match op
    case LoadRole(role) =>
      var other := OtherIndex(role, context.numRoles, d.index);
      if other.Some? then Some(LoadRole(other.value)) else None
    case LoadConnection(connection) =>
      var other := OtherIndex(connection, context.numConnections, d.index);
      if other.Some? then Some(LoadConnection(other.value)) else None
    case LoadVersion(v) => Some(LoadVersion(OtherNumber(v, d.word)))
    case LoadFlags(v) => Some(LoadFlags(OtherFlags(v, d.flags)))
    case LoadPort(v) => Some(LoadPort(OtherNumber(v, d.word)))
    case LoadStr(v) => Some(LoadStr(OtherText(v, d.kind, d.at)))
    case LoadBytes(v) => Some(LoadBytes(OtherBytes(v, d.kind, d.at, d.byte)))
    case LoadDuration(v) => Some(LoadDuration(OtherNumber(v, d.duration)))
    case SendRawFrame(messageType, extensionType) =>
      Some(if d.coin then SendRawFrame(OtherNumber(messageType, d.byte), extensionType)
           else SendRawFrame(messageType, OtherNumber(extensionType, d.word)))
    case _ => None
  }

  /** Whether an operation carries data with another value to take. */
  predicate Mutable(op: Operation, context: ProgramContext) {
    match op
    case LoadRole(role) => Others(role, context.numRoles) > 0
    case LoadConnection(connection) => Others(connection, context.numConnections) > 0
    case _ =>
      || op.LoadVersion? || op.LoadFlags? || op.LoadPort? || op.LoadStr? || op.LoadBytes? || op.LoadDuration?
        || op.SendRawFrame?
  }

  /** Two operations that differ at most in the data they carry, and carry some. */
  predicate SameKind(a: Operation, b: Operation) {
    || (a.LoadRole? && b.LoadRole?) || (a.LoadConnection? && b.LoadConnection?) || (a.LoadVersion? && b.LoadVersion?)
    || (a.LoadFlags? && b.LoadFlags?) || (a.LoadPort? && b.LoadPort?) || (a.LoadStr? && b.LoadStr?)
    || (a.LoadBytes? && b.LoadBytes?) || (a.LoadDuration? && b.LoadDuration?) || (a.SendRawFrame? && b.SendRawFrame?)
  }

  lemma SameKindSameSignature(a: Operation, b: Operation)
    requires SameKind(a, b)
    ensures SameSignature(a, b) && a.InputVariables() == b.InputVariables()
  {
  }

  lemma OtherIndexIffAny(current: nat, count: nat, draw: nat)
    ensures OtherIndex(current, count, draw).Some? <==> Others(current, count) > 0
    ensures OtherIndex(current, count, draw).Some? ==>
      OtherIndex(current, count, draw).value < count && OtherIndex(current, count, draw).value != current
  {
  }

  /**
   * Whether an operation can be rewritten does not depend on the draws; a rewrite changes it, keeps what it
   * reads and defines, and names only roles and connections the context has.
   */
  lemma MutationKeepsSignature(op: Operation, context: ProgramContext, d: Draw)
    ensures MutateOperation(op, context, d).Some? <==> Mutable(op, context)
    ensures MutateOperation(op, context, d).Some? ==>
      var op' := MutateOperation(op, context, d).value;
      && op' != op
      && SameSignature(op, op') && op'.InputVariables() == op.InputVariables()
      && (op'.LoadRole? ==> op'.role < context.numRoles)
      && (op'.LoadConnection? ==> op'.connection < context.numConnections)
  {
    hide OtherIndex, OtherText, OtherBytes, OtherNumber, OtherFlags, SameSignature, Operation.InputVariables;
    if MutateOperation(op, context, d).Some? && SameKind(op, MutateOperation(op, context, d).value) {
      SameKindSameSignature(op, MutateOperation(op, context, d).value);
    }
    match op {
      case LoadRole(role) => OtherIndexIffAny(role, context.numRoles, d.index);
      case LoadConnection(connection) => OtherIndexIffAny(connection, context.numConnections, d.index);
      case _ =>
    }
  }

  // ---------------------------------------------------------------------------------------------
  // Just which rewrites there are
  // ---------------------------------------------------------------------------------------------

  /** One byte has one bit of it the other way round. */
  predicate BitApart(x: int, y: int) {
    exists bit | bit in {1, 2, 4, 8, 16, 32, 64, 128} :: y == if x / bit % 2 == 0 then x + bit else x - bit
  }

  /** The same bytes but for one bit. */
  predicate OneBitApart(a: seq<Byte>, b: seq<Byte>) {
    |a| == |b| && exists k :: 0 <= k < |a| && BitApart(a[k], b[k]) && b == a[k := b[k]]
  }

  /** The rewrites of an operation: other data of the same kind, and which. */
  predicate Rewrite(op: Operation, context: ProgramContext, other: Operation) {
    match op
    case LoadRole(x) => other.LoadRole? && other.role != x && other.role < context.numRoles
    case LoadConnection(x) =>
      other.LoadConnection? && other.connection != x && other.connection < context.numConnections
    case LoadVersion(x) => other.LoadVersion? && other.version != x
    case LoadFlags(x) => other.LoadFlags? && other.flags != x
    case LoadPort(x) => other.LoadPort? && other.port != x
    case LoadStr(x) =>
      && other.LoadStr? && other.text != x
      && (|| other.text == []
          || (|other.text| in {255, 256} && forall k | 0 <= k < |other.text| :: other.text[k] == 97)
          || (|other.text| == |x| + 1 && other.text[..|x|] == x && 97 <= other.text[|x|] <= 122))
    case LoadBytes(x) =>
      && other.LoadBytes?
      && (|| OneBitApart(x, other.bytes)
          || (|other.bytes| == |x| + 1 && other.bytes[..|x|] == x)
          || (x != [] && other.bytes == x[..|x| - 1]))
    case LoadDuration(x) => other.LoadDuration? && other.duration != x
    case SendRawFrame(messageType, extension) =>
      && other.SendRawFrame?
      && (|| (other.messageType != messageType && other.extensionType == extension)
          || (other.messageType == messageType && other.extensionType != extension))
    case _ => false
  }

  lemma FlipIsBitApart(b: Byte, k: nat)
    ensures BitApart(b, Flip(b, k))
  {
    var bit := BitOf(k);
    assert bit in {1, 2, 4, 8, 16, 32, 64, 128};
  }

  lemma BytesRewritten(x: seq<Byte>, kind: nat, at: nat, byte: Byte)
    ensures var y := OtherBytes(x, kind, at, byte);
      OneBitApart(x, y) || (|y| == |x| + 1 && y[..|x|] == x) || (x != [] && y == x[..|x| - 1])
  {
    hide Flip, BitApart;
    if x != [] && kind % 3 == 0 {
      var k := at % |x|;
      FlipIsBitApart(x[k], kind / 3);
    }
  }

  lemma MutationRewrites(op: Operation, context: ProgramContext, d: Draw)
    requires MutateOperation(op, context, d).Some?
    ensures Rewrite(op, context, MutateOperation(op, context, d).value)
  {
    hide OtherIndex, OtherBytes, OneBitApart;
    match op {
      case LoadRole(role) => OtherIndexIffAny(role, context.numRoles, d.index);
      case LoadConnection(connection) => OtherIndexIffAny(connection, context.numConnections, d.index);
      case LoadBytes(x) => BytesRewritten(x, d.kind, d.at, d.byte);
      case _ =>
    }
  }

  const ANY: Draw := Draw(0, 0, 0, 0, 0, 0, 0, true)

  lemma BitDrawn(x: Byte, y: Byte) returns (k: nat)
    requires BitApart(x, y)
    ensures k < 8 && Flip(x, k) == y
  {
    var bit :| bit in {1, 2, 4, 8, 16, 32, 64, 128} && y == if x / bit % 2 == 0 then x + bit else x - bit;
    k := if bit == 1 then 0 else if bit == 2 then 1 else if bit == 4 then 2 else if bit == 8 then 3
         else if bit == 16 then 4 else if bit == 32 then 5 else if bit == 64 then 6 else 7;
  }

  lemma BytesDrawn(x: seq<Byte>, y: seq<Byte>) returns (d: Draw)
    requires OneBitApart(x, y) || (|y| == |x| + 1 && y[..|x|] == x) || (x != [] && y == x[..|x| - 1])
    ensures OtherBytes(x, d.kind, d.at, d.byte) == y
  {
    hide Flip, BitApart;
    if |y| == |x| + 1 {
      d := ANY.(kind := 1, byte := y[|x|]);
      assert y == x + [y[|x|]];
    } else if OneBitApart(x, y) {
      var k :| 0 <= k < |x| && BitApart(x[k], y[k]) && y == x[k := y[k]];
      var bit := BitDrawn(x[k], y[k]);
      d := ANY.(kind := 3 * bit, at := k);
      assert k % |x| == k by { ModSmall(k, |x|); }
      assert 3 * bit % 3 == 0 && 3 * bit / 3 == bit;
    } else {
      d := ANY.(kind := 2);
    }
  }

  lemma TextDrawn(x: Text, y: Text) returns (d: Draw)
    requires y != x
    requires || y == []
             || (|y| in {255, 256} && forall k | 0 <= k < |y| :: y[k] == 97)
             || (|y| == |x| + 1 && y[..|x|] == x && 97 <= y[|x|] <= 122)
    ensures OtherText(x, d.kind, d.at) == y
  {
    if |y| == |x| + 1 && y[..|x|] == x && 97 <= y[|x|] <= 122 {
      d := ANY.(kind := 3, at := y[|x|] - 97);
      assert y == x + [y[|x|]];
    } else if y == [] {
      d := ANY;
    } else if |y| == 255 {
      d := ANY.(kind := 1);
      assert y == Repeated<Byte>(97, 255);
    } else {
      d := ANY.(kind := 2);
      assert y == Repeated<Byte>(97, 256);
    }
  }

  /** Every rewrite can be drawn. */
  lemma RewriteDrawn(op: Operation, context: ProgramContext, other: Operation) returns (d: Draw)
    requires Rewrite(op, context, other)
    ensures MutateOperation(op, context, d) == Some(other)
  {
    hide OtherIndex, OtherBytes, OneBitApart, OtherText, Others;
    d := ANY;
    match op {
      case LoadRole(x) =>
        OtherIndexIsOneToOne(x, context.numRoles);
        var index: nat :| OtherIndex(x, context.numRoles, index) == Some(other.role);
        d := ANY.(index := index);
      case LoadConnection(x) =>
        OtherIndexIsOneToOne(x, context.numConnections);
        var index: nat :| OtherIndex(x, context.numConnections, index) == Some(other.connection);
        d := ANY.(index := index);
      case LoadVersion(x) => d := ANY.(word := other.version);
      case LoadFlags(x) => d := ANY.(flags := other.flags);
      case LoadPort(x) => d := ANY.(word := other.port);
      case LoadStr(x) => d := TextDrawn(x, other.text);
      case LoadBytes(x) => d := BytesDrawn(x, other.bytes);
      case LoadDuration(x) => d := ANY.(duration := other.duration);
      case SendRawFrame(messageType, extension) =>
        d := if other.messageType != messageType then ANY.(byte := other.messageType)
             else ANY.(coin := false, word := other.extensionType);
    }
  }

  /** An operation is rewritten to just these. */
  lemma RewritesExactly(op: Operation, context: ProgramContext, other: Operation)
    ensures (exists d: Draw :: MutateOperation(op, context, d) == Some(other)) <==> Rewrite(op, context, other)
  {
    hide MutateOperation, Rewrite;
    if Rewrite(op, context, other) {
      var d := RewriteDrawn(op, context, other);
    }
    if d: Draw :| MutateOperation(op, context, d) == Some(other) {
      MutationRewrites(op, context, d);
    }
  }

  /** Rewriting an operation of a valid program leaves it valid. */
  lemma MutationValid(p: Program, k: nat, d: Draw)
    requires StaticallyValid(p) && k < |p.instructions|
      && MutateOperation(p.instructions[k].operation, p.context, d).Some?
    ensures StaticallyValid(Swapped(p, k,
      Instruction(MutateOperation(p.instructions[k].operation, p.context, d).value, p.instructions[k].inputs)))
  {
    hide MutateOperation, Steps, Wellformed, Finalize, Operation.InputVariables, SameSignature, Step, State.Visible,
      KindOf;
    var i := p.instructions[k];
    var j := Instruction(MutateOperation(i.operation, p.context, d).value, i.inputs);
    MutationKeepsSignature(i.operation, p.context, d);
    SwappedValidIff(p, k, j);
    assert SameSignature(i.operation, i.operation) by { SignatureOfItself(i.operation); }
    SwappedValidIff(p, k, i);
    assert Swapped(p, k, i) == p;
    NewWellformed(p.context);
    StepsVariables(New(p.context), p.instructions[..k]);
    SignatureEnds(i.operation, j.operation);
  }

  lemma SignatureOfItself(a: Operation)
    ensures SameSignature(a, a)
  {
  }

  lemma SignatureEnds(a: Operation, b: Operation)
    requires SameSignature(a, b)
    ensures ClosedContext(a) == ClosedContext(b) && a.IsBlockEnd() == b.IsBlockEnd()
  {
    SameBlocks(a, b);
  }

  class OperationMutator {
    var program: Program

    constructor (program: Program)
      ensures this.program == program
    {
      this.program := program;
    }

    /**
     * Rewrite the first instruction, in a shuffled order, that can be: a valid program stays valid and differs
     * in the data of that one instruction. It fails only if no instruction can be rewritten.
     */
    method Mutate(order: seq<nat>, draws: nat -> Draw) returns (failed: Option<MutatorError>)
      requires forall n | 0 <= n < |order| :: order[n] < |program.instructions|
      requires forall k: nat | k < |program.instructions| :: k in order
      modifies this
      ensures failed.None? ==> exists n: nat :: IsRewrite(old(program), program, order, draws, n)
      ensures failed.None? && StaticallyValid(old(program)) ==> StaticallyValid(program)
      ensures failed.Some? ==> failed == Some(NoMutationsAvailable) && program == old(program)
      ensures failed.Some? <==> forall i | i in old(program).instructions :: !Mutable(i.operation, program.context)
    {
      hide MutateOperation, Mutable, StaticallyValid;
      for n := 0 to |order|
        invariant program == old(program)
        invariant forall m: nat | m < n :: !Mutable(program.instructions[order[m]].operation, program.context)
      {
        var k := order[n];
        var i := program.instructions[k];
        MutationKeepsSignature(i.operation, program.context, draws(n));
        var mutated := MutateOperation(i.operation, program.context, draws(n));
        if mutated.Some? {
          if StaticallyValid(program) {
            MutationValid(program, k, draws(n));
          }
          assert i in program.instructions;
          program := Program(program.context, program.instructions[k := Instruction(mutated.value, i.inputs)]);
          assert IsRewrite(old(program), program, order, draws, n);
          return None;
        }
      }
      forall i | i in program.instructions ensures !Mutable(i.operation, program.context) {
        var k: nat :| k < |program.instructions| && program.instructions[k] == i;
        assert k in order;
        var m :| 0 <= m < |order| && order[m] == k;
      }
      return Some(NoMutationsAvailable);
    }
  }

  /** `q` is `p` with the `n`th instruction in the order, the first that can be, rewritten to another. */
  predicate IsRewrite(p: Program, q: Program, order: seq<nat>, draws: nat -> Draw, n: nat) {
    && n < |order| && (forall m | 0 <= m <= n :: order[m] < |p.instructions|)
    && (forall m | 0 <= m < n :: !Mutable(p.instructions[order[m]].operation, p.context))
    && var i := p.instructions[order[n]];
    var op := MutateOperation(i.operation, p.context, draws(n));
    op.Some? && op.value != i.operation && q == Swapped(p, order[n], Instruction(op.value, i.inputs))
  }
}
