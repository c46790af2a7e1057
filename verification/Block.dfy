/** Removing whole blocks, from a beginning to its matching end. */
module Block {
  import opened Wrappers
  import opened Ir
  import opened Builder
  import opened Scoping
  import opened Renaming
  import opened Removal
  import L = Lifecycle

  /** The first end, from instruction `k` on, that closes one block more than the code from there opens. */
  function MatchFrom(code: seq<Instruction>, k: nat, depth: nat): (r: Option<nat>)
    requires depth > 0
    ensures r.Some? ==> k <= r.value < |code|
    decreases |code| - k
  {
    if k >= |code| then None
    else if code[k].operation.IsBlockBegin() then MatchFrom(code, k + 1, depth + 1)
    else if code[k].operation.IsBlockEnd() then
      if depth == 1 then Some(k) else MatchFrom(code, k + 1, depth - 1)
    else MatchFrom(code, k + 1, depth)
  }

  function MatchingEnd(code: seq<Instruction>, begin: nat): (r: Option<nat>)
    requires begin < |code| && code[begin].operation.IsBlockBegin()
    ensures r.Some? ==> begin < r.value < |code|
  {
    MatchFrom(code, begin + 1, 1)
  }

  method FindMatchingEnd(code: seq<Instruction>, begin: nat) returns (r: Option<nat>)
    requires begin < |code| && code[begin].operation.IsBlockBegin()
    ensures r == MatchingEnd(code, begin)
  {
    var depth := 0;
    for k := begin to |code|
      invariant k == begin ==> depth == 0
      invariant k > begin ==> depth > 0 && MatchingEnd(code, begin) == MatchFrom(code, k, depth)
    {
      if code[k].operation.IsBlockBegin() {
        depth := depth + 1;
      }
      if code[k].operation.IsBlockEnd() {
        depth := depth - 1;
        if depth == 0 {
          return Some(k);
        }
      }
    }
    return None;
  }

  /** Instruction `end` ends the block `begin` begins: that is the innermost block open just before it. */
  predicate Pairs(code: seq<Instruction>, begin: nat, end: nat) {
    && begin < end < |code|
    && code[end].operation.IsBlockEnd()
    && var open := OpenBlocks(code[..end]); open != [] && open[|open| - 1] == begin
  }

  lemma OpenOneMore(code: seq<Instruction>, k: nat)
    requires k < |code|
    ensures OpenBlocks(code[..k + 1]) == OpenAfter(OpenBlocks(code[..k]), code[k].operation, k)
  {
    assert code[..k + 1][..k] == code[..k];
  }

  /** While the scan is inside the block, the block is open at the depth the scan keeps. */
  lemma {:induction false} MatchFromPairs(code: seq<Instruction>, begin: nat, outer: nat, k: nat, depth: nat)
    requires begin < k <= |code| && depth > 0
    requires |OpenBlocks(code[..k])| == outer + depth && OpenBlocks(code[..k])[outer] == begin
    ensures var r := MatchFrom(code, k, depth);
      match r
      case Some(end) =>
        && Pairs(code, begin, end)
        && forall e | k <= e < end :: !Pairs(code, begin, e)
      case None =>
        && |OpenBlocks(code)| > outer && OpenBlocks(code)[outer] == begin
    decreases |code| - k
  {
    hide OpenBlocks, Operation.IsBlockBegin, Operation.IsBlockEnd;
    if k == |code| {
      assert code[..k] == code;
    } else {
      OpenOneMore(code, k);
      OpenDistinct(code[..k]);
      BeginsAreNotEnds(code[k].operation);
      var op := code[k].operation;
      if op.IsBlockBegin() {
        MatchFromPairs(code, begin, outer, k + 1, depth + 1);
      } else if !op.IsBlockEnd() {
        MatchFromPairs(code, begin, outer, k + 1, depth);
      } else if depth > 1 {
        MatchFromPairs(code, begin, outer, k + 1, depth - 1);
      }
    }
  }

  lemma BeginsAreNotEnds(op: Operation)
    ensures !(op.IsBlockBegin() && op.IsBlockEnd())
  {
  }

  /** No block is open twice. */
  lemma {:induction false} OpenDistinct(code: seq<Instruction>)
    ensures forall i, j | 0 <= i < j < |OpenBlocks(code)| :: OpenBlocks(code)[i] < OpenBlocks(code)[j]
  {
    if code != [] {
      OpenDistinct(code[..|code| - 1]);
    }
  }

  /** In a valid program every block has a matching end, and it is the one instruction the builder pairs with it. */
  lemma MatchingEndPairs(p: Program, begin: nat)
    requires StaticallyValid(p) && begin < |p.instructions| && p.instructions[begin].operation.IsBlockBegin()
    ensures var end := MatchingEnd(p.instructions, begin);
      && end.Some? && Pairs(p.instructions, begin, end.value)
      && forall e | 0 <= e < end.value :: !Pairs(p.instructions, begin, e)
    ensures var s := FromPrefix(p.context, p.instructions[..MatchingEnd(p.instructions, begin).value]);
      s.Appended? && |s.state.scopes| > 0 && s.state.scopes[|s.state.scopes| - 1].begin == Some(begin)
  {
    hide Steps, OpenBlocks, Finalize, MatchFrom, Wellformed, Homes;
    var code := p.instructions;
    var outer := |OpenBlocks(code[..begin])|;
    OpenOneMore(code, begin);
    MatchFromPairs(code, begin, outer, begin + 1, 1);
    ValidIffGlobal(p);
    Reached(p.context, code);
    assert OpenBlocks(code) == [];
    var end := MatchingEnd(code, begin).value;
    assert code == code[..end] + code[end..];
    StepsConcat(New(p.context), code[..end], code[end..]);
    Reached(p.context, code[..end]);
  }

  // ---------------------------------------------------------------------------------------------
  // Removing a block
  // ---------------------------------------------------------------------------------------------

  function BlockMask(total: nat, begin: nat, end: nat): seq<bool> {
    seq(total, k => begin <= k <= end)
  }

  /** The program without the block `begin` begins, or `None` where no block begins or none ends it. */
  function WithoutBlock(p: Program, begin: nat): Option<Program>
    requires begin < |p.instructions|
  {
    if !p.instructions[begin].operation.IsBlockBegin() then None
    else
      match MatchingEnd(p.instructions, begin)
      case None => None
      case Some(end) => Some(Without(p, BlockMask(|p.instructions|, begin, end)))
  }

  lemma {:induction false} KeepLength(code: seq<Instruction>, begin: nat, end: nat, k: nat, m: seq<nat>)
    requires k <= |code| && begin <= end < |code|
    ensures |Keep(code, BlockMask(|code|, begin, end), k, m)| ==
            if k <= begin then |code| - k - (end + 1 - begin) else if k <= end then |code| - end - 1 else |code| - k
    decreases |code| - k
  {
    hide RenameOne;
    if k < |code| {
      KeepLength(code, begin, end, k + 1, m);
    }
  }

  lemma WithoutBlockShorter(p: Program, begin: nat)
    requires begin < |p.instructions| && WithoutBlock(p, begin).Some?
    ensures |WithoutBlock(p, begin).value.instructions| < |p.instructions|
  {
    hide Keep, Mapping;
    var code := p.instructions;
    var end := MatchingEnd(code, begin).value;
    KeepLength(code, begin, end, 0, Mapping(code, BlockMask(|code|, begin, end), 0, 0));
  }

  /** From where the scan is, what is left of the block ends as many blocks as it is deep. */
  lemma {:induction false} MatchBalance(code: seq<Instruction>, k: nat, depth: nat)
    requires depth > 0 && MatchFrom(code, k, depth).Some?
    ensures L.Balance(code[k..MatchFrom(code, k, depth).value + 1]) + depth == 0
    decreases |code| - k
  {
    hide Operation.IsBlockBegin, Operation.IsBlockEnd, L.Balance;
    var op, end := code[k].operation, MatchFrom(code, k, depth).value;
    BeginsAreNotEnds(op);
    L.BalanceOne(code[k]);
    assert code[k..end + 1] == [code[k]] + code[k + 1..end + 1];
    L.BalanceConcat([code[k]], code[k + 1..end + 1]);
    if op.IsBlockBegin() {
      MatchBalance(code, k + 1, depth + 1);
    } else if !op.IsBlockEnd() {
      MatchBalance(code, k + 1, depth);
    } else if depth > 1 {
      MatchBalance(code, k + 1, depth - 1);
    } else {
      assert code[k + 1..end + 1] == [];
      NothingBalanced();
    }
  }

  lemma NothingBalanced()
    ensures L.Balance([]) == 0
  {
  }

  /** Renaming inputs does not matter to the blocks, nor does a block left out. */
  lemma {:induction false} KeepEndsInside(code: seq<Instruction>, begin: nat, end: nat, k: nat, m: seq<nat>, depth: int)
    requires begin <= end < |code| && (k <= begin || end < k <= |code|)
    requires L.EndsInside(code[k..], depth) && L.Balance(code[begin..end + 1]) == 0
    ensures L.EndsInside(Keep(code, BlockMask(|code|, begin, end), k, m), depth)
    decreases |code| - k
  {
    hide L.Balance, RenameOne, Operation.IsBlockEnd;
    if k == begin {
      assert code[k..] == code[begin..end + 1] + code[end + 1..];
      L.EndsInsideConcat(code[begin..end + 1], code[end + 1..], depth);
      KeepPast(code, begin, end, begin, m);
      KeepEndsInside(code, begin, end, end + 1, m, depth);
    } else if k < |code| {
      assert code[k..][0] == code[k] && code[k..][1..] == code[k + 1..];
      RenamedBalance(code[k], m);
      KeepEndsInside(code, begin, end, k + 1, m, depth + L.Balance([code[k]]));
      var kept := Keep(code, BlockMask(|code|, begin, end), k, m);
      assert kept[0] == RenameOne(code[k], m) && kept[1..] == Keep(code, BlockMask(|code|, begin, end), k + 1, m);
    }
  }

  lemma {:induction false} KeepPast(code: seq<Instruction>, begin: nat, end: nat, k: nat, m: seq<nat>)
    requires begin <= k <= end + 1 <= |code|
    ensures Keep(code, BlockMask(|code|, begin, end), k, m) == Keep(code, BlockMask(|code|, begin, end), end + 1, m)
    decreases end + 1 - k
  {
    hide RenameOne;
    if k <= end {
      KeepPast(code, begin, end, k + 1, m);
    }
  }

  lemma RenamedBalance(i: Instruction, m: seq<nat>)
    ensures L.Balance([RenameOne(i, m)]) == L.Balance([i])
    ensures RenameOne(i, m).operation.IsBlockEnd() == i.operation.IsBlockEnd()
  {
    L.BalanceOne(i);
    L.BalanceOne(RenameOne(i, m));
  }

  /** Checking a valid program without a block of it never panics. */
  lemma WithoutBlockNeverPanics(p: Program, begin: nat)
    requires StaticallyValid(p) && begin < |p.instructions| && WithoutBlock(p, begin).Some?
    ensures Validity(WithoutBlock(p, begin).value) == Some(StaticallyValid(WithoutBlock(p, begin).value))
  {
    hide StaticallyValid, L.EndsInside, L.Balance, Keep, Mapping, MatchFrom;
    var code := p.instructions;
    var end := MatchingEnd(code, begin).value;
    L.ValidEndsInside(p);
    MatchBalance(code, begin + 1, 1);
    L.BalanceOne(code[begin]);
    assert code[begin..end + 1] == [code[begin]] + code[begin + 1..end + 1];
    L.BalanceConcat([code[begin]], code[begin + 1..end + 1]);
    assert code[0..] == code;
    KeepEndsInside(code, begin, end, 0, Mapping(code, BlockMask(|code|, begin, end), 0, 0), 0);
    L.NeverPanics(WithoutBlock(p, begin).value);
  }

  /** A block whose removal leaves a valid program. */
  predicate Removable(p: Program, begin: nat)
    requires begin < |p.instructions|
  {
    WithoutBlock(p, begin).Some? && StaticallyValid(WithoutBlock(p, begin).value)
  }

  class BlockMinimizer {
    var program: Program
    var candidate: Option<Program>
    var next: nat

    ghost predicate Valid()
      reads this
    {
      && StaticallyValid(program)
      && (candidate.Some? ==>
            next < |program.instructions| && Removable(program, next) && candidate == WithoutBlock(program, next))
    }

    constructor (program: Program)
      requires StaticallyValid(program)
      ensures Valid() && this.program == program && candidate == None && next == 0
    {
      this.program := program;
      candidate := None;
      next := 0;
    }

    /** The next block whose removal is valid; none of those passed over was. */
    method Next() returns (r: Option<Program>)
      requires Valid()
      modifies this`candidate, this`next
      ensures Valid() && candidate == r && old(next) <= next
      ensures old(candidate).Some? ==> r == old(candidate) && next == old(next)
      ensures r.None? ==> next >= |program.instructions|
      ensures r.Some? ==> next < |program.instructions|
      ensures forall k | old(next) <= k < next && k < |program.instructions| :: !Removable(program, k)
    {
      hide StaticallyValid, Validity;
      while next < |program.instructions|
        invariant old(next) <= next && candidate == old(candidate)
        invariant candidate.Some? ==> next == old(next)
        invariant forall k | old(next) <= k < next && k < |program.instructions| :: !Removable(program, k)
        decreases |program.instructions| - next
      {
        if !program.instructions[next].operation.IsBlockBegin() {
          next := next + 1;
          continue;
        }
        var end := FindMatchingEnd(program.instructions, next);
        if end.None? {
          next := next + 1;
          continue;
        }
        ValidInRange(program);
        var attempt := WithoutMarked(program, BlockMask(|program.instructions|, next, end.value));
        WithoutBlockNeverPanics(program, next);
        var valid := IsStaticallyValid(attempt);
        if valid.value {
          candidate := Some(attempt);
          return candidate;
        }
        next := next + 1;
      }
      return None;
    }

    /** A kept candidate is a shorter program, scanned again from the start. */
    method Success()
      requires Valid()
      modifies this
      ensures Valid() && candidate == None
      ensures old(candidate).None? ==> program == old(program) && next == old(next)
      ensures old(candidate).Some? ==>
                program == old(candidate).value && next == 0 && |program.instructions| < |old(program).instructions|
    {
      hide StaticallyValid, WithoutBlock;
      if candidate.Some? {
        WithoutBlockShorter(program, next);
        program := candidate.value;
        candidate := None;
        next := 0;
      }
    }

    method Failure()
      requires Valid()
      modifies this`candidate, this`next
      ensures Valid() && candidate == None && next == old(next) + 1
    {
      candidate := None;
      next := next + 1;
    }
  }
}
