/** The fuzzer's three minimizing stages, repeated while any of them makes progress. */
module Minimization {
  import opened Wrappers
  import opened Ir
  import opened Builder
  import opened Removal
  import opened Stage
  import C = Cutting

  /** The three stages of one fuzzer: each with its own patience, and one count of the passes that made progress. */
  predicate Together(cutting: IrMinimizerStage, block: IrMinimizerStage, nopping: IrMinimizerStage) {
    && cutting != block && block != nopping && cutting != nopping
    && cutting.progress == block.progress == nopping.progress
    && cutting.minimizingCrash == block.minimizingCrash == nopping.minimizingCrash
  }

  /** The entry with what a pass saved in place of its program. */
  function Saved(entry: Entry, r: Reduction): Entry {
    entry.(program := r.saved)
  }

  /**
   * Minimize a corpus entry: cutting, then blocks, then nops, over and over while one of the three made progress. It
   * ends, since each pass that makes progress saves a shorter program. With deterministic executors, what it ends
   * with is minimal for each stage that still has patience: no block can be removed, no instruction nopped, and no
   * last instruction of several cut off, validly and acceptably. `runs` are the executors of one pass after another.
   */
  method Minimize(
    cutting: IrMinimizerStage, block: IrMinimizerStage, nopping: IrMinimizerStage, enabled: bool, entry: Entry,
      runs: nat -> Executor)
    returns (last: Entry, passes: nat)
    requires Together(cutting, block, nopping) && StaticallyValid(entry.program)
    requires forall k: nat :: Settles(runs(k))
    modifies cutting`consecutiveFailures, block`consecutiveFailures, nopping`consecutiveFailures, cutting.progress
    ensures StaticallyValid(last.program) && last == entry.(program := last.program)
    ensures |last.program.instructions| <= |entry.program.instructions|
    ensures passes <= 3 * (|entry.program.instructions| - |last.program.instructions| + 1)
    ensures !enabled || entry.scheduled > 0 ==> last == entry
    ensures enabled ==> passes >= 3 && cutting.progress.count == 0
    ensures enabled && entry.scheduled == 0 ==>
              Minimal(cutting, block, nopping, last, runs(passes - 3), runs(passes - 2), runs(passes - 1))
  {
    hide StaticallyValid, Settles, IrMinimizerStage.Passed, IrMinimizerStage.Cuttable, IrMinimizerStage.Reducible,
      IrMinimizerStage.Noppable, Deterministic;
    var progress := cutting.progress;
    progress.count := 1;
    last, passes := entry, 0;
    while enabled && progress.count > 0
      invariant StaticallyValid(last.program) && last == entry.(program := last.program)
      invariant |last.program.instructions| <= |entry.program.instructions|
      invariant entry.scheduled > 0 ==> last == entry
      invariant var rounds := |entry.program.instructions| - |last.program.instructions|;
          passes <= 3 * (rounds + if progress.count > 0 then 0 else 1)
      invariant !enabled ==> passes == 0
      invariant passes == 0 ==> progress.count > 0 && last == entry
      invariant progress.count == 0 ==> passes >= 3
      invariant enabled && progress.count == 0 && entry.scheduled == 0 ==>
          Minimal(cutting, block, nopping, last, runs(passes - 3), runs(passes - 2), runs(passes - 1))
      decreases |last.program.instructions|, progress.count
    {
      progress.count := 0;
      var reduced;
      ghost var trail;
      ghost var before := cutting.consecutiveFailures;
      reduced, trail := cutting.PerformCutting(last, runs(passes));
      cutting.PassedSaves(last, runs(passes), before, cutting.consecutiveFailures, reduced, trail);
      last := Saved(last, reduced);
      before := block.consecutiveFailures;
      reduced, trail := block.PerformBlock(last, runs(passes + 1));
      block.PassedSaves(last, runs(passes + 1), before, block.consecutiveFailures, reduced, trail);
      last := Saved(last, reduced);
      before := nopping.consecutiveFailures;
      reduced, trail := nopping.PerformNopping(last, runs(passes + 2));
      nopping.PassedSaves(last, runs(passes + 2), before, nopping.consecutiveFailures, reduced, trail);
      last := Saved(last, reduced);
      passes := passes + 3;
    }
  }

  /** Each stage that has patience left can do nothing more with the entry. */
  ghost predicate Minimal(
    cutting: IrMinimizerStage, block: IrMinimizerStage, nopping: IrMinimizerStage, entry: Entry,
    cut: Executor, remove: Executor, nop: Executor)
    reads cutting`consecutiveFailures, block`consecutiveFailures, nopping`consecutiveFailures
  {
    var p := entry.program;
    && (cutting.consecutiveFailures <= cutting.maxConsecutiveFailures && |p.instructions| >= 2 && Deterministic(cut) ==>
          !cutting.Cuttable(entry, cut, p))
    && (block.consecutiveFailures <= block.maxConsecutiveFailures && Deterministic(remove) ==>
          forall k | 0 <= k < |p.instructions| :: !block.Reducible(entry, remove, p, k))
    && (nopping.consecutiveFailures <= nopping.maxConsecutiveFailures && Deterministic(nop) ==>
          forall k | 0 <= k < |p.instructions| :: !nopping.Noppable(entry, nop, p, k))
  }

  // ---------------------------------------------------------------------------------------------
  // What the stages leave undone
  // ---------------------------------------------------------------------------------------------

  /** Two probes; one can be cut off. */
  function TwoProbes(context: ProgramContext): Program {
    Program(context, [Instruction(Probe, []), Instruction(Probe, [])])
  }

  function OneProbe(context: ProgramContext): Program {
    Program(context, [Instruction(Probe, [])])
  }

  lemma ProbesValid(context: ProgramContext)
    ensures StaticallyValid(TwoProbes(context)) && StaticallyValid(OneProbe(context))
      && StaticallyValid(Program(context, []))
    ensures C.Prefix(TwoProbes(context), 1) == OneProbe(context)
      && C.Prefix(OneProbe(context), 0) == Program(context, [])
  {
    var i := Instruction(Probe, []);
    assert [i, i][1..] == [i] && [i][1..] == [] && [i, i][..1] == [i] && [i][..0] == [];
    var s := New(context);
    assert Step(s, i).Appended?;
    assert Step(Step(s, i).state, i).Appended?;
  }

  /** An executor that retains two novelties, whatever is run. */
  function RetainsTwo(): Executor {
    (n, p) => Some(Execution(true, 2))
  }

  lemma RetainsTwoSettles()
    ensures Settles(RetainsTwo()) && Deterministic(RetainsTwo())
  {
    forall n: nat, p: Program ensures SettlesFrom(RetainsTwo(), n, p) {
      assert n <= n && RetainsTwo()(n, p).Some?;
    }
  }

  lemma AlwaysRefused(
    stage: IrMinimizerStage, entry: Entry, after: nat, r: Reduction, trail: seq<Trial>)
    requires !stage.minimizingCrash && stage.maxConsecutiveFailures == 0 && entry.scheduled == 0
    requires entry.novelties != 2 && |entry.program.instructions| >= 2
    requires StaticallyValid(C.Prefix(entry.program, |entry.program.instructions| - 1))
    requires stage.Passed(entry, RetainsTwo(), 0, after, r, trail)
    requires r.exhausted && |r.kept.instructions| >= 2 ==> stage.CutTried(entry, RetainsTwo(), trail, r.kept)
    ensures !r.success && after == 1
  {
    hide StaticallyValid, C.Prefix, RemoveNops;
    assert stage.FailuresAfter(entry, RetainsTwo(), 0, []) == 0;
    if trail != [] {
      var last := |trail| - 1;
      assert stage.FailuresAfter(entry, RetainsTwo(), 0, trail[..last]) <= 0;
    }
  }

  lemma AlwaysKept(
    stage: IrMinimizerStage, entry: Entry, after: nat, r: Reduction, trail: seq<Trial>)
    requires !stage.minimizingCrash && entry.scheduled == 0
    requires entry.novelties == 2 && |entry.program.instructions| >= 2
    requires StaticallyValid(C.Prefix(entry.program, |entry.program.instructions| - 1))
    requires stage.Passed(entry, RetainsTwo(), 0, after, r, trail)
    requires r.exhausted && |r.kept.instructions| >= 2 ==> stage.CutTried(entry, RetainsTwo(), trail, r.kept)
    ensures r.success && after == 0
  {
    hide StaticallyValid, C.Prefix, RemoveNops;
    if trail != [] {
      assert stage.Kept(entry, RetainsTwo(), trail[|trail| - 1]);
    }
  }

  /**
   * Two entries of the same program, each of which a fresh stage would deal with on its own. The first has one novelty,
   * so its only candidate is rejected and the stage's patience is spent; the second, with two, is then not even
   * tried, though a fresh stage reduces it.
   */
  method SpentPatienceExample(context: ProgramContext)
    returns (stage: IrMinimizerStage, other: IrMinimizerStage, refused: Reduction, untouched: Reduction,
      reduced: Reduction,
      ghost tried: seq<Trial>, ghost kept: seq<Trial>)
    ensures stage.maxConsecutiveFailures == other.maxConsecutiveFailures
      && stage.minimizingCrash == other.minimizingCrash
    ensures var one, two, run := Entry(TwoProbes(context), 0, 1), Entry(TwoProbes(context), 0, 2), RetainsTwo();
      && stage.Passed(one, run, 0, 1, refused, tried) && !refused.success
      && stage.Passed(two, run, 1, 1, untouched, []) && untouched.saved == two.program
      && other.Passed(two, run, 0, 0, reduced, kept) && |reduced.saved.instructions| < |two.program.instructions|
  {
    hide StaticallyValid, Settles, Deterministic, IrMinimizerStage.Cuttable, IrMinimizerStage.CutTried;
    var one, two, run := Entry(TwoProbes(context), 0, 1), Entry(TwoProbes(context), 0, 2), RetainsTwo();
    ProbesValid(context);
    RetainsTwoSettles();
    var progress := new Progress();
    stage := new IrMinimizerStage(false, 0, progress);
    refused, tried := stage.PerformCutting(one, run);
    AlwaysRefused(stage, one, stage.consecutiveFailures, refused, tried);
    ghost var none;
    untouched, none := stage.PerformCutting(two, run);
    other := new IrMinimizerStage(false, 0, progress);
    reduced, kept := other.PerformCutting(two, run);
    AlwaysKept(other, two, other.consecutiveFailures, reduced, kept);
  }

  /**
   * The exception to a cutting pass leaving nothing to cut: a single instruction that could be cut off, validly and
   * acceptably, is never tried.
   */
  method OnlyInstructionExample(context: ProgramContext) returns (stage: IrMinimizerStage, entry: Entry, r: Reduction)
    ensures entry.program == OneProbe(context) && entry.scheduled == 0
    ensures stage.Passed(entry, RetainsTwo(), 0, 0, r, []) && r.exhausted && r.saved == entry.program
    ensures stage.Cuttable(entry, RetainsTwo(), r.kept)
  {
    hide StaticallyValid, Settles, Deterministic, RemoveNops;
    ProbesValid(context);
    RetainsTwoSettles();
    entry := Entry(OneProbe(context), 0, 2);
    var progress := new Progress();
    stage := new IrMinimizerStage(false, 200, progress);
    ghost var trail;
    r, trail := stage.PerformCutting(entry, RetainsTwo());
    stage.PassedSaves(entry, RetainsTwo(), 0, stage.consecutiveFailures, r, trail);
    assert stage.Accepts(entry, RetainsTwo(), 0, Program(context, []));
  }
}
