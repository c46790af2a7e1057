/** The fuzzer's stage that drives a minimizer, runs what it proposes, and saves what is left without its nops. */
module Stage {
  import opened Wrappers
  import opened Ir
  import opened Builder
  import opened Removal
  import N = Nopping
  import C = Cutting
  import K = Block
  import Compiler
  import Runner
  import Traces
  import H = Homomorphism

  /** What running a candidate showed: whether it ended well, and how many of the entry's novelties it still has. */
  datatype Execution = Execution(exitOk: bool, retained: nat)

  /** Runs a candidate, given how many runs came before it; `None` when the executor itself fails. */
  type Executor = (nat, Program) -> Option<Execution>

  /** A corpus entry: its program, how often it was scheduled, and how many novelties it was kept for. */
  datatype Entry = Entry(program: Program, scheduled: nat, novelties: nat)

  /**
   * The last candidate accepted, or the entry's program; what is saved; and whether the minimizer had no more to
   * propose.
   */
  datatype Reduction = Reduction(success: bool, kept: Program, saved: Program, exhausted: bool)

  /** A candidate accepted for a crash still crashes; one accepted for coverage still has every novelty. */
  predicate Reproduces(minimizingCrash: bool, novelties: nat, e: Execution) {
    || (minimizingCrash && !e.exitOk)
    || (!minimizingCrash && e.retained == novelties)
  }

  /** A candidate that was run, and how many runs came before it. */
  datatype Trial = Trial(n: nat, candidate: Program)

  /** The same candidate shows the same whenever running it succeeds. */
  ghost predicate Deterministic(run: Executor) {
    forall n: nat, m: nat, p: Program | run(n, p).Some? && run(m, p).Some? :: run(n, p) == run(m, p)
  }

  /** Running a candidate over and over succeeds at last. */
  ghost predicate SettlesFrom(run: Executor, n: nat, p: Program) {
    exists m: nat | n <= m :: run(m, p).Some?
  }

  /** No candidate fails the executor for ever; the stage would run that candidate for ever. */
  ghost predicate Settles(run: Executor) {
    forall n: nat, p: Program :: SettlesFrom(run, n, p)
  }

  /** A run, from the `n`th on, that succeeds if there is something to run. */
  lemma SettledAt(run: Executor, n: nat, candidate: Option<Program>) returns (m: nat)
    requires Settles(run)
    ensures n <= m && (candidate.Some? ==> run(m, candidate.value).Some?)
  {
    m := n;
    if candidate.Some? {
      assert SettlesFrom(run, n, candidate.value);
      m :| n <= m && run(m, candidate.value).Some?;
    }
  }

  /** How many passes have made progress, shared by the stages of one fuzzer. */
  class Progress {
    var count: nat

    constructor ()
      ensures count == 0
    {
      count := 0;
    }
  }

  class IrMinimizerStage {
    const minimizingCrash: bool
    const maxConsecutiveFailures: nat
    const progress: Progress
    var consecutiveFailures: nat

    constructor (minimizingCrash: bool, maxConsecutiveFailures: nat, progress: Progress)
      ensures this.minimizingCrash == minimizingCrash && this.maxConsecutiveFailures == maxConsecutiveFailures
      ensures this.progress == progress && consecutiveFailures == 0
    {
      this.minimizingCrash, this.maxConsecutiveFailures, this.progress := minimizingCrash, maxConsecutiveFailures,
        progress;
      consecutiveFailures := 0;
    }

    predicate Accepts(entry: Entry, run: Executor, n: nat, p: Program) {
      run(n, p).Some? && Reproduces(minimizingCrash, entry.novelties, run(n, p).value)
    }

    /** Some run of the program was accepted. */
    ghost predicate Accepted(entry: Entry, run: Executor, p: Program) {
      exists n: nat :: Accepts(entry, run, n, p)
    }

    // -------------------------------------------------------------------------------------------
    // What a pass did
    // -------------------------------------------------------------------------------------------

    predicate Kept(entry: Entry, run: Executor, t: Trial) {
      Accepts(entry, run, t.n, t.candidate)
    }

    /** The stage's count of failures after some trials. */
    function FailuresAfter(entry: Entry, run: Executor, before: nat, trail: seq<Trial>): nat {
      if trail == [] then before
      else
        var last := |trail| - 1;
        if Kept(entry, run, trail[last]) then 0 else FailuresAfter(entry, run, before, trail[..last]) + 1
    }

    /** How many trials at the end were rejected, one after another. */
    function Trailing(entry: Entry, run: Executor, trail: seq<Trial>): nat {
      if trail == [] || Kept(entry, run, trail[|trail| - 1]) then 0 else Trailing(entry, run, trail[..|trail| - 1]) + 1
    }

    ghost predicate SomeKept(entry: Entry, run: Executor, trail: seq<Trial>) {
      exists i :: 0 <= i < |trail| && Kept(entry, run, trail[i])
    }

    /** Trial `i` is the last kept, and `kept` what it tried. */
    predicate LastKept(entry: Entry, run: Executor, trail: seq<Trial>, kept: Program, i: nat) {
      && i < |trail| && Kept(entry, run, trail[i]) && trail[i].candidate == kept
      && forall j | i < j < |trail| :: !Kept(entry, run, trail[j])
    }

    /** A candidate that was run and rejected. */
    ghost predicate SaidNo(entry: Entry, run: Executor, trail: seq<Trial>, candidate: Program) {
      exists i :: 0 <= i < |trail| && trail[i].candidate == candidate && !Kept(entry, run, trail[i])
    }

    /** A pass so far: what it ran, went on with only while patient, counted, and kept last. */
    ghost predicate Tracked(
      entry: Entry, run: Executor, runs: nat, before: nat, after: nat, success: bool, kept: Program, trail: seq<Trial>)
    {
      && (forall i | 0 <= i < |trail| ::
            trail[i].n < runs && run(trail[i].n, trail[i].candidate).Some? && StaticallyValid(trail[i].candidate))
      && (forall i, j | 0 <= i < j < |trail| :: trail[i].n < trail[j].n)
      && after == FailuresAfter(entry, run, before, trail)
      && (forall k | 0 <= k < |trail| :: FailuresAfter(entry, run, before, trail[..k]) <= maxConsecutiveFailures)
      && (success <==> SomeKept(entry, run, trail))
      && (if success then exists i: nat :: LastKept(entry, run, trail, kept, i) else kept == entry.program)
      && StaticallyValid(kept)
    }

    /**
     * What every pass meets. It runs candidates one after another, while the count of failures, which each accepted
     * one resets and each rejected one raises, is within the stage's patience; and it ends only when there is no
     * more to propose or the patience is spent. It keeps the last accepted, and saves that without its nops.
     */
    ghost predicate Passed(entry: Entry, run: Executor, before: nat, after: nat, r: Reduction, trail: seq<Trial>) {
      && (exists runs: nat :: Tracked(entry, run, runs, before, after, r.success, r.kept, trail))
      && r.saved == (if r.success then RemoveNops(r.kept) else entry.program)
      && (entry.scheduled == 0 ==> r.exhausted || after > maxConsecutiveFailures)
      && (entry.scheduled > 0 ==> trail == [] && !r.success && !r.exhausted)
    }

    lemma PassedBy(entry: Entry, run: Executor, runs: nat, before: nat, after: nat, r: Reduction, trail: seq<Trial>)
      requires Tracked(entry, run, runs, before, after, r.success, r.kept, trail)
      requires r.saved == (if r.success then RemoveNops(r.kept) else entry.program)
      requires entry.scheduled == 0 ==> r.exhausted || after > maxConsecutiveFailures
      requires entry.scheduled > 0 ==> trail == [] && !r.success && !r.exhausted
      ensures Passed(entry, run, before, after, r, trail)
    {
      hide Tracked, RemoveNops;
    }

    /** What a pass saves is valid, and the entry's own program unless the pass made progress. */
    lemma PassedSaves(entry: Entry, run: Executor, before: nat, after: nat, r: Reduction, trail: seq<Trial>)
      requires Passed(entry, run, before, after, r, trail)
      ensures StaticallyValid(r.saved) && StaticallyValid(r.kept)
      ensures !r.success ==> r.kept == r.saved == entry.program
      ensures entry.scheduled == 0 ==> r.exhausted || after > maxConsecutiveFailures
      ensures entry.scheduled > 0 ==> !r.success
    {
      hide Tracked, RemoveNops, StaticallyValid;
      var runs: nat :| Tracked(entry, run, runs, before, after, r.success, r.kept, trail);
      TrackedRan(entry, run, runs, before, after, r.success, r.kept, trail);
      RemoveNopsValid(r.kept);
    }

    lemma TracksNothing(entry: Entry, run: Executor, before: nat)
      requires StaticallyValid(entry.program)
      ensures Tracked(entry, run, 0, before, before, false, entry.program, [])
    {
    }

    lemma TracksError(
      entry: Entry, run: Executor, runs: nat, before: nat, after: nat, success: bool, kept: Program, trail: seq<Trial>)
      requires Tracked(entry, run, runs, before, after, success, kept, trail)
      ensures Tracked(entry, run, runs + 1, before, after, success, kept, trail)
    {
      hide Kept, FailuresAfter, StaticallyValid;
    }

    lemma Tracks(
      entry: Entry, run: Executor, runs: nat, before: nat, after: nat, success: bool, kept: Program, trail: seq<Trial>,
      candidate: Program)
      requires Tracked(entry, run, runs, before, after, success, kept, trail) && after <= maxConsecutiveFailures
      requires run(runs, candidate).Some? && StaticallyValid(candidate)
      ensures var yes := Accepts(entry, run, runs, candidate);
        Tracked(entry, run, runs + 1, before, if yes then 0 else after + 1, success || yes, if yes then candidate
          else kept,
          trail + [Trial(runs, candidate)])
      ensures var trail' := trail + [Trial(runs, candidate)];
        && (forall p | SaidNo(entry, run, trail, p) :: SaidNo(entry, run, trail', p))
        && (!Accepts(entry, run, runs, candidate) ==> SaidNo(entry, run, trail', candidate))
    {
      hide Accepts, StaticallyValid, FailuresAfter, SomeKept, LastKept;
      var t := Trial(runs, candidate);
      var trail' := trail + [t];
      assert trail'[|trail|] == t && forall i | 0 <= i < |trail| :: trail'[i] == trail[i];
      forall p | SaidNo(entry, run, trail, p) ensures SaidNo(entry, run, trail', p) {
        var i :| 0 <= i < |trail| && trail[i].candidate == p && !Kept(entry, run, trail[i]);
        assert trail'[i] == trail[i];
      }
      FailuresOneMore(entry, run, before, trail, t);
      KeptOneMore(entry, run, trail, kept, t, success);
    }

    lemma FailuresOneMore(entry: Entry, run: Executor, before: nat, trail: seq<Trial>, t: Trial)
      ensures FailuresAfter(entry, run, before, trail + [t])
           == if Kept(entry, run, t) then 0 else FailuresAfter(entry, run, before, trail) + 1
      ensures forall k | 0 <= k <= |trail| :: (trail + [t])[..k] == trail[..k]
      ensures trail[..|trail|] == trail
    {
      hide Kept;
      assert (trail + [t])[..|trail|] == trail;
    }

    lemma KeptOneMore(entry: Entry, run: Executor, trail: seq<Trial>, kept: Program, t: Trial, success: bool)
      requires success <==> SomeKept(entry, run, trail)
      requires success ==> exists i: nat :: LastKept(entry, run, trail, kept, i)
      ensures var yes, trail' := Kept(entry, run, t), trail + [t];
        var kept' := if yes then t.candidate else kept;
        && (success || yes <==> SomeKept(entry, run, trail'))
        && (success || yes ==> exists i: nat :: LastKept(entry, run, trail', kept', i))
    {
      hide Kept;
      var trail' := trail + [t];
      if Kept(entry, run, t) {
        assert trail'[|trail|] == t;
        assert LastKept(entry, run, trail', t.candidate, |trail|);
      } else if success {
        var i: nat :| LastKept(entry, run, trail, kept, i);
        assert trail'[i] == trail[i];
        assert LastKept(entry, run, trail', kept, i);
      } else {
        forall i | 0 <= i < |trail'| ensures !Kept(entry, run, trail'[i]) {
          assert i < |trail| ==> trail'[i] == trail[i];
        }
      }
    }

    /** The count is of the rejections since the last acceptance, or since before the pass if there was none. */
    lemma {:induction false} FailuresAreTrailing(entry: Entry, run: Executor, before: nat, trail: seq<Trial>)
      ensures FailuresAfter(entry, run, before, trail)
           == Trailing(entry, run, trail) + if SomeKept(entry, run, trail) then 0 else before
      decreases |trail|
    {
      hide Kept;
      if trail != [] {
        var last := |trail| - 1;
        FailuresAreTrailing(entry, run, before, trail[..last]);
        if i :| 0 <= i < |trail| && Kept(entry, run, trail[i]) {
          assert i == last || Kept(entry, run, trail[..last][i]);
        }
        if i :| 0 <= i < last && Kept(entry, run, trail[..last][i]) {
          assert Kept(entry, run, trail[i]);
        }
      }
    }

    /**
     * A pass that had patience left and gives up leaves the count one over the stage's patience; those are that many
     * rejections in a row of its own exactly when it accepted something or nothing was counted before it.
     */
    lemma GivesUpExactly(entry: Entry, run: Executor, before: nat, after: nat, r: Reduction, trail: seq<Trial>)
      requires Passed(entry, run, before, after, r, trail)
      requires before <= maxConsecutiveFailures < after
      ensures after == maxConsecutiveFailures + 1
      ensures Trailing(entry, run, trail) == maxConsecutiveFailures + 1 <==> r.success || before == 0
    {
      hide Kept, StaticallyValid, SomeKept, LastKept;
      FailuresAreTrailing(entry, run, before, trail);
      if trail != [] {
        var last := |trail| - 1;
        assert FailuresAfter(entry, run, before, trail[..last]) <= maxConsecutiveFailures;
      }
    }

    /** What is kept was run, and crashed where that is what is minimized, and otherwise had every novelty. */
    lemma KeptReproduces(entry: Entry, run: Executor, before: nat, after: nat, r: Reduction, trail: seq<Trial>)
      requires Passed(entry, run, before, after, r, trail)
      ensures forall i | 0 <= i < |trail| ::
                && run(trail[i].n, trail[i].candidate).Some?
                && (Kept(entry, run, trail[i]) <==>
                      var shown := run(trail[i].n, trail[i].candidate).value;
                      if minimizingCrash then !shown.exitOk else shown.retained == entry.novelties)
      ensures r.success ==> exists i :: 0 <= i < |trail| && Kept(entry, run, trail[i]) && trail[i].candidate == r.kept
    {
      hide StaticallyValid, FailuresAfter;
      if r.success {
        var i: nat :| LastKept(entry, run, trail, r.kept, i);
      }
    }

    /** Patience is never given back but by an acceptance: once it is spent, a pass does nothing, whatever the entry. */
    lemma SpentDoesNothing(entry: Entry, run: Executor, before: nat, after: nat, r: Reduction, trail: seq<Trial>)
      requires Passed(entry, run, before, after, r, trail) && before > maxConsecutiveFailures
      ensures trail == [] && after == before && !r.success && r.saved == entry.program
    {
      hide Kept, StaticallyValid, LastKept;
      assert FailuresAfter(entry, run, before, trail[..0]) == before;
    }

    /** With a deterministic executor a candidate rejected once is never accepted. */
    lemma NoIsNo(entry: Entry, run: Executor, trail: seq<Trial>, candidate: Program)
      requires Deterministic(run) && SaidNo(entry, run, trail, candidate)
      requires forall i | 0 <= i < |trail| :: run(trail[i].n, trail[i].candidate).Some?
      ensures !Accepted(entry, run, candidate)
    {
    }

    lemma TrackedRan(
      entry: Entry, run: Executor, runs: nat, before: nat, after: nat, success: bool, kept: Program, trail: seq<Trial>)
      requires Tracked(entry, run, runs, before, after, success, kept, trail)
      ensures forall i | 0 <= i < |trail| :: run(trail[i].n, trail[i].candidate).Some?
      ensures StaticallyValid(kept) && (!success ==> kept == entry.program)
      ensures before > maxConsecutiveFailures && trail == [] ==> after == before && !success
    {
      hide Kept, StaticallyValid;
    }

    /**
     * Whether a candidate is kept, a rejection counting against the stage's patience; `None` when it could not be run.
     */
    method Try(entry: Entry, run: Executor, n: nat, candidate: Program) returns (verdict: Option<bool>)
      modifies this`consecutiveFailures
      ensures verdict == if run(n, candidate).Some? then Some(Accepts(entry, run, n, candidate)) else None
      ensures consecutiveFailures ==
              if verdict.None? then old(consecutiveFailures) else if verdict.value then 0
                else old(consecutiveFailures) + 1
    {
      var execution := run(n, candidate);
      if execution.None? {
        return None;
      }
      var kept := Reproduces(minimizingCrash, entry.novelties, execution.value);
      verdict := Some(kept);
      if kept {
        consecutiveFailures := 0;
      } else {
        consecutiveFailures := consecutiveFailures + 1;
      }
    }

    /** One candidate more of a pass. */
    method Attempt(
      entry: Entry, run: Executor, runs: nat, candidate: Program,
      ghost before: nat, ghost success: bool, ghost kept: Program, ghost trail: seq<Trial>)
      returns (verdict: Option<bool>, ghost trail': seq<Trial>)
      requires Tracked(entry, run, runs, before, consecutiveFailures, success, kept, trail)
      requires consecutiveFailures <= maxConsecutiveFailures && StaticallyValid(candidate)
      modifies this`consecutiveFailures
      ensures verdict.Some? <==> run(runs, candidate).Some?
      ensures verdict.None? ==>
                && trail' == trail && consecutiveFailures == old(consecutiveFailures)
                && Tracked(entry, run, runs + 1, before, consecutiveFailures, success, kept, trail)
      ensures verdict.Some? ==>
                Tracked(entry, run, runs + 1, before, consecutiveFailures,
                  success || verdict.value, if verdict.value then candidate else kept, trail')
      ensures forall p | SaidNo(entry, run, trail, p) :: SaidNo(entry, run, trail', p)
      ensures verdict == Some(false) ==> SaidNo(entry, run, trail', candidate)
    {
      hide Accepts, Tracked, SaidNo, StaticallyValid;
      ghost var failures := consecutiveFailures;
      verdict := Try(entry, run, runs, candidate);
      trail' := trail;
      if verdict.Some? {
        Tracks(entry, run, runs, before, failures, success, kept, trail, candidate);
        trail' := trail + [Trial(runs, candidate)];
      } else {
        TracksError(entry, run, runs, before, failures, success, kept, trail);
      }
    }

    method Save(entry: Entry, success: bool, kept: Program, exhausted: bool) returns (r: Reduction)
      requires StaticallyValid(kept) && (!success ==> kept == entry.program)
      modifies progress
      ensures r == Reduction(success, kept, if success then RemoveNops(kept) else entry.program, exhausted)
      ensures progress.count == old(progress.count) + if success then 1 else 0
    {
      var saved := entry.program;
      if success {
        progress.count := progress.count + 1;
        ValidInRange(kept);
        saved := DropNops(kept);
      }
      return Reduction(success, kept, saved, exhausted);
    }

    // -------------------------------------------------------------------------------------------
    // The passes
    // -------------------------------------------------------------------------------------------

    /** The block instruction `k` begins can be removed validly, and what is left is accepted. */
    ghost predicate Reducible(entry: Entry, run: Executor, p: Program, k: nat)
      requires k < |p.instructions|
    {
      K.Removable(p, k) && Accepted(entry, run, K.WithoutBlock(p, k).value)
    }

    /** Each block that can be removed validly was, and that rejected; of the first `n` instructions. */
    ghost predicate BlocksTried(entry: Entry, run: Executor, trail: seq<Trial>, p: Program, n: nat) {
      forall k | 0 <= k < n && k < |p.instructions| && K.Removable(p, k) ::
            SaidNo(entry, run, trail, K.WithoutBlock(p, k).value)
    }

    /**
     * Reduce an entry by removing blocks. With a deterministic executor and the patience to see it through, no
     * single block of what is kept can be removed validly and still be accepted.
     */
    method PerformBlock(entry: Entry, run: Executor) returns (r: Reduction, ghost trail: seq<Trial>)
      requires StaticallyValid(entry.program)
      requires entry.scheduled == 0 && consecutiveFailures <= maxConsecutiveFailures ==> Settles(run)
      modifies this`consecutiveFailures, progress
      ensures Passed(entry, run, old(consecutiveFailures), consecutiveFailures, r, trail)
      ensures progress.count == old(progress.count) + if r.success then 1 else 0
      ensures |r.saved.instructions| <= |entry.program.instructions|
      ensures r.success ==> |r.saved.instructions| < |entry.program.instructions|
      ensures old(consecutiveFailures) > maxConsecutiveFailures ==>
                !r.success && trail == [] && consecutiveFailures == old(consecutiveFailures)
      ensures r.exhausted ==> BlocksTried(entry, run, trail, r.kept, |r.kept.instructions|)
      ensures r.exhausted && Deterministic(run) ==>
        forall k | 0 <= k < |r.kept.instructions| :: !Reducible(entry, run, r.kept, k)
    {
      hide StaticallyValid, Accepts, RemoveNops, Settles, Tracked, Passed, SaidNo, K.Removable, K.WithoutBlock,
        Deterministic;
      trail := [];
      TracksNothing(entry, run, consecutiveFailures);
      if entry.scheduled > 0 {
        r := Reduction(false, entry.program, entry.program, false);
        PassedBy(entry, run, 0, consecutiveFailures, consecutiveFailures, r, trail);
        return;
      }
      var m := new K.BlockMinimizer(entry.program);
      var success, runs := false, 0;
      var candidate := m.Next();
      ghost var until := 0;
      if Settles(run) {
        until := SettledAt(run, runs, candidate);
      }
      while candidate.Some? && consecutiveFailures <= maxConsecutiveFailures
        invariant fresh(m) && m.Valid() && m.candidate == candidate && progress.count == old(progress.count)
        invariant candidate.None? ==> m.next >= |m.program.instructions|
        invariant |m.program.instructions| <= |entry.program.instructions|
        invariant success ==> |m.program.instructions| < |entry.program.instructions|
        invariant BlocksTried(entry, run, trail, m.program, m.next)
        invariant Tracked(entry, run, runs, old(consecutiveFailures), consecutiveFailures, success, m.program, trail)
        invariant old(consecutiveFailures) > maxConsecutiveFailures ==>
            trail == [] && consecutiveFailures == old(consecutiveFailures)
        invariant runs <= until && (Settles(run) && candidate.Some? ==> run(until, candidate.value).Some?)
        decreases |m.program.instructions|, |m.program.instructions| - m.next, if candidate.Some? then 1
          else 0, until - runs
      {
        RemovableValid(m.program, m.next);
        var verdict;
        ghost var trail';
        verdict, trail' := Attempt(entry, run, runs, candidate.value, old(consecutiveFailures), success, m.program,
          trail);
        runs := runs + 1;
        if verdict.None? {
          candidate := m.Next();
          continue;
        }
        if verdict.value {
          success := true;
          m.Success();
        } else {
          TriedMore(entry, run, trail, trail', m.program, m.next);
          m.Failure();
        }
        trail := trail';
        candidate := m.Next();
        until := SettledAt(run, runs, candidate);
      }
      TrackedRan(entry, run, runs, old(consecutiveFailures), consecutiveFailures, success, m.program, trail);
      r := Save(entry, success, m.program, candidate.None?);
      PassedBy(entry, run, runs, old(consecutiveFailures), consecutiveFailures, r, trail);
      NoLonger(r.kept);
      if r.exhausted && Deterministic(run) {
        NoneReducible(entry, run, trail, r.kept);
      }
    }

    lemma RemovableValid(p: Program, k: nat)
      requires k < |p.instructions| && K.Removable(p, k)
      ensures K.WithoutBlock(p, k).Some? && StaticallyValid(K.WithoutBlock(p, k).value)
    {
      hide StaticallyValid, K.WithoutBlock;
    }

    lemma TriedMore(entry: Entry, run: Executor, trail: seq<Trial>, trail': seq<Trial>, p: Program, n: nat)
      requires BlocksTried(entry, run, trail, p, n) && n < |p.instructions| && K.Removable(p, n)
      requires forall q | SaidNo(entry, run, trail, q) :: SaidNo(entry, run, trail', q)
      requires SaidNo(entry, run, trail', K.WithoutBlock(p, n).value)
      ensures BlocksTried(entry, run, trail', p, n + 1)
    {
      hide SaidNo, K.WithoutBlock, StaticallyValid;
    }

    lemma NoneReducible(entry: Entry, run: Executor, trail: seq<Trial>, p: Program)
      requires Deterministic(run) && BlocksTried(entry, run, trail, p, |p.instructions|)
      requires forall i | 0 <= i < |trail| :: run(trail[i].n, trail[i].candidate).Some?
      ensures forall k | 0 <= k < |p.instructions| :: !Reducible(entry, run, p, k)
    {
      hide SaidNo, K.WithoutBlock, Accepted, Deterministic, StaticallyValid;
      forall k | 0 <= k < |p.instructions| ensures !Reducible(entry, run, p, k) {
        if K.Removable(p, k) {
          NoIsNo(entry, run, trail, K.WithoutBlock(p, k).value);
        }
      }
    }

    /** Instruction `k` can be nopped validly, and the result is accepted. */
    ghost predicate Noppable(entry: Entry, run: Executor, p: Program, k: nat)
      requires k < |p.instructions|
    {
      CanNop(p, k) && Accepted(entry, run, N.NoppedAt(p, k))
    }

    ghost predicate CanNop(p: Program, k: nat)
      requires k < |p.instructions|
    {
      N.Live(p.instructions[k]) && StaticallyValid(N.NoppedAt(p, k))
    }

    ghost predicate NopsTried(entry: Entry, run: Executor, trail: seq<Trial>, p: Program, n: nat) {
      forall k | 0 <= k < n && k < |p.instructions| && CanNop(p, k) :: SaidNo(entry, run, trail, N.NoppedAt(p, k))
    }

    /**
     * Reduce an entry by replacing instructions with nops: what is kept is the entry with some of them nopped. With a
     * deterministic executor, a pass that is seen through and accepts nothing leaves none that can be nopped validly
     * and acceptably.
     */
    method PerformNopping(entry: Entry, run: Executor) returns (r: Reduction, ghost trail: seq<Trial>)
      requires StaticallyValid(entry.program)
      requires entry.scheduled == 0 && consecutiveFailures <= maxConsecutiveFailures ==> Settles(run)
      modifies this`consecutiveFailures, progress
      ensures Passed(entry, run, old(consecutiveFailures), consecutiveFailures, r, trail)
      ensures progress.count == old(progress.count) + if r.success then 1 else 0
      ensures |r.saved.instructions| <= |entry.program.instructions|
      ensures r.success ==> |r.saved.instructions| < |entry.program.instructions|
      ensures old(consecutiveFailures) > maxConsecutiveFailures ==>
                !r.success && trail == [] && consecutiveFailures == old(consecutiveFailures)
      ensures N.PartlyNopped(r.kept.instructions, entry.program.instructions)
      ensures r.exhausted && !r.success ==> NopsTried(entry, run, trail, r.kept, |r.kept.instructions|)
      ensures r.exhausted && !r.success && Deterministic(run) ==>
        forall k | 0 <= k < |r.kept.instructions| :: !Noppable(entry, run, r.kept, k)
    {
      hide StaticallyValid, Accepts, RemoveNops, Settles, Tracked, Passed, SaidNo, N.Live, N.PartlyNopped, N.LiveCount,
        Deterministic, HasNop, N.NoppedAt, NopsTried, Noppable;
      N.NothingNopped(entry.program.instructions);
      trail := [];
      TracksNothing(entry, run, consecutiveFailures);
      if entry.scheduled > 0 {
        r := Reduction(false, entry.program, entry.program, false);
        PassedBy(entry, run, 0, consecutiveFailures, consecutiveFailures, r, trail);
        return;
      }
      var m := new N.NoppingMinimizer(entry.program);
      var success, runs := false, 0;
      var candidate, panicked := m.Next();
      NoNopsYet(entry, run, entry.program);
      NopsSkipped(entry, run, trail, m.program, 0, m.next);
      ghost var until := 0;
      if Settles(run) {
        until := SettledAt(run, runs, candidate);
      }
      while candidate.Some? && consecutiveFailures <= maxConsecutiveFailures
        invariant fresh(m) && m.Valid() && m.candidate == candidate && progress.count == old(progress.count)
        invariant StaticallyValid(m.program) && N.PartlyNopped(m.program.instructions, entry.program.instructions)
        invariant candidate.Some? ==> m.next < |m.program.instructions|
        invariant candidate.None? ==> m.next >= |m.program.instructions|
        invariant success ==> HasNop(m.program.instructions)
        invariant !success ==> NopsTried(entry, run, trail, m.program, m.next)
        invariant Tracked(entry, run, runs, old(consecutiveFailures), consecutiveFailures, success, m.program, trail)
        invariant old(consecutiveFailures) > maxConsecutiveFailures ==>
            trail == [] && consecutiveFailures == old(consecutiveFailures)
        invariant runs <= until && (Settles(run) && candidate.Some? ==> run(until, candidate.value).Some?)
        decreases m.Left(), until - runs
      {
        var verdict;
        ghost var trail';
        verdict, trail' := Attempt(entry, run, runs, candidate.value, old(consecutiveFailures), success, m.program,
          trail);
        runs := runs + 1;
        if verdict.None? {
          candidate, panicked := m.Next();
          continue;
        }
        if verdict.value {
          N.NoppedPartly(m.program, m.next, entry.program.instructions);
          NoppedHasNop(m.program, m.next);
          success := true;
          m.Success();
        } else {
          if !success {
            NopTriedMore(entry, run, trail, trail', m.program, m.next);
          }
          m.Failure();
        }
        trail := trail';
        ghost var next := m.next;
        candidate, panicked := m.Next();
        if !success {
          NopsSkipped(entry, run, trail, m.program, next, m.next);
        }
        until := SettledAt(run, runs, candidate);
      }
      TrackedRan(entry, run, runs, old(consecutiveFailures), consecutiveFailures, success, m.program, trail);
      r := Save(entry, success, m.program, candidate.None?);
      PassedBy(entry, run, runs, old(consecutiveFailures), consecutiveFailures, r, trail);
      NoppedLength(r.kept.instructions, entry.program.instructions);
      NoLonger(r.kept);
      if success {
        Shorter(r.kept);
      }
      if r.exhausted && !success {
        NopsAll(entry, run, trail, r.kept, m.next);
        if Deterministic(run) {
          NoneNoppable(entry, run, trail, r.kept);
        }
      }
    }

    lemma NoNopsYet(entry: Entry, run: Executor, p: Program)
      ensures NopsTried(entry, run, [], p, 0)
    {
    }

    lemma NopsSkipped(entry: Entry, run: Executor, trail: seq<Trial>, p: Program, n: nat, next: nat)
      requires NopsTried(entry, run, trail, p, n) && n <= next
      requires forall k | n <= k < next && k < |p.instructions| ::
        !N.Live(p.instructions[k]) || !StaticallyValid(N.NoppedAt(p, k))
      ensures NopsTried(entry, run, trail, p, next)
    {
      hide SaidNo, StaticallyValid, N.NoppedAt, N.Live;
    }

    lemma NopsAll(entry: Entry, run: Executor, trail: seq<Trial>, p: Program, n: nat)
      requires NopsTried(entry, run, trail, p, n) && n >= |p.instructions|
      ensures NopsTried(entry, run, trail, p, |p.instructions|)
    {
      hide SaidNo, CanNop, N.NoppedAt;
    }

    lemma NopTriedMore(entry: Entry, run: Executor, trail: seq<Trial>, trail': seq<Trial>, p: Program, n: nat)
      requires NopsTried(entry, run, trail, p, n) && n < |p.instructions|
      requires forall q | SaidNo(entry, run, trail, q) :: SaidNo(entry, run, trail', q)
      requires SaidNo(entry, run, trail', N.NoppedAt(p, n))
      ensures NopsTried(entry, run, trail', p, n + 1)
    {
      hide SaidNo, CanNop, N.NoppedAt;
    }

    lemma NoneNoppable(entry: Entry, run: Executor, trail: seq<Trial>, p: Program)
      requires Deterministic(run) && NopsTried(entry, run, trail, p, |p.instructions|)
      requires forall i | 0 <= i < |trail| :: run(trail[i].n, trail[i].candidate).Some?
      ensures forall k | 0 <= k < |p.instructions| :: !Noppable(entry, run, p, k)
    {
      hide SaidNo, CanNop, N.NoppedAt, Accepted, Deterministic;
      forall k | 0 <= k < |p.instructions| ensures !Noppable(entry, run, p, k) {
        if CanNop(p, k) {
          NoIsNo(entry, run, trail, N.NoppedAt(p, k));
        }
      }
    }

    /** The program without its last instruction is valid, and was run and rejected if it is. */
    ghost predicate CutTried(entry: Entry, run: Executor, trail: seq<Trial>, p: Program)
      requires p.instructions != []
    {
      var cut := C.Prefix(p, |p.instructions| - 1);
      StaticallyValid(cut) ==> SaidNo(entry, run, trail, cut)
    }

    /** Cutting off the last instruction is valid and accepted. */
    ghost predicate Cuttable(entry: Entry, run: Executor, p: Program)
      requires p.instructions != []
    {
      var cut := C.Prefix(p, |p.instructions| - 1);
      StaticallyValid(cut) && Accepted(entry, run, cut)
    }

    /** Tell the minimizer what became of its candidate, and have the next. */
    method Report(m: C.CuttingMinimizer, verdict: bool) returns (candidate: Option<Program>)
      requires m.Valid() && m.candidate.Some?
      modifies m
      ensures m.Valid() && candidate == m.candidate && (candidate.Some? <==> m.length > 0) && m.Left() < old(m.Left())
      ensures m.program == if verdict then old(m.candidate).value else old(m.program)
      ensures verdict ==> |m.program.instructions| < |old(m.program).instructions|
      ensures candidate.None? && |m.program.instructions| >= 2 ==>
                var cut := C.Prefix(m.program, |m.program.instructions| - 1);
                !StaticallyValid(cut) || (!verdict && old(m.candidate) == Some(cut))
    {
      hide StaticallyValid, C.FirstCut, C.Prefix;
      if verdict {
        m.Success();
      } else {
        m.Failure();
      }
      candidate := m.Next();
    }

    /**
     * Reduce an entry by cutting its end: what is kept is a prefix of the entry. With a deterministic executor, a pass
     * that is seen through leaves no last instruction that can be cut off validly and acceptably, unless it is the
     * only one: nothing is ever cut off a single instruction.
     */ method PerformCutting(entry: Entry, run: Executor) returns (r: Reduction, ghost trail: seq<Trial>)
      requires StaticallyValid(entry.program)
      requires entry.scheduled == 0 && consecutiveFailures <= maxConsecutiveFailures ==> Settles(run)
      modifies this`consecutiveFailures, progress
      ensures Passed(entry, run, old(consecutiveFailures), consecutiveFailures, r, trail)
      ensures progress.count == old(progress.count) + if r.success then 1 else 0
      ensures |r.saved.instructions| <= |entry.program.instructions|
      ensures r.success ==> |r.saved.instructions| < |entry.program.instructions|
      ensures old(consecutiveFailures) > maxConsecutiveFailures ==>
                !r.success && trail == [] && consecutiveFailures == old(consecutiveFailures)
      ensures |r.kept.instructions| <= |entry.program.instructions|
        && r.kept == C.Prefix(entry.program, |r.kept.instructions|)
      ensures |entry.program.instructions| < 2 ==> trail == []
      ensures r.exhausted && |r.kept.instructions| >= 2 ==> CutTried(entry, run, trail, r.kept)
      ensures r.exhausted && |r.kept.instructions| >= 2 && Deterministic(run) ==> !Cuttable(entry, run, r.kept)
    {
      hide StaticallyValid, Accepts, RemoveNops, Settles, Tracked, Passed, SaidNo, C.FirstCut, Deterministic, C.Prefix,
        CutTried, Cuttable;
      C.WholePrefix(entry.program);
      trail := [];
      TracksNothing(entry, run, consecutiveFailures);
      if entry.scheduled > 0 {
        r := Reduction(false, entry.program, entry.program, false);
        PassedBy(entry, run, 0, consecutiveFailures, consecutiveFailures, r, trail);
        return;
      }
      var m := new C.CuttingMinimizer(entry.program);
      var success, runs := false, 0;
      var candidate := m.Next();
      if candidate.None? && |m.program.instructions| >= 2 {
        CutsTried(entry, run, trail, m.program);
      }
      ghost var until := 0;
      if Settles(run) {
        until := SettledAt(run, runs, candidate);
      }
      while candidate.Some? && consecutiveFailures <= maxConsecutiveFailures
        invariant fresh(m) && m.Valid() && m.candidate == candidate && progress.count == old(progress.count)
        invariant m.original == entry.program && (candidate.Some? <==> m.length > 0)
        invariant |entry.program.instructions| < 2 ==> candidate.None? && trail == []
        invariant success ==> |m.program.instructions| < |entry.program.instructions|
        invariant candidate.None? && |m.program.instructions| >= 2 ==> CutTried(entry, run, trail, m.program)
        invariant Tracked(entry, run, runs, old(consecutiveFailures), consecutiveFailures, success, m.program, trail)
        invariant old(consecutiveFailures) > maxConsecutiveFailures ==>
            trail == [] && consecutiveFailures == old(consecutiveFailures)
        invariant runs <= until && (Settles(run) && candidate.Some? ==> run(until, candidate.value).Some?)
        decreases m.Left(), until - runs
      {
        var verdict;
        ghost var trail';
        verdict, trail' := Attempt(entry, run, runs, candidate.value, old(consecutiveFailures), success, m.program,
          trail);
        runs := runs + 1;
        if verdict.None? {
          candidate := m.Next();
          continue;
        }
        success, trail := success || verdict.value, trail';
        candidate := Report(m, verdict.value);
        if candidate.None? && |m.program.instructions| >= 2 {
          CutsTried(entry, run, trail, m.program);
        }
        until := SettledAt(run, runs, candidate);
      }
      TrackedRan(entry, run, runs, old(consecutiveFailures), consecutiveFailures, success, m.program, trail);
      r := Save(entry, success, m.program, candidate.None?);
      PassedBy(entry, run, runs, old(consecutiveFailures), consecutiveFailures, r, trail);
      NoLonger(r.kept);
      if r.exhausted && |r.kept.instructions| >= 2 && Deterministic(run) {
        NotCuttable(entry, run, trail, r.kept);
      }
    }

    /** A cut of one instruction was tried, or is not valid. */
    lemma CutsTried(entry: Entry, run: Executor, trail: seq<Trial>, p: Program)
      requires p.instructions != []
      requires var cut := C.Prefix(p, |p.instructions| - 1);
        !StaticallyValid(cut) || SaidNo(entry, run, trail, cut)
      ensures CutTried(entry, run, trail, p)
    {
      hide SaidNo, C.Prefix, StaticallyValid;
    }

    lemma NotCuttable(entry: Entry, run: Executor, trail: seq<Trial>, p: Program)
      requires p.instructions != [] && Deterministic(run) && CutTried(entry, run, trail, p)
      requires forall i | 0 <= i < |trail| :: run(trail[i].n, trail[i].candidate).Some?
      ensures !Cuttable(entry, run, p)
    {
      hide SaidNo, Accepted, Deterministic, StaticallyValid, C.Prefix;
      if StaticallyValid(C.Prefix(p, |p.instructions| - 1)) {
        NoIsNo(entry, run, trail, C.Prefix(p, |p.instructions| - 1));
      }
    }
  }

  // ---------------------------------------------------------------------------------------------
  // What is saved
  // ---------------------------------------------------------------------------------------------

  predicate HasNop(code: seq<Instruction>) {
    exists k :: 0 <= k < |code| && code[k].operation.Nop?
  }

  lemma NoppedHasNop(p: Program, k: nat)
    requires k < |p.instructions| && N.Live(p.instructions[k])
    ensures HasNop(N.NoppedAt(p, k).instructions)
  {
    assert N.NoppedAt(p, k).instructions[k].operation.Nop?;
  }

  lemma NoppedLength(code: seq<Instruction>, original: seq<Instruction>)
    requires N.PartlyNopped(code, original)
    ensures |code| == |original|
  {
  }

  lemma {:induction false} KeepFewer(code: seq<Instruction>, mask: seq<bool>, k: nat, m: seq<nat>, j: nat)
    requires k <= j < |code| && Dropped(mask, j)
    ensures |Keep(code, mask, k, m)| < |code| - k
    decreases |code| - k
  {
    if k < j {
      KeepFewer(code, mask, k + 1, m, j);
    } else {
      KeepNoLonger(code, mask, k + 1, m);
    }
  }

  /** Dropping nops shortens a program that has any. */
  lemma Shorter(p: Program)
    requires HasNop(p.instructions)
    ensures |RemoveNops(p).instructions| < |p.instructions|
  {
    var code := p.instructions;
    var j :| 0 <= j < |code| && code[j].operation.Nop?;
    KeepFewer(code, NopMask(code), 0, Mapping(code, NopMask(code), 0, 0), j);
  }

  /**
   * What is saved behaves as the candidate it came from: it is valid, compiles to the same actions, and runs the same.
   */
  lemma SavedRunsTheSame(kept: Program, peer: Runner.Peer)
    requires StaticallyValid(kept)
    ensures StaticallyValid(RemoveNops(kept)) && |RemoveNops(kept).instructions| <= |kept.instructions|
    ensures Compiler.Compile(RemoveNops(kept)).Success? <==> Compiler.Compile(kept).Success?
    ensures Compiler.Compile(kept).Success? ==>
      && Runner.Forward(Compiler.Compile(kept).value.actions)
      && Compiler.Compile(RemoveNops(kept)).value.actions == Compiler.Compile(kept).value.actions
      && Runner.RunProgram(peer, Compiler.Compile(RemoveNops(kept)).value)
        == Runner.RunProgram(peer, Compiler.Compile(kept).value)
  {
    hide StaticallyValid, RemoveNops, Compiler.Compile, Runner.Forward, Traces.Nested, Traces.RunTraced, Runner.RunFrom;
    RemoveNopsValid(kept);
    H.RemoveNopsCompiles(kept);
    NoLonger(kept);
    if Compiler.Compile(kept).Success? {
      Traces.CompiledTraced(peer, kept);
    }
  }

  lemma {:induction false} KeepNoLonger(code: seq<Instruction>, mask: seq<bool>, k: nat, m: seq<nat>)
    requires k <= |code|
    ensures |Keep(code, mask, k, m)| <= |code| - k
    decreases |code| - k
  {
    if k < |code| {
      KeepNoLonger(code, mask, k + 1, m);
    }
  }

  lemma NoLonger(p: Program)
    ensures |RemoveNops(p).instructions| <= |p.instructions|
  {
    KeepNoLonger(p.instructions, NopMask(p.instructions), 0, Mapping(p.instructions, NopMask(p.instructions), 0, 0));
  }
}
