/** What every run of a compiled valid program satisfies, whatever the peer does. */
module Runs {
  import opened Ir
  import B = Builder
  import opened Compiler
  import opened Events
  import opened Runner
  import opened Blocks
  import opened Dominance

  predicate BlockSkipped(o: Outcome) {
    o.Skipped? && o.prerequisite.SetupAgreed?
  }

  /** The action was reached and tried, whatever came of it. */
  predicate Attempted(o: Outcome) {
    !BlockSkipped(o)
  }

  lemma PumpFails(s: Status, w: Window)
    ensures var (last, failed, _) := Pump(s, w);
      && (failed.Some? ==> failed.value == TransportFailure(w.fault))
      && (failed.None? ==> !last.setup.Pending?)
      && (last.setup.Unsent? ==> s.setup.Unsent?)
    decreases |w.frames|
  {
  }

  /** What can become of each kind of action. No arm is a failure of the harness, and silence is never an answer. */
  predicate OutcomeFits(a: Action, o: Outcome) {
    || BlockSkipped(o)
    || match a
       case Connect(_, _) => o == Completed(NoResponse) || o == TransportError([])
       case Send(c, _, _, _, _) =>
         o == Skipped(ConnectionOpen(c)) || o == Completed(NoResponse) || o.TimedOut? || o.TransportClosed?
           || o.TransportError?
       case AwaitSetupResponse(c, _, _, _) =>
         || o == Skipped(ConnectionOpen(c)) || o.TimedOut? || o.TransportClosed? || o.TransportError?
         || (o.Completed? && o.response.SetupAnswer? && !o.response.response.Silence?)
       case Probe => o.Completed? && o.response.Probed?
       case _ => o == Completed(NoResponse)
  }

  lemma PerformFits(peer: Peer, r: Run, a: Action)
    ensures var o := Perform(peer, r, a).outcomes[|r.outcomes|];
      OutcomeFits(a, o) && Attempted(o)
  {
    if a.AwaitSetupResponse? && a.connection in r.states {
      hide Pump;
      PumpFails(r.states[a.connection].(setup := Pending), peer.windows(r.calls, a.connection, a.firstOnConnection));
    }
  }

  // ---------------------------------------------------------------------------------------------
  // Dominance
  // ---------------------------------------------------------------------------------------------

  predicate DefinesAttempted(a: Action, o: Outcome, id: Id) {
    id in DefinedBy(a) && Attempted(o)
  }

  /** One of the first `n` actions defines `id`, and was attempted. */
  ghost predicate DefinedBefore(actions: seq<Action>, outcomes: seq<Outcome>, n: nat, id: Id)
    requires n <= |actions| && n <= |outcomes|
  {
    exists j :: 0 <= j < n && DefinesAttempted(actions[j], outcomes[j], id)
  }

  /** If action `i` was attempted, what it uses was there beforehand or had its own definition attempted before. */
  ghost predicate UsesDominated(actions: seq<Action>, outcomes: seq<Outcome>, i: nat, base: nat)
    requires i < |actions| && i < |outcomes|
  {
    && (Attempted(outcomes[i]) ==> forall id | id in UsedBy(actions[i]) ::
          (id.Conn? && id.connection < base) || DefinedBefore(actions, outcomes, i, id))
    && ((&& actions[i].EnterOnSetupSuccess?
         && (Attempted(outcomes[i]) || outcomes[i] == Skipped(SetupAgreed(actions[i].session)))) ==>
          DefinedBefore(actions, outcomes, i, Sess(actions[i].session)))
  }

  lemma DefinedStays(actions: seq<Action>, outcomes: seq<Outcome>, outcomes': seq<Outcome>, n: nat, n': nat, id: Id)
    requires n <= n' <= |actions| && n <= |outcomes| && n' <= |outcomes'| && outcomes'[..n] == outcomes[..n]
    requires DefinedBefore(actions, outcomes, n, id)
    ensures DefinedBefore(actions, outcomes', n', id)
  {
    var j :| 0 <= j < n && DefinesAttempted(actions[j], outcomes[j], id);
    assert outcomes'[j] == outcomes'[..n][j] == outcomes[j];
  }

  ghost predicate AllDefined(actions: seq<Action>, outcomes: seq<Outcome>, n: nat, avail: set<Id>)
    requires n <= |actions| && n <= |outcomes|
  {
    forall id | id in avail :: DefinedBefore(actions, outcomes, n, id)
  }

  lemma AllDefinedStays(actions: seq<Action>, outcomes: seq<Outcome>, outcomes': seq<Outcome>, n: nat, n': nat,
    avail: set<Id>)
    requires n <= n' <= |actions| && n <= |outcomes| && n' <= |outcomes'| && outcomes'[..n] == outcomes[..n]
    requires AllDefined(actions, outcomes, n, avail)
    ensures AllDefined(actions, outcomes', n', avail)
  {
    forall id | id in avail ensures DefinedBefore(actions, outcomes', n', id) {
      DefinedStays(actions, outcomes, outcomes', n, n', id);
    }
  }

  lemma UsesStay(actions: seq<Action>, outcomes: seq<Outcome>, outcomes': seq<Outcome>, i: nat, base: nat)
    requires i < |actions| && i < |outcomes| && i < |outcomes'| && outcomes'[..i + 1] == outcomes[..i + 1]
    requires UsesDominated(actions, outcomes, i, base)
    ensures UsesDominated(actions, outcomes', i, base)
  {
    assert outcomes'[i] == outcomes'[..i + 1][i] == outcomes[i];
    assert outcomes'[..i] == outcomes'[..i + 1][..i] == outcomes[..i];
    forall id | DefinedBefore(actions, outcomes, i, id) ensures DefinedBefore(actions, outcomes', i, id) {
      DefinedStays(actions, outcomes, outcomes', i, i, id);
    }
  }

  /** The outcomes from `n` up to `m` are of dominated uses. */
  ghost predicate Dominates(actions: seq<Action>, outcomes: seq<Outcome>, n: nat, m: nat, base: nat)
    requires m <= |actions| && m <= |outcomes|
  {
    forall i: nat | n <= i < m :: UsesDominated(actions, outcomes, i, base)
  }

  lemma DominatesStays(actions: seq<Action>, outcomes: seq<Outcome>, outcomes': seq<Outcome>, n: nat, m: nat, base: nat)
    requires m <= |actions| && m <= |outcomes| && m <= |outcomes'| && outcomes'[..m] == outcomes[..m]
    requires Dominates(actions, outcomes, n, m, base)
    ensures Dominates(actions, outcomes', n, m, base)
  {
    forall i: nat | n <= i < m ensures UsesDominated(actions, outcomes', i, base) {
      assert outcomes'[..i + 1] == outcomes'[..m][..i + 1] == outcomes[..i + 1];
      UsesStay(actions, outcomes, outcomes', i, base);
    }
  }

  /** Interpreting a tree adds an outcome for each of its actions. */
  lemma {:induction false} InterpretRecords(peer: Peer, t: Tree, r: Run)
    ensures var r' := Interpret(peer, t, r);
      |r'.outcomes| == |r.outcomes| + Size(t) && r'.outcomes[..|r.outcomes|] == r.outcomes
    decreases t, 0
  {
    hide Perform;
    match t {
      case Nil =>
      case Do(a, rest) =>
        PerformRecordsOne(peer, r, a);
        InterpretRecords(peer, rest, Perform(peer, r, a));
        PrefixOfPrefix(Interpret(peer, t, r).outcomes, Perform(peer, r, a).outcomes, r.outcomes);
      case Block(s, body, rest) =>
        var mid := AfterBlock(peer, s, body, r);
        AfterBlockRecords(peer, s, body, r);
        InterpretRecords(peer, rest, mid);
        PrefixOfPrefix(Interpret(peer, t, r).outcomes, mid.outcomes, r.outcomes);
    }
  }

  lemma PrefixOfPrefix<T>(a: seq<T>, b: seq<T>, c: seq<T>)
    requires |c| <= |b| <= |a| && a[..|b|] == b && b[..|c|] == c
    ensures a[..|c|] == c
  {
    assert a[..|c|] == a[..|b|][..|c|];
  }

  /** The run once a block is left behind, entered or not. */
  function AfterBlock(peer: Peer, s: nat, body: Tree, r: Run): Run {
    if IsEstablished(r, s)
    then Record(Interpret(peer, body, Record(r, Completed(NoResponse))), Completed(NoResponse))
    else Skip(r, s, Size(body) + 2)
  }

  lemma {:induction false} AfterBlockRecords(peer: Peer, s: nat, body: Tree, r: Run)
    ensures var r' := AfterBlock(peer, s, body, r);
      |r'.outcomes| == |r.outcomes| + Size(body) + 2 && r'.outcomes[..|r.outcomes|] == r.outcomes
    decreases body, 1
  {
    if IsEstablished(r, s) {
      var entered := Record(r, Completed(NoResponse));
      InterpretRecords(peer, body, entered);
      PrefixOfPrefix(Interpret(peer, body, entered).outcomes, entered.outcomes, r.outcomes);
    }
  }

  lemma DoDominates(peer: Peer, actions: seq<Action>, a: Action, avail: set<Id>, base: nat, r: Run)
    requires |r.outcomes| < |actions| && actions[|r.outcomes|] == a && !a.EnterOnSetupSuccess?
    requires AllAvailable(UsedBy(a), avail, base) && AllDefined(actions, r.outcomes, |r.outcomes|, avail)
    ensures var n, r' := |r.outcomes|, Perform(peer, r, a);
      && |r'.outcomes| == n + 1
      && UsesDominated(actions, r'.outcomes, n, base)
      && AllDefined(actions, r'.outcomes, n + 1, avail + DefinedBy(a))
  {
    hide Perform, DefinedBefore, UsedBy, DefinedBy;
    var n, r' := |r.outcomes|, Perform(peer, r, a);
    PerformRecordsOne(peer, r, a);
    PerformFits(peer, r, a);
    AllDefinedStays(actions, r.outcomes, r'.outcomes, n, n, avail);
    AllDefinedStays(actions, r.outcomes, r'.outcomes, n, n + 1, avail);
    forall id | id in DefinedBy(a) ensures DefinedBefore(actions, r'.outcomes, n + 1, id) {
      DefinedNow(actions, r'.outcomes, n, id);
    }
  }

  lemma DefinedNow(actions: seq<Action>, outcomes: seq<Outcome>, n: nat, id: Id)
    requires n < |actions| && n < |outcomes| && id in DefinedBy(actions[n]) && Attempted(outcomes[n])
    ensures DefinedBefore(actions, outcomes, n + 1, id)
  {
    assert DefinesAttempted(actions[n], outcomes[n], id);
  }

  lemma DominatesJoin(actions: seq<Action>, outcomes: seq<Outcome>, n: nat, k: nat, m: nat, base: nat)
    requires n <= k <= m <= |actions| && m <= |outcomes|
    requires Dominates(actions, outcomes, n, k, base) && Dominates(actions, outcomes, k, m, base)
    ensures Dominates(actions, outcomes, n, m, base)
  {
  }

  lemma DominatesOne(actions: seq<Action>, outcomes: seq<Outcome>, n: nat, base: nat)
    requires n < |actions| && n < |outcomes| && UsesDominated(actions, outcomes, n, base)
    ensures Dominates(actions, outcomes, n, n + 1, base)
  {
  }

  /** What a block does to the outcomes of its own actions. */
  ghost predicate Segment(actions: seq<Action>, r: Run, r': Run, size: nat, avail: set<Id>, base: nat) {
    var n := |r.outcomes|;
    && n + size <= |actions|
    && |r'.outcomes| == n + size && r'.outcomes[..n] == r.outcomes
    && Dominates(actions, r'.outcomes, n, n + size, base)
    && AllDefined(actions, r'.outcomes, n + size, avail)
  }

  lemma SegmentThen(actions: seq<Action>, r: Run, mid: Run, r': Run, a: nat, b: nat, avail: set<Id>, avail': set<Id>,
    base: nat)
    requires Segment(actions, r, mid, a, avail, base) && Segment(actions, mid, r', b, avail', base)
    ensures Segment(actions, r, r', a + b, avail', base)
  {
    hide UsesDominated, AllDefined;
    var n := |r.outcomes|;
    PrefixOfPrefix(r'.outcomes, mid.outcomes, r.outcomes);
    DominatesStays(actions, mid.outcomes, r'.outcomes, n, n + a, base);
    DominatesJoin(actions, r'.outcomes, n, n + a, n + a + b, base);
  }

  lemma DoSegment(peer: Peer, actions: seq<Action>, a: Action, avail: set<Id>, base: nat, r: Run)
    requires |r.outcomes| < |actions| && actions[|r.outcomes|] == a && !a.EnterOnSetupSuccess?
    requires AllAvailable(UsedBy(a), avail, base) && AllDefined(actions, r.outcomes, |r.outcomes|, avail)
    ensures Segment(actions, r, Perform(peer, r, a), 1, avail + DefinedBy(a), base)
  {
    hide Perform, UsesDominated, AllDefined, UsedBy, DefinedBy, AllAvailable;
    DoDominates(peer, actions, a, avail, base, r);
    PerformRecordsOne(peer, r, a);
    DominatesOne(actions, Perform(peer, r, a).outcomes, |r.outcomes|, base);
  }

  /** Entering or leaving a block. */
  lemma MarkerSegment(actions: seq<Action>, avail: set<Id>, base: nat, r: Run)
    requires |r.outcomes| < |actions|
    requires actions[|r.outcomes|].ExitBlock?
      || (actions[|r.outcomes|].EnterOnSetupSuccess? && Sess(actions[|r.outcomes|].session) in avail)
    requires AllDefined(actions, r.outcomes, |r.outcomes|, avail)
    ensures Segment(actions, r, Record(r, Completed(NoResponse)), 1, avail, base)
  {
    hide DefinedBefore;
    var n, r' := |r.outcomes|, Record(r, Completed(NoResponse));
    AllDefinedStays(actions, r.outcomes, r'.outcomes, n, n, avail);
    AllDefinedStays(actions, r.outcomes, r'.outcomes, n, n + 1, avail);
    assert UsesDominated(actions, r'.outcomes, n, base);
  }

  lemma SkipSegment(actions: seq<Action>, s: nat, size: nat, avail: set<Id>, base: nat, r: Run)
    requires |r.outcomes| + size <= |actions| && Sess(s) in avail
      && AllDefined(actions, r.outcomes, |r.outcomes|, avail)
    ensures Segment(actions, r, Skip(r, s, size), size, avail, base)
  {
    hide DefinedBefore;
    var n, r' := |r.outcomes|, Skip(r, s, size);
    AllDefinedStays(actions, r.outcomes, r'.outcomes, n, n + size, avail);
    forall i: nat | n <= i < n + size ensures UsesDominated(actions, r'.outcomes, i, base) {
      assert r'.outcomes[i] == Skipped(SetupAgreed(s));
      AllDefinedStays(actions, r.outcomes, r'.outcomes, n, i, avail);
    }
  }

  lemma SegmentDefined(actions: seq<Action>, r: Run, r': Run, size: nat, avail: set<Id>, less: set<Id>, base: nat)
    requires Segment(actions, r, r', size, avail, base) && less <= avail
    ensures |r'.outcomes| == |r.outcomes| + size <= |actions|
    ensures AllDefined(actions, r'.outcomes, |r'.outcomes|, avail)
      && AllDefined(actions, r'.outcomes, |r'.outcomes|, less)
    ensures Segment(actions, r, r', size, less, base)
  {
    hide DefinedBefore, Dominates;
  }

  /** Interpreting a scoped tree keeps every use dominated, and ends with everything it defines at the top defined. */
  lemma {:induction false} InterpretDominates(peer: Peer, actions: seq<Action>, t: Tree, avail: set<Id>, base: nat,
    r: Run)
    requires At(actions, |r.outcomes|, t) && Plain(t) && Scoped(t, avail, base)
    requires AllDefined(actions, r.outcomes, |r.outcomes|, avail)
    ensures Segment(actions, r, Interpret(peer, t, r), Size(t), avail + TopDefs(t), base)
    decreases t, 0
  {
    hide Perform, At, AllDefined, Segment, AllAvailable, UsedBy, DefinedBy, IsEstablished, Record, Skip;
    var n := |r.outcomes|;
    match t {
      case Nil =>
        NothingSegment(actions, r, avail, base, t);
        assert avail + {} == avail;
      case Do(a, rest) =>
        AtDo(actions, n, a, rest);
        var mid := Perform(peer, r, a);
        DoSegment(peer, actions, a, avail, base, r);
        SegmentDefined(actions, r, mid, 1, avail + DefinedBy(a), {}, base);
        InterpretDominates(peer, actions, rest, avail + DefinedBy(a), base, mid);
        SegmentThen(actions, r, mid, Interpret(peer, t, r), 1, Size(rest), avail + DefinedBy(a),
          avail + DefinedBy(a) + TopDefs(rest), base);
        assert avail + DefinedBy(a) + TopDefs(rest) == avail + TopDefs(t);
      case Block(s, body, rest) =>
        AtBlock(actions, n, s, body, rest);
        var mid := AfterBlock(peer, s, body, r);
        BlockDominates(peer, actions, s, body, avail, base, r);
        SegmentDefined(actions, r, mid, Size(body) + 2, avail, {}, base);
        InterpretDominates(peer, actions, rest, avail, base, mid);
        SegmentThen(actions, r, mid, Interpret(peer, t, r), Size(body) + 2, Size(rest), avail, avail + TopDefs(rest),
          base);
    }
  }

  lemma NothingSegment(actions: seq<Action>, r: Run, avail: set<Id>, base: nat, t: Tree)
    requires At(actions, |r.outcomes|, t) && t.Nil? && AllDefined(actions, r.outcomes, |r.outcomes|, avail)
    ensures Segment(actions, r, r, 0, avail, base)
  {
  }

  lemma {:induction false} BlockDominates(peer: Peer, actions: seq<Action>, s: nat, body: Tree, avail: set<Id>,
    base: nat, r: Run)
    requires var n, end := |r.outcomes|, |r.outcomes| + 1 + Size(body);
      && end < |actions| && actions[n] == EnterOnSetupSuccess(s, end) && actions[end] == ExitBlock
        && At(actions, n + 1, body)
    requires Plain(body) && Scoped(body, avail, base) && Sess(s) in avail
      && AllDefined(actions, r.outcomes, |r.outcomes|, avail)
    ensures Segment(actions, r, AfterBlock(peer, s, body, r), Size(body) + 2, avail, base)
    decreases body, 1
  {
    hide Perform, At, AllDefined, Segment, AllAvailable, UsedBy, DefinedBy, IsEstablished, Record, Skip, Scoped, Size;
    if IsEstablished(r, s) {
      var entered := Record(r, Completed(NoResponse));
      var inside := Interpret(peer, body, entered);
      MarkerSegment(actions, avail, base, r);
      SegmentDefined(actions, r, entered, 1, avail, {}, base);
      InterpretDominates(peer, actions, body, avail, base, entered);
      SegmentDefined(actions, entered, inside, Size(body), avail + TopDefs(body), avail, base);
      SegmentThen(actions, r, entered, inside, 1, Size(body), avail, avail, base);
      MarkerSegment(actions, avail, base, inside);
      SegmentThen(actions, r, inside, Record(inside, Completed(NoResponse)), 1 + Size(body), 1, avail, avail, base);
    } else {
      SkipSegment(actions, s, Size(body) + 2, avail, base, r);
    }
  }

  /**
   * Scope implies dominance. In every run of a compiled valid program, an action attempted on a connection the
   * program opens comes after that connection's own connect was attempted, and a block is tested only after
   * its session's setup was awaited, all in the same run.
   */
  lemma ScopeDominates(peer: Peer, p: Program)
    requires B.StaticallyValid(p) && Compile(p).Success?
    ensures Forward(Compile(p).value.actions)
    ensures var actions, outcomes := Compile(p).value.actions, RunProgram(peer, Compile(p).value).outcomes;
      |outcomes| == |actions| && Dominates(actions, outcomes, 0, |actions|, p.context.numConnections)
  {
    hide B.StaticallyValid, Compile, Flatten, Parse, Interpret, Scoped, At, RunFrom, Forward, UsesDominated, TopDefs,
      Plain, Size;
    var actions := Compile(p).value.actions;
    CompiledStands(p);
    CompiledIsScoped(p);
    RunRefinesBlocks(peer, p);
    InterpretDominates(peer, actions, TreeOf(actions), {}, p.context.numConnections, START);
  }
}
