/** What the outcomes of a run say of each other: which actions were attempted, on what, and why the others were not. */
module Traces {
  import opened Ir
  import B = Builder
  import opened Compiler
  import opened Soundness
  import opened Ledger
  import opened Events
  import opened Runner
  import opened Blocks
  import opened Runs

  /** Blocks end at an exit, and two of them are apart or one inside the other. */
  ghost predicate NestedIn(actions: seq<Action>, base: nat, m: nat)
    requires m <= |actions|
  {
    && (forall i | base <= i < m && actions[i].EnterOnSetupSuccess? ::
          i < actions[i].end < m && actions[actions[i].end].ExitBlock?)
    && (forall i, j | base <= i < j < m && actions[i].EnterOnSetupSuccess? && actions[j].EnterOnSetupSuccess? ::
          actions[i].end < j || actions[j].end < actions[i].end)
  }

  ghost predicate Nested(actions: seq<Action>) {
    NestedIn(actions, 0, |actions|)
  }

  lemma {:induction false} TreeNested(actions: seq<Action>, base: nat, t: Tree)
    requires At(actions, base, t) && Plain(t)
    ensures base + Size(t) <= |actions| && NestedIn(actions, base, base + Size(t))
    decreases t
  {
    hide Flatten, At;
    AtBounds(actions, base, t);
    match t {
      case Nil =>
      case Do(a, rest) =>
        AtDo(actions, base, a, rest);
        TreeNested(actions, base + 1, rest);
      case Block(s, body, rest) =>
        AtBlock(actions, base, s, body, rest);
        var end := base + 1 + Size(body);
        TreeNested(actions, base + 1, body);
        TreeNested(actions, end + 1, rest);
        BlockNested(actions, base, end, base + Size(t));
    }
  }

  lemma BlockNested(actions: seq<Action>, base: nat, end: nat, m: nat)
    requires base < end < m <= |actions| && NestedIn(actions, base + 1, end) && NestedIn(actions, end + 1, m)
    requires actions[base].EnterOnSetupSuccess? && actions[base].end == end && actions[end].ExitBlock?
    ensures NestedIn(actions, base, m)
  {
  }

  /** Block `i` holds action `k`, its own markers included. */
  predicate Encloses(actions: seq<Action>, i: nat, k: nat) {
    i < |actions| && actions[i].EnterOnSetupSuccess? && i <= k <= actions[i].end
  }

  predicate AgreedTo(a: Action, o: Outcome, session: nat) {
    a.AwaitSetupResponse? && a.session == session && o.Completed? && o.response.SetupAnswer?
      && o.response.response.Agreed?
  }

  /** One of the first `n` actions awaited the session's setup and got the server's agreement. */
  ghost predicate AgreedBefore(actions: seq<Action>, outcomes: seq<Outcome>, n: nat, session: nat)
    requires n <= |actions| && n <= |outcomes|
  {
    exists j :: 0 <= j < n && AgreedTo(actions[j], outcomes[j], session)
  }

  predicate Opens(a: Action, o: Outcome, connection: nat) {
    a.Connect? && a.connection == connection && o == Completed(NoResponse)
  }

  /** One of the first `n` actions opened the connection. */
  ghost predicate OpenedBefore(actions: seq<Action>, outcomes: seq<Outcome>, n: nat, connection: nat)
    requires n <= |actions| && n <= |outcomes|
  {
    exists j :: 0 <= j < n && Opens(actions[j], outcomes[j], connection)
  }

  lemma BeforeOneMore(actions: seq<Action>, outcomes: seq<Outcome>, o: Outcome, id: nat)
    requires |outcomes| < |actions|
    ensures var n := |outcomes|;
      && (AgreedBefore(actions, outcomes + [o], n + 1, id) <==>
            AgreedBefore(actions, outcomes, n, id) || AgreedTo(actions[n], o, id))
      && (OpenedBefore(actions, outcomes + [o], n + 1, id) <==>
            OpenedBefore(actions, outcomes, n, id) || Opens(actions[n], o, id))
  {
    var n, more := |outcomes|, outcomes + [o];
    hide AgreedTo, Opens;
    assert forall j | 0 <= j < n :: more[j] == outcomes[j];
    assert more[n] == o;
    if AgreedBefore(actions, outcomes, n, id) {
      var j :| 0 <= j < n && AgreedTo(actions[j], outcomes[j], id);
      assert AgreedTo(actions[j], more[j], id);
    }
    if OpenedBefore(actions, outcomes, n, id) {
      var j :| 0 <= j < n && Opens(actions[j], outcomes[j], id);
      assert Opens(actions[j], more[j], id);
    }
  }

  lemma BeforeStays(actions: seq<Action>, outcomes: seq<Outcome>, more: seq<Outcome>, n: nat, id: nat)
    requires n <= |actions| && n <= |outcomes| && outcomes <= more
    ensures AgreedBefore(actions, more, n, id) <==> AgreedBefore(actions, outcomes, n, id)
    ensures OpenedBefore(actions, more, n, id) <==> OpenedBefore(actions, outcomes, n, id)
  {
    assert forall j | 0 <= j < n :: more[j] == outcomes[j];
  }

  lemma BeforeSkipped(actions: seq<Action>, outcomes: seq<Outcome>, s: nat, k: nat, id: nat)
    requires |outcomes| + k <= |actions|
    ensures var n, more := |outcomes|, outcomes + Repeated(Skipped(SetupAgreed(s)), k);
      && (AgreedBefore(actions, more, n + k, id) <==> AgreedBefore(actions, outcomes, n, id))
      && (OpenedBefore(actions, more, n + k, id) <==> OpenedBefore(actions, outcomes, n, id))
  {
    var n, more := |outcomes|, outcomes + Repeated(Skipped(SetupAgreed(s)), k);
    BeforeStays(actions, outcomes, more, n, id);
    assert forall j | n <= j < n + k :: more[j] == Skipped(SetupAgreed(s));
  }

  // ---------------------------------------------------------------------------------------------
  // Connections and sessions
  // ---------------------------------------------------------------------------------------------

  /** No session is awaited twice. */
  ghost predicate SessionsOnce(actions: seq<Action>) {
    forall i, j | 0 <= i < j < |actions| && actions[i].AwaitSetupResponse? && actions[j].AwaitSetupResponse? ::
      actions[i].session != actions[j].session
  }

  /** The connections a run holds are those its connects opened. */
  ghost predicate LinksTraced(actions: seq<Action>, r: Run) {
    && |r.outcomes| <= |actions|
    && r.states.Keys == r.links && r.roles.Keys == r.links
    && forall c: nat :: c in r.links <==> OpenedBefore(actions, r.outcomes, |r.outcomes|, c)
  }

  /** The sessions a run takes as agreed are those the server agreed to. */
  ghost predicate SessionsTraced(actions: seq<Action>, r: Run) {
    && |r.outcomes| <= |actions|
    && forall s: nat :: IsEstablished(r, s) <==> AgreedBefore(actions, r.outcomes, |r.outcomes|, s)
  }

  lemma PerformLinks(peer: Peer, r: Run, a: Action)
    requires r.states.Keys == r.links && r.roles.Keys == r.links
    ensures var r', o := Perform(peer, r, a), Perform(peer, r, a).outcomes[|r.outcomes|];
      && r'.outcomes == r.outcomes + [o]
      && r'.states.Keys == r'.links && r'.roles.Keys == r'.links
      && forall c: nat :: c in r'.links <==> c in r.links || Opens(a, o, c)
  {
    hide Pump, DispatchAll, ProbedStates, ProbedSightings;
    ProbeKeepsConnections(peer, r);
  }

  lemma PerformSessions(peer: Peer, r: Run, a: Action)
    ensures var r', o := Perform(peer, r, a), Perform(peer, r, a).outcomes[|r.outcomes|];
      forall s: nat :: IsEstablished(r', s) <==>
        (IsEstablished(r, s) && !(a.AwaitSetupResponse? && a.session == s && a.connection in r.states))
        || AgreedTo(a, o, s)
  {
    hide Pump, DispatchAll;
  }

  lemma LinksStep(peer: Peer, actions: seq<Action>, r: Run)
    requires |r.outcomes| < |actions| && LinksTraced(actions, r)
    ensures LinksTraced(actions, Perform(peer, r, actions[|r.outcomes|]))
  {
    hide Perform, OpenedBefore, AgreedBefore, Opens;
    var n := |r.outcomes|;
    var r' := Perform(peer, r, actions[n]);
    PerformLinks(peer, r, actions[n]);
    forall c: nat ensures c in r'.links <==> OpenedBefore(actions, r'.outcomes, n + 1, c) {
      BeforeOneMore(actions, r.outcomes, r'.outcomes[n], c);
    }
  }

  lemma NotAgreedYet(actions: seq<Action>, outcomes: seq<Outcome>, n: nat)
    requires n < |actions| && n <= |outcomes| && SessionsOnce(actions) && actions[n].AwaitSetupResponse?
    ensures !AgreedBefore(actions, outcomes, n, actions[n].session)
  {
  }

  lemma SessionsStep(peer: Peer, actions: seq<Action>, r: Run)
    requires |r.outcomes| < |actions| && SessionsTraced(actions, r) && SessionsOnce(actions)
    ensures SessionsTraced(actions, Perform(peer, r, actions[|r.outcomes|]))
  {
    hide Perform, OpenedBefore, AgreedBefore, AgreedTo, IsEstablished, SessionsOnce;
    var n := |r.outcomes|;
    var a, r' := actions[n], Perform(peer, r, actions[n]);
    PerformRecordsOne(peer, r, a);
    PerformSessions(peer, r, a);
    assert r'.outcomes == r.outcomes + [r'.outcomes[n]];
    if a.AwaitSetupResponse? {
      NotAgreedYet(actions, r.outcomes, n);
    }
    forall s: nat ensures IsEstablished(r', s) <==> AgreedBefore(actions, r'.outcomes, n + 1, s) {
      BeforeOneMore(actions, r.outcomes, r'.outcomes[n], s);
    }
  }

  lemma SkipTraced(actions: seq<Action>, r: Run, s: nat, k: nat)
    requires |r.outcomes| + k <= |actions|
    ensures LinksTraced(actions, r) ==> LinksTraced(actions, Skip(r, s, k))
    ensures SessionsTraced(actions, r) ==> SessionsTraced(actions, Skip(r, s, k))
  {
    hide OpenedBefore, AgreedBefore;
    var n, r' := |r.outcomes|, Skip(r, s, k);
    forall id: nat
      ensures OpenedBefore(actions, r'.outcomes, n + k, id) <==> OpenedBefore(actions, r.outcomes, n, id)
      ensures AgreedBefore(actions, r'.outcomes, n + k, id) <==> AgreedBefore(actions, r.outcomes, n, id)
      ensures IsEstablished(r', id) <==> IsEstablished(r, id)
    {
      BeforeSkipped(actions, r.outcomes, s, k, id);
    }
  }

  // ---------------------------------------------------------------------------------------------
  // Each action's outcome
  // ---------------------------------------------------------------------------------------------

  /**
   * What became of action `i`: something its kind allows; unattempted for want of a connection exactly when no
   * connect before it opened that connection; and for an entered block, entered with its session agreed to.
   */
  ghost predicate ActionTraced(actions: seq<Action>, outcomes: seq<Outcome>, i: nat)
    requires i < |actions| && i < |outcomes|
  {
    var a, o := actions[i], outcomes[i];
    && OutcomeFits(a, o)
    && (Attempted(o) && (a.Send? || a.AwaitSetupResponse?) ==>
          (o == Skipped(ConnectionOpen(a.connection)) <==> !OpenedBefore(actions, outcomes, i, a.connection)))
    && (Attempted(o) && a.EnterOnSetupSuccess? ==> AgreedBefore(actions, outcomes, i, a.session))
  }

  ghost predicate AllTraced(actions: seq<Action>, outcomes: seq<Outcome>) {
    |outcomes| <= |actions| && forall i: nat | i < |outcomes| :: ActionTraced(actions, outcomes, i)
  }

  lemma TracedStays(actions: seq<Action>, outcomes: seq<Outcome>, more: seq<Outcome>, i: nat)
    requires i < |actions| && i < |outcomes| && outcomes <= more && ActionTraced(actions, outcomes, i)
    ensures ActionTraced(actions, more, i)
  {
    hide OpenedBefore, AgreedBefore, OutcomeFits;
    if actions[i].Send? || actions[i].AwaitSetupResponse? {
      BeforeStays(actions, outcomes, more, i, actions[i].connection);
    } else if actions[i].EnterOnSetupSuccess? {
      BeforeStays(actions, outcomes, more, i, actions[i].session);
    }
  }

  lemma PerformReaches(peer: Peer, r: Run, a: Action)
    requires (a.Send? || a.AwaitSetupResponse?) && r.states.Keys == r.links
    ensures Perform(peer, r, a).outcomes[|r.outcomes|] == Skipped(ConnectionOpen(a.connection)) <==>
        a.connection !in r.links
  {
    if a.AwaitSetupResponse? && a.connection in r.states {
      hide Pump;
      PumpFails(r.states[a.connection].(setup := Pending), peer.windows(r.calls, a.connection, a.firstOnConnection));
    }
  }

  lemma PerformTraced(peer: Peer, actions: seq<Action>, r: Run)
    requires |r.outcomes| < |actions| && LinksTraced(actions, r) && SessionsTraced(actions, r)
    requires !Unmet(r, actions[|r.outcomes|])
    ensures |Perform(peer, r, actions[|r.outcomes|]).outcomes| == |r.outcomes| + 1
    ensures ActionTraced(actions, Perform(peer, r, actions[|r.outcomes|]).outcomes, |r.outcomes|)
  {
    hide Perform, OpenedBefore, AgreedBefore, OutcomeFits, IsEstablished;
    var n := |r.outcomes|;
    var a, r' := actions[n], Perform(peer, r, actions[n]);
    PerformRecordsOne(peer, r, a);
    PerformFits(peer, r, a);
    if a.Send? || a.AwaitSetupResponse? {
      PerformReaches(peer, r, a);
      BeforeStays(actions, r.outcomes, r'.outcomes, n, a.connection);
    } else if a.EnterOnSetupSuccess? {
      BeforeStays(actions, r.outcomes, r'.outcomes, n, a.session);
    }
  }

  lemma AllStep(peer: Peer, actions: seq<Action>, r: Run)
    requires |r.outcomes| < |actions| && LinksTraced(actions, r) && SessionsTraced(actions, r)
    requires !Unmet(r, actions[|r.outcomes|]) && AllTraced(actions, r.outcomes)
    ensures AllTraced(actions, Perform(peer, r, actions[|r.outcomes|]).outcomes)
  {
    hide Perform, ActionTraced, LinksTraced, SessionsTraced;
    var n := |r.outcomes|;
    var r' := Perform(peer, r, actions[n]);
    PerformRecordsOne(peer, r, actions[n]);
    PerformTraced(peer, actions, r);
    forall i: nat | i < n ensures ActionTraced(actions, r'.outcomes, i) {
      TracedStays(actions, r.outcomes, r'.outcomes, i);
    }
  }

  lemma AllSkipped(actions: seq<Action>, r: Run, s: nat, k: nat)
    requires |r.outcomes| + k <= |actions| && AllTraced(actions, r.outcomes)
    ensures AllTraced(actions, Skip(r, s, k).outcomes)
  {
    hide OpenedBefore, AgreedBefore;
    var n, r' := |r.outcomes|, Skip(r, s, k);
    forall i: nat | i < n + k ensures ActionTraced(actions, r'.outcomes, i) {
      if i < n {
        TracedStays(actions, r.outcomes, r'.outcomes, i);
      } else {
        assert r'.outcomes[i] == Skipped(SetupAgreed(s));
      }
    }
  }

  // ---------------------------------------------------------------------------------------------
  // Skipped blocks
  // ---------------------------------------------------------------------------------------------

  /** Every block around action `n` that is not its own was entered. */
  ghost predicate AroundEntered(actions: seq<Action>, outcomes: seq<Outcome>, n: nat)
    requires n <= |actions| && n <= |outcomes|
  {
    forall j: nat | j < n && Encloses(actions, j, n) :: Attempted(outcomes[j])
  }

  /** Block `i`, with every block around it entered, is skipped whole, its exit included, its session not agreed to. */
  ghost predicate SkippedWhole(actions: seq<Action>, outcomes: seq<Outcome>, i: nat)
    requires |outcomes| <= |actions|
  {
    && i < |outcomes| && actions[i].EnterOnSetupSuccess? && actions[i].end < |outcomes|
    && AroundEntered(actions, outcomes, i)
    && !AgreedBefore(actions, outcomes, i, actions[i].session)
    && forall k | i <= k <= actions[i].end :: outcomes[k] == Skipped(SetupAgreed(actions[i].session))
  }

  /** Action `k` is skipped only in a block that is. */
  ghost predicate SkipExplained(actions: seq<Action>, outcomes: seq<Outcome>, k: nat)
    requires k < |outcomes| <= |actions|
  {
    BlockSkipped(outcomes[k]) ==> exists i: nat :: Encloses(actions, i, k) && SkippedWhole(actions, outcomes, i)
  }

  ghost predicate SkipsTraced(actions: seq<Action>, outcomes: seq<Outcome>) {
    && |outcomes| <= |actions|
    && AroundEntered(actions, outcomes, |outcomes|)
    && forall k: nat | k < |outcomes| :: SkipExplained(actions, outcomes, k)
  }

  lemma AroundStays(actions: seq<Action>, outcomes: seq<Outcome>, more: seq<Outcome>, n: nat)
    requires n <= |actions| && n <= |outcomes| && outcomes <= more && AroundEntered(actions, outcomes, n)
    ensures AroundEntered(actions, more, n)
  {
  }

  lemma WholeStays(actions: seq<Action>, outcomes: seq<Outcome>, more: seq<Outcome>, i: nat)
    requires |outcomes| <= |more| <= |actions| && outcomes <= more && SkippedWhole(actions, outcomes, i)
    ensures SkippedWhole(actions, more, i)
  {
    hide AgreedBefore, AroundEntered;
    AroundStays(actions, outcomes, more, i);
    BeforeStays(actions, outcomes, more, i, actions[i].session);
  }

  lemma ExplainedStays(actions: seq<Action>, outcomes: seq<Outcome>, more: seq<Outcome>, k: nat)
    requires k < |outcomes| <= |more| <= |actions| && outcomes <= more && SkipExplained(actions, outcomes, k)
    ensures SkipExplained(actions, more, k)
  {
    hide SkippedWhole;
    if BlockSkipped(more[k]) {
      var i: nat :| Encloses(actions, i, k) && SkippedWhole(actions, outcomes, i);
      WholeStays(actions, outcomes, more, i);
    }
  }

  lemma SkipsStep(actions: seq<Action>, outcomes: seq<Outcome>, o: Outcome)
    requires |outcomes| < |actions| && SkipsTraced(actions, outcomes) && Attempted(o)
    ensures SkipsTraced(actions, outcomes + [o])
  {
    hide SkipExplained;
    var n, more := |outcomes|, outcomes + [o];
    forall j: nat | j < n + 1 && Encloses(actions, j, n + 1) ensures Attempted(more[j]) {
      if j < n {
        assert Encloses(actions, j, n);
      }
    }
    forall k: nat | k < n + 1 ensures SkipExplained(actions, more, k) {
      if k < n {
        ExplainedStays(actions, outcomes, more, k);
      } else {
        AttemptedExplained(actions, more, k);
      }
    }
  }

  lemma AttemptedExplained(actions: seq<Action>, outcomes: seq<Outcome>, k: nat)
    requires k < |outcomes| <= |actions| && Attempted(outcomes[k])
    ensures SkipExplained(actions, outcomes, k)
  {
  }

  lemma SkipsSkip(actions: seq<Action>, outcomes: seq<Outcome>)
    requires |outcomes| < |actions| && Nested(actions) && SkipsTraced(actions, outcomes)
    requires actions[|outcomes|].EnterOnSetupSuccess?
      && !AgreedBefore(actions, outcomes, |outcomes|, actions[|outcomes|].session)
    ensures var n := |outcomes|;
      SkipsTraced(actions, outcomes + Repeated(Skipped(SetupAgreed(actions[n].session)), actions[n].end + 1 - n))
  {
    hide SkipExplained, AgreedBefore;
    var n, s, end := |outcomes|, actions[|outcomes|].session, actions[|outcomes|].end;
    var more := outcomes + Repeated(Skipped(SetupAgreed(s)), end + 1 - n);
    AroundAfter(actions, outcomes, more);
    AroundStays(actions, outcomes, more, n);
    BeforeStays(actions, outcomes, more, n, s);
    assert SkippedWhole(actions, more, n) by { SkippedNow(actions, outcomes); }
    forall k: nat | k < end + 1 ensures SkipExplained(actions, more, k) {
      if k < n {
        ExplainedStays(actions, outcomes, more, k);
      } else {
        WholeExplains(actions, more, n, k);
      }
    }
  }

  lemma SkippedNow(actions: seq<Action>, outcomes: seq<Outcome>)
    requires |outcomes| < |actions| && Nested(actions) && actions[|outcomes|].EnterOnSetupSuccess?
    requires AroundEntered(actions, outcomes, |outcomes|)
      && !AgreedBefore(actions, outcomes, |outcomes|, actions[|outcomes|].session)
    ensures var n := |outcomes|;
      SkippedWhole(actions, outcomes + Repeated(Skipped(SetupAgreed(actions[n].session)), actions[n].end + 1 - n), n)
  {
    hide AgreedBefore;
    var n, s := |outcomes|, actions[|outcomes|].session;
    var more := outcomes + Repeated(Skipped(SetupAgreed(s)), actions[n].end + 1 - n);
    AroundStays(actions, outcomes, more, n);
    BeforeStays(actions, outcomes, more, n, s);
  }

  lemma WholeExplains(actions: seq<Action>, outcomes: seq<Outcome>, i: nat, k: nat)
    requires k < |outcomes| <= |actions| && SkippedWhole(actions, outcomes, i) && i <= k <= actions[i].end
    ensures SkipExplained(actions, outcomes, k)
  {
    hide AgreedBefore, AroundEntered;
    assert Encloses(actions, i, k);
  }

  /** Past a skipped block, the blocks still open are those that were open before it. */
  lemma AroundAfter(actions: seq<Action>, outcomes: seq<Outcome>, more: seq<Outcome>)
    requires |outcomes| < |actions| && Nested(actions) && AroundEntered(actions, outcomes, |outcomes|)
      && outcomes <= more
    requires actions[|outcomes|].EnterOnSetupSuccess? && |more| == actions[|outcomes|].end + 1
    ensures AroundEntered(actions, more, |more|)
  {
    var n := |outcomes|;
    forall j: nat | j < |more| && Encloses(actions, j, |more|) ensures Attempted(more[j]) {
      assert j < n;
      assert Encloses(actions, j, n);
    }
  }

  // ---------------------------------------------------------------------------------------------
  // Every run
  // ---------------------------------------------------------------------------------------------

  ghost predicate RunTraced(actions: seq<Action>, r: Run) {
    && LinksTraced(actions, r) && SessionsTraced(actions, r)
    && AllTraced(actions, r.outcomes) && SkipsTraced(actions, r.outcomes)
  }

  lemma StepRunTraced(peer: Peer, actions: seq<Action>, r: Run)
    requires |r.outcomes| < |actions| && SessionsOnce(actions) && RunTraced(actions, r)
      && !Unmet(r, actions[|r.outcomes|])
    ensures RunTraced(actions, Perform(peer, r, actions[|r.outcomes|]))
  {
    hide Perform, LinksTraced, SessionsTraced, AllTraced, SkipsTraced, SessionsOnce, OutcomeFits;
    var n := |r.outcomes|;
    var r' := Perform(peer, r, actions[n]);
    LinksStep(peer, actions, r);
    SessionsStep(peer, actions, r);
    AllStep(peer, actions, r);
    PerformRecordsOne(peer, r, actions[n]);
    PerformFits(peer, r, actions[n]);
    assert r'.outcomes == r.outcomes + [r'.outcomes[n]];
    SkipsStep(actions, r.outcomes, r'.outcomes[n]);
  }

  lemma SkipRunTraced(actions: seq<Action>, r: Run)
    requires |r.outcomes| < |actions| && Nested(actions) && RunTraced(actions, r) && Unmet(r, actions[|r.outcomes|])
    ensures var a := actions[|r.outcomes|];
      a.end < |actions| && a.end + 1 > |r.outcomes| && RunTraced(actions, Skip(r, a.session, a.end + 1 - |r.outcomes|))
  {
    hide LinksTraced, AllTraced, SkipsTraced, AgreedBefore, IsEstablished;
    var n, a := |r.outcomes|, actions[|r.outcomes|];
    SkipTraced(actions, r, a.session, a.end + 1 - n);
    AllSkipped(actions, r, a.session, a.end + 1 - n);
    SkipsSkip(actions, r.outcomes);
  }

  lemma {:induction false} RunFromTraced(peer: Peer, actions: seq<Action>, r: Run)
    requires Nested(actions) && SessionsOnce(actions) && Forward(actions) && |r.outcomes| <= |actions|
      && RunTraced(actions, r)
    ensures RunTraced(actions, RunFrom(peer, actions, |r.outcomes|, r))
    decreases |actions| - |r.outcomes|
  {
    hide Perform, Skip, RunTraced, SessionsOnce, Unmet, Forward, RunFrom;
    var n := |r.outcomes|;
    if n < |actions| {
      RunStep(peer, actions, n, r);
      if Unmet(r, actions[n]) {
        SkipRunTraced(actions, r);
        SkipLength(r, actions[n].session, actions[n].end + 1 - n);
        RunFromTraced(peer, actions, Skip(r, actions[n].session, actions[n].end + 1 - n));
      } else {
        StepRunTraced(peer, actions, r);
        PerformRecordsOne(peer, r, actions[n]);
        RunFromTraced(peer, actions, Perform(peer, r, actions[n]));
      }
    } else {
      RunEnd(peer, actions, r);
    }
  }

  lemma SkipLength(r: Run, s: nat, k: nat)
    ensures |Skip(r, s, k).outcomes| == |r.outcomes| + k
  {
  }

  lemma StartTraced(actions: seq<Action>)
    ensures RunTraced(actions, START)
  {
  }

  lemma OnceFromOrder(c: State, base: nat)
    requires IdsOrdered(c, base)
    ensures SessionsOnce(c.actions)
  {
  }

  /** Every run of a compiled valid program is traced to its end, one outcome to an action. */
  lemma CompiledTraced(peer: Peer, p: Program)
    requires B.StaticallyValid(p) && Compile(p).Success?
    ensures Forward(Compile(p).value.actions) && Nested(Compile(p).value.actions)
    ensures var actions, r := Compile(p).value.actions, RunProgram(peer, Compile(p).value);
      |r.outcomes| == |actions| && RunTraced(actions, r)
  {
    hide B.StaticallyValid, Flatten, Parse, At, Forward, Nested, RunFrom, RunTraced, Typed, SessionsOnce, CompileAll,
      Plain, IdsOrdered;
    var actions := Compile(p).value.actions;
    CompiledStands(p);
    CompiledRecorded(p);
    OnceFromOrder(Lowered(p), p.context.numConnections);
    TreeNested(actions, 0, TreeOf(actions));
    assert Nested(actions) by { WholeNested(actions); }
    RunIsTotal(peer, actions, 0, START);
    StartTraced(actions);
    RunFromTraced(peer, actions, START);
  }

  lemma WholeNested(actions: seq<Action>)
    requires NestedIn(actions, 0, 0 + |actions|)
    ensures Nested(actions)
  {
  }

  /** Inside a block skipped whole, and its own markers, nothing is attempted. */
  lemma InsideSkipped(actions: seq<Action>, outcomes: seq<Outcome>, i: nat, k: nat)
    requires |outcomes| == |actions| && SkippedWhole(actions, outcomes, i) && Encloses(actions, i, k)
    ensures k < |actions| && outcomes[k] == Skipped(SetupAgreed(actions[i].session)) && !Attempted(outcomes[k])
  {
    hide AgreedBefore, AroundEntered;
  }

  /** A block around an attempted action was entered. */
  lemma AroundAttempted(actions: seq<Action>, outcomes: seq<Outcome>, i: nat, k: nat)
    requires |outcomes| == |actions| && Nested(actions) && SkipsTraced(actions, outcomes)
    requires k < |actions| && Attempted(outcomes[k]) && Encloses(actions, i, k)
    ensures Attempted(outcomes[i])
  {
    hide SkippedWhole, AroundEntered;
    if !Attempted(outcomes[i]) {
      assert SkipExplained(actions, outcomes, i);
      var b: nat :| Encloses(actions, b, i) && SkippedWhole(actions, outcomes, b);
      assert Encloses(actions, b, k);
      InsideSkipped(actions, outcomes, b, k);
    }
  }

  /**
   * In every run of a compiled valid program, an action is attempted exactly when every block around it, itself
   * included if it enters or leaves one, was reached with its session's setup agreed to.
   */
  lemma AttemptedIffAgreed(peer: Peer, p: Program, k: nat)
    requires B.StaticallyValid(p) && Compile(p).Success? && k < |Compile(p).value.actions|
    ensures Forward(Compile(p).value.actions)
    ensures var actions, outcomes := Compile(p).value.actions, RunProgram(peer, Compile(p).value).outcomes;
      && |outcomes| == |actions|
      && (Attempted(outcomes[k]) <==>
            forall i: nat | Encloses(actions, i, k) :: AgreedBefore(actions, outcomes, i, actions[i].session))
  {
    hide B.StaticallyValid, Compile, Forward, Nested, RunFrom, LinksTraced, SessionsTraced, AgreedBefore, OpenedBefore,
      SkippedWhole, AroundEntered;
    CompiledTraced(peer, p);
    var actions, outcomes := Compile(p).value.actions, RunProgram(peer, Compile(p).value).outcomes;
    if Attempted(outcomes[k]) {
      forall i: nat | Encloses(actions, i, k) ensures AgreedBefore(actions, outcomes, i, actions[i].session) {
        AroundAttempted(actions, outcomes, i, k);
        assert ActionTraced(actions, outcomes, i);
      }
    } else {
      assert SkipExplained(actions, outcomes, k);
      var i: nat :| Encloses(actions, i, k) && SkippedWhole(actions, outcomes, i);
      WholeNotAgreed(actions, outcomes, i);
    }
  }

  lemma WholeNotAgreed(actions: seq<Action>, outcomes: seq<Outcome>, i: nat)
    requires |outcomes| == |actions| && SkippedWhole(actions, outcomes, i)
    ensures i < |actions| && actions[i].EnterOnSetupSuccess? && !AgreedBefore(actions, outcomes, i, actions[i].session)
    ensures AroundEntered(actions, outcomes, i)
  {
    hide AgreedBefore, AroundEntered;
  }

  /**
   * An action not attempted is in a block skipped whole: that block's enter, its exit and all between record
   * the block's own session, and it is the outermost block around them whose session was not agreed to.
   */
  lemma SkippedForOutermost(peer: Peer, p: Program, k: nat)
    requires B.StaticallyValid(p) && Compile(p).Success? && k < |Compile(p).value.actions|
    ensures Forward(Compile(p).value.actions)
    ensures var actions, outcomes := Compile(p).value.actions, RunProgram(peer, Compile(p).value).outcomes;
      && |outcomes| == |actions|
      && (!Attempted(outcomes[k]) ==>
            exists i: nat :: Encloses(actions, i, k) && SkippedWhole(actions, outcomes, i)
              && forall j: nat | j < i && Encloses(actions, j, i) ::
                    AgreedBefore(actions, outcomes, j, actions[j].session))
  {
    hide B.StaticallyValid, Compile, Forward, Nested, RunFrom, LinksTraced, SessionsTraced, AgreedBefore, OpenedBefore,
      SkippedWhole;
    CompiledTraced(peer, p);
    var actions, outcomes := Compile(p).value.actions, RunProgram(peer, Compile(p).value).outcomes;
    assert SkipExplained(actions, outcomes, k);
    if !Attempted(outcomes[k]) {
      var i: nat :| Encloses(actions, i, k) && SkippedWhole(actions, outcomes, i);
      WholeNotAgreed(actions, outcomes, i);
      forall j: nat | j < i && Encloses(actions, j, i) ensures AgreedBefore(actions, outcomes, j, actions[j].session) {
        assert ActionTraced(actions, outcomes, j);
      }
    }
  }
}
