/** What the oracle makes of each way a generated setup departs from the protocol. */
module Verdicts {
  import opened Ir
  import B = Builder
  import opened Compiler
  import opened Soundness
  import opened Ledger
  import opened Runner
  import opened Runs
  import opened Traces
  import opened Fragments
  import opened Setups
  import opened Oracle

  predicate IsRefused(outcome: Outcome) {
    outcome.Completed? && outcome.response.SetupAnswer? && outcome.response.response.Refused?
  }

  /** The role agreed to one version, which it has, of the protocol it serves. */
  predicate AgreedTo(config: RoleConfig, spec: SetupSpec, version: Word16, outcome: Outcome) {
    && outcome.Completed? && outcome.response.SetupAnswer? && outcome.response.response.Agreed?
    && outcome.response.response.usedVersion == version && config.minVersion <= version <= config.maxVersion
    && spec.protocol == config.protocol
    && !(spec.protocol == Mining && Bit(spec.flags, 2) && Bit(outcome.response.response.flags, 0))
  }

  // ---------------------------------------------------------------------------------------------
  // What conforms
  // ---------------------------------------------------------------------------------------------

  /** Nothing can be agreed to in an empty range. */
  lemma EmptyRangeIsRefused(config: RoleConfig, spec: SetupSpec, outcome: Outcome)
    requires spec.minVersion > spec.maxVersion
    ensures Conforms(config, spec, outcome) <==> IsRefused(outcome)
  {
  }

  /** Where one version is proposed, it is agreed to or the setup refused; a role that lacks it can only refuse. */
  lemma OneVersionIsAgreed(config: RoleConfig, spec: SetupSpec, outcome: Outcome)
    requires spec.minVersion == spec.maxVersion
    ensures Conforms(config, spec, outcome) <==> IsRefused(outcome) || AgreedTo(config, spec, spec.minVersion, outcome)
    ensures !(config.minVersion <= spec.minVersion <= config.maxVersion) ==> (Conforms(config, spec, outcome) <==>
        IsRefused(outcome))
  {
  }

  lemma RollingIsDefined(flags: bv32)
    ensures Bit(OnlyDefined(Mining, flags), 2) <==> Bit(flags, 2)
  {
  }

  /** Flags the subprotocol does not define make no difference to what conforms. */
  lemma UndefinedFlagsDoNotMatter(config: RoleConfig, spec: SetupSpec, outcome: Outcome)
    ensures Conforms(config, spec, outcome) <==>
        Conforms(config, spec.(flags := OnlyDefined(spec.protocol, spec.flags)), outcome)
  {
    hide OnlyDefined;
    RollingIsDefined(spec.flags);
  }

  // ---------------------------------------------------------------------------------------------
  // What is owed in a run
  // ---------------------------------------------------------------------------------------------

  /** The oracle holds something against action `j`. */
  predicate Held(configs: map<nat, RoleConfig>, cp: CompiledProgram, r: Run, j: nat)
    requires j < |cp.actions|
  {
    Conformance(configs, cp, r, j).Failure?
  }

  /** A connection is opened once, so to the role that connect names. */
  lemma OpenedToRole(cp: CompiledProgram, r: Run, at: nat, y: nat, role: nat, i: nat, role': nat)
    requires ConnectsOnce(cp.actions) && at < |cp.actions| && cp.actions[at] == Action.Connect(y, role)
    requires OpenedAs(cp.actions, r.outcomes, i, y, role')
    ensures role' == role
  {
  }

  /** What is owed an answer is on a connection that was opened, to a role there is a configuration for. */
  lemma OwedOpened(peer: Peer, configs: map<nat, RoleConfig>, p: Program, j: nat)
    requires B.StaticallyValid(p) && Compile(p).Success? && Configured(peer, configs)
    ensures Forward(Compile(p).value.actions)
    ensures var cp, r := Compile(p).value, RunProgram(peer, Compile(p).value);
      Owed(cp, r, j) ==>
        exists i: nat, role: nat :: OpenedAs(cp.actions, r.outcomes, i, cp.actions[j].connection, role)
          && role in configs
  {
    hide B.StaticallyValid, Compile, Forward, Nested, RunFrom, RunTraced, RolesTraced, OutcomeFits, OpenedAs;
    var cp := Compile(p).value;
    CompiledTraced(peer, p);
    var r := RunProgram(peer, cp);
    assert RolesTraced(configs, cp.actions, START) by { NoRoles(configs, cp.actions); }
    RunRolesTraced(peer, configs, cp.actions, START);
    if Owed(cp, r, j) {
      AwaitUnopened(cp.actions, r, j);
      RoleOpened(configs, cp.actions, r, cp.actions[j].connection);
    }
  }

  lemma RoleOpened(configs: map<nat, RoleConfig>, actions: seq<Action>, r: Run, c: nat)
    requires RolesTraced(configs, actions, r) && c in r.roles
    ensures exists i: nat, role: nat :: OpenedAs(actions, r.outcomes, i, c, role) && role in configs
  {
    hide OpenedAs;
    var i: nat :| OpenedAs(actions, r.outcomes, i, c, r.roles[c]);
  }

  /** The connect, the setup's frame and its await, as they stand in some actions. */
  predicate SetupAt(actions: seq<Action>, at: nat, j: nat, y: nat, role: nat, spec: SetupSpec, first: bool) {
    && at < j < |actions| && actions[at] == Action.Connect(y, role)
    && actions[j - 1] == SetupFrame(y, spec)
    && actions[j].AwaitSetupResponse? && actions[j].connection == y && actions[j].firstOnConnection == first
  }

  /**
   * In a run of any compiled valid program, a setup marked first is held to answer as its role may exactly when it
   * was sent; one that is not first never is.
   */
  lemma SetupHeld(peer: Peer, configs: map<nat, RoleConfig>, p: Program, at: nat, j: nat, y: nat, role: nat,
    spec: SetupSpec, first: bool)
    requires B.StaticallyValid(p) && Compile(p).Success? && Configured(peer, configs)
    requires SetupAt(Compile(p).value.actions, at, j, y, role, spec, first)
    ensures Forward(Compile(p).value.actions)
    ensures var cp, r := Compile(p).value, RunProgram(peer, Compile(p).value);
      && |r.outcomes| == |cp.actions|
      && (first && !r.outcomes[j].Skipped? ==> role in configs)
      && (Held(configs, cp, r, j) <==>
            first && !r.outcomes[j].Skipped? && !Conforms(configs[role], spec, r.outcomes[j]))
  {
    hide B.StaticallyValid, Compile, Forward, Nested, RunFrom, Conforms, Conformance, OutcomeFits, OpenedAs, RunTraced,
      ConnectsOnce, Recorded,
      SetupFrame;
    var cp := Compile(p).value;
    CompiledTraced(peer, p);
    var r := RunProgram(peer, cp);
    CompiledJudged(peer, configs, p, j);
    FirstIffFirst(p, j);
    OwedOpened(peer, configs, p, j);
    SetupStaged(p, j, y, spec);
    CompiledContext(p);
    if first && !r.outcomes[j].Skipped? {
      assert Owed(cp, r, j);
      var i: nat, role': nat :| OpenedAs(cp.actions, r.outcomes, i, y, role') && role' in configs;
      OpensOnce(p);
      OpenedToRole(cp, r, at, y, role, i, role');
      AnsweredByRole(configs, cp, r, at, j, i, role);
    }
  }

  lemma CompiledContext(p: Program)
    requires Compile(p).Success?
    ensures Compile(p).value.context == p.context
  {
    hide CompileAll;
  }

  lemma OpensOnce(p: Program)
    requires B.StaticallyValid(p) && Compile(p).Success?
    ensures ConnectsOnce(Compile(p).value.actions)
  {
    hide B.StaticallyValid, CompileAll, Recorded, ConnectsOnce, Typed;
    CompiledRecorded(p);
    ConnectsFromOrder(Lowered(p), p.context.numConnections);
  }

  lemma AnsweredByRole(configs: map<nat, RoleConfig>, cp: CompiledProgram, r: Run, at: nat, j: nat, i: nat, role: nat)
    requires ConnectsOnce(cp.actions) && j < |cp.actions| && j < |r.outcomes| && cp.actions[j].AwaitSetupResponse?
    requires at < |cp.actions| && cp.actions[at] == Action.Connect(cp.actions[j].connection, role)
    requires OpenedAs(cp.actions, r.outcomes, i, cp.actions[j].connection, role) && role in configs
    requires cp.actions[j].session in cp.metadata.sessionSetups
    ensures AnsweredWell(configs, cp, r, j) <==>
        Conforms(configs[role], cp.metadata.sessionSetups[cp.actions[j].session], r.outcomes[j])
  {
    hide Conforms, OpenedAs, ConnectsOnce;
    if AnsweredWell(configs, cp, r, j) {
      var i': nat, role': nat :| OpenedAs(cp.actions, r.outcomes, i', cp.actions[j].connection, role')
        && role' in configs
        && Conforms(configs[role'], cp.metadata.sessionSetups[cp.actions[j].session], r.outcomes[j]);
      OpenedToRole(cp, r, at, cp.actions[j].connection, role, i', role');
    }
  }

  lemma SetupStaged(p: Program, j: nat, y: nat, spec: SetupSpec)
    requires B.StaticallyValid(p) && Compile(p).Success?
    requires 0 < j < |Compile(p).value.actions| && Compile(p).value.actions[j - 1] == SetupFrame(y, spec)
    requires Compile(p).value.actions[j].AwaitSetupResponse?
    ensures var cp := Compile(p).value;
      cp.actions[j].session in cp.metadata.sessionSetups && cp.metadata.sessionSetups[cp.actions[j].session] == spec
  {
    hide B.StaticallyValid, CompileAll, SentIsSends, IdsRecorded, TablesRecorded, Typed, SentOn, RawOn;
    CompiledRecorded(p);
    assert AwaitRecorded(Lowered(p), p.context.numConnections, j);
  }

  // ---------------------------------------------------------------------------------------------
  // Each departure
  // ---------------------------------------------------------------------------------------------

  /**
   * An answer a role may not give to a setup that departs so: anything but a refusal where no version is proposed;
   * anything but that or agreeing to the version proposed, if it has it, where there is one; and otherwise what it
   * may not answer to the same setup without its undefined flags.
   */
  predicate BadAnswer(departure: Departure, config: RoleConfig, spec: SetupSpec, outcome: Outcome) {
    match departure
    case EmptyVersionRange => !IsRefused(outcome)
    case UnknownVersion => !IsRefused(outcome) && !AgreedTo(config, spec, spec.minVersion, outcome)
    case _ => !Conforms(config, spec.(flags := OnlyDefined(spec.protocol, spec.flags)), outcome)
  }

  lemma BadIsNotConforming(departure: Departure, protocol: Protocol, d: Draws, config: RoleConfig, outcome: Outcome)
    ensures var spec := SpecOf(DepartingSetup(departure, protocol, d));
      BadAnswer(departure, config, spec, outcome) <==> !Conforms(config, spec, outcome)
  {
    hide Conforms, OnlyDefined, AgreedTo, WithUndefined;
    var spec := SpecOf(DepartingSetup(departure, protocol, d));
    match departure {
      case EmptyVersionRange => EmptyRangeIsRefused(config, spec, outcome);
      case UnknownVersion => OneVersionIsAgreed(config, spec, outcome);
      case _ => UndefinedFlagsDoNotMatter(config, spec, outcome);
    }
  }

  /** The fragment's setup, sent with something on its connection already; and the one that is first there. */
  ghost predicate FragmentHeld(
    configs: map<nat, RoleConfig>, cp: CompiledProgram, r: Run, n: nat, role: nat, departure: Departure,
      spec: SetupSpec)
  {
    && |r.outcomes| == |cp.actions|
    && if departure.AfterRawFrame? then n + 3 < |cp.actions| && !Held(configs, cp, r, n + 3)
       else
         && n + 2 < |cp.actions|
         && (!r.outcomes[n + 2].Skipped? ==> role in configs)
         && (Held(configs, cp, r, n + 2) <==>
               !r.outcomes[n + 2].Skipped? && BadAnswer(departure, configs[role], spec, r.outcomes[n + 2]))
         && (departure.SecondSetup? ==> n + 4 < |cp.actions| && !Held(configs, cp, r, n + 4))
  }

  /** The same of any run of a program that compiles. */
  ghost predicate RunHeld(
    peer: Peer, configs: map<nat, RoleConfig>, q: Program, n: nat, role: nat, departure: Departure, spec: SetupSpec)
  {
    && Compile(q).Success? && Forward(Compile(q).value.actions)
    && FragmentHeld(configs, Compile(q).value, RunProgram(peer, Compile(q).value), n, role, departure, spec)
  }

  /**
   * What the oracle makes of each departure, whatever program it comes after and whatever the peer does. A setup
   * that departs in a field is held against the role exactly when it was sent and badly answered: an empty range of
   * versions must be refused, an unknown version too unless the role has it, and undefined flags change nothing.
   * Nothing is ever held against what answers a setup after a raw frame, or a second setup.
   */
  lemma DeparturesJudged(
    peer: Peer, configs: map<nat, RoleConfig>, p: Program, role: nat, departure: Departure, protocol: Protocol,
      d: Draws)
    requires B.StaticallyValid(p) && Compile(p).Success? && role < p.context.numRoles && Configured(peer, configs)
    ensures var n := VariableCount(p.instructions);
      RunHeld(peer, configs, OpenedThen(p, role, DepartingCode(departure, n + 2, n + 1, protocol, d)),
        |Compile(p).value.actions|,
        role, departure, SpecOf(DepartingSetup(departure, protocol, d)))
  {
    hide B.StaticallyValid, Compile, Forward, RunFrom, Conforms, Conformance, VariableCount, OpenedThen, DepartingCode,
      SpecOf, DepartingSetup,
      SetupFrame, Departs, BadAnswer, Lowered, Held;
    var n, at := VariableCount(p.instructions), |Compile(p).value.actions|;
    var q := OpenedThen(p, role, DepartingCode(departure, n + 2, n + 1, protocol, d));
    var spec, y := SpecOf(DepartingSetup(departure, protocol, d)), Lowered(p).connections;
    AdversarialFragment(p, role, departure, protocol, d);
    if departure.AfterRawFrame? {
      SetupHeld(peer, configs, q, at, at + 3, y, role, spec, false);
    } else {
      SetupHeld(peer, configs, q, at, at + 2, y, role, spec, true);
      var r := RunProgram(peer, Compile(q).value);
      if role in configs {
        BadIsNotConforming(departure, protocol, d, configs[role], r.outcomes[at + 2]);
      }
      if departure.SecondSetup? {
        SetupHeld(peer, configs, q, at, at + 4, y, role, spec, false);
      }
    }
  }

  /** Against a role of version 2 alone, an unknown version too can only be refused. */
  lemma UnknownIsRefused(protocol: Protocol, d: Draws, config: RoleConfig, outcome: Outcome)
    requires config.minVersion == 2 && config.maxVersion == 2
    ensures BadAnswer(UnknownVersion, config, SpecOf(DepartingSetup(UnknownVersion, protocol, d)), outcome) <==>
        !IsRefused(outcome)
  {
    hide Departs, WithUndefined;
    VersionsDepart(protocol, d);
    UnknownIsNotTwo(protocol, d);
  }

  lemma UnknownIsNotTwo(protocol: Protocol, d: Draws)
    ensures SpecOf(DepartingSetup(UnknownVersion, protocol, d)).minVersion != 2
  {
    assert UNKNOWN_VERSIONS[d.version % 4] in UNKNOWN_VERSIONS;
  }
}
