/** Judging a run: what the harness must have recorded, and what a role owes a setup sent as the protocol requires. */
module Oracle {
  import opened Wrappers
  import opened Ir
  import B = Builder
  import opened Compiler
  import opened Soundness
  import opened Ledger
  import Events
  import opened Runner
  import opened Runs
  import opened Traces

  /** What a role of the deployment serves. */
  datatype RoleConfig = RoleConfig(protocol: Protocol, minVersion: Word16, maxVersion: Word16)

  // Bit 2 of a mining setup's flags, and bit 0 of the flags of its success (Stratum V2 specification, section 5.3.1).
  const REQUIRES_VERSION_ROLLING: bv32 := 4
  const SUCCESS_REQUIRES_FIXED_VERSION: bv32 := 1

  /** What an oracle holds against a run. */
  datatype Complaint =
    | NotTotal(actions: nat, outcomes: nat)
    | HarnessFailed(detail: Text)
    | NoOutcome
    | NoSetup(session: nat)
    | UnknownRole(role: nat)
    | WrongKind(response: Response)
    | Silent
    | NotAnswered
    | ClosedInstead
    | TransportFailed(detail: Text)
    | NeitherAnswer(messageType: Byte)
    | VersionNotProposed(version: Word16)
    | FixedVersionForRolling
    | ProtocolNotServed(protocol: Protocol)
    | VersionNotSupported(version: Word16)
  {
    /** Whether it is the harness it is held against, and not the deployment. */
    predicate IsInternal() {
      NotTotal? || HarnessFailed? || NoOutcome? || NoSetup? || UnknownRole? || WrongKind? || Silent?
    }
  }

  datatype OracleResult = Pass | Fail(action: nat, complaint: Complaint)

  function Unless(held: bool, complaint: Complaint): Result<(), Complaint> {
    if held then Success(()) else Failure(complaint)
  }

  function CheckAgreed(config: RoleConfig, spec: SetupSpec, version: Word16, flags: bv32): Result<(), Complaint> {
    var _ :- Unless(spec.minVersion <= version <= spec.maxVersion, VersionNotProposed(version));
    var _ :- Unless(!(&& spec.protocol == Mining
                      && flags & SUCCESS_REQUIRES_FIXED_VERSION != 0
                      && spec.flags & REQUIRES_VERSION_ROLLING != 0), FixedVersionForRolling);
    var _ :- Unless(spec.protocol == config.protocol, ProtocolNotServed(spec.protocol));
    Unless(config.minVersion <= version <= config.maxVersion, VersionNotSupported(version))
  }

  /** Why an outcome is not one a role so configured may give to a setup, if it owed it anything. */
  function Check(config: RoleConfig, spec: SetupSpec, owed: bool, outcome: Outcome): Result<(), Complaint> {
    if !owed then Success(())
    else
      match outcome
      case TimedOut => Failure(NotAnswered)
      case TransportClosed => Failure(ClosedInstead)
      case TransportError(e) => Failure(TransportFailed(e))
      case Skipped(_) => Success(())
      case HarnessError(_) => Success(())
      case Completed(response) =>
        if !response.SetupAnswer? then Failure(WrongKind(response))
        else
          match response.response
          case Silence => Failure(Silent)
          case UnexpectedAnswer(messageType) => Failure(NeitherAnswer(messageType))
          case Refused(_, _) => Success(())
          case Agreed(version, flags) => CheckAgreed(config, spec, version, flags)
  }

  /** As many outcomes as actions, and the harness to blame for none. */
  function IntegrityFrom(cp: CompiledProgram, r: Run, id: nat): OracleResult
    decreases |r.outcomes| - id
  {
    if id >= |r.outcomes| then Pass
    else if r.outcomes[id].HarnessError? then Fail(id, HarnessFailed(r.outcomes[id].detail))
    else IntegrityFrom(cp, r, id + 1)
  }

  function Integrity(cp: CompiledProgram, r: Run): OracleResult {
    if |r.outcomes| != |cp.actions| then Fail(|cp.actions|, NotTotal(|cp.actions|, |r.outcomes|))
    else IntegrityFrom(cp, r, 0)
  }

  /** What is wrong with one awaited setup. */
  function Conformance(configs: map<nat, RoleConfig>, cp: CompiledProgram, r: Run, id: nat): Result<(), Complaint>
    requires id < |cp.actions|
  {
    var a := cp.actions[id];
    if !a.AwaitSetupResponse? then Success(())
    else if id >= |r.outcomes| then Failure(NoOutcome)
    else if a.session !in cp.metadata.sessionSetups then Failure(NoSetup(a.session))
    else if a.connection !in r.roles then Success(())
    else if r.roles[a.connection] !in configs then Failure(UnknownRole(r.roles[a.connection]))
    else
      Check(configs[r.roles[a.connection]], cp.metadata.sessionSetups[a.session],
        a.firstOnConnection && id !in cp.metadata.violations, r.outcomes[id])
  }

  /** Every awaited setup from action `id` on is answered as it may be. */
  function ConformanceFrom(configs: map<nat, RoleConfig>, cp: CompiledProgram, r: Run, id: nat): OracleResult
    decreases |cp.actions| - id
  {
    if id >= |cp.actions| then Pass
    else
      match Conformance(configs, cp, r, id)
      case Success(_) => ConformanceFrom(configs, cp, r, id + 1)
      case Failure(complaint) => Fail(id, complaint)
  }

  datatype Verdict =
    | Ok
    | Finding(action: nat, complaint: Complaint)
    | NotServing
    | Infrastructure(action: nat, complaint: Complaint)

  /** The oracles in order: the harness's own integrity, then conformance, then whether the deployment still serves. */
  function Judge(configs: map<nat, RoleConfig>, alive: bool, cp: CompiledProgram, r: Run): Verdict {
    match Integrity(cp, r)
    case Fail(id, complaint) => Infrastructure(id, complaint)
    case Pass =>
      match ConformanceFrom(configs, cp, r, 0)
      case Fail(id, complaint) => Finding(id, complaint)
      case Pass => if alive then Ok else NotServing
  }

  // ---------------------------------------------------------------------------------------------
  // What the oracle is for
  // ---------------------------------------------------------------------------------------------

  /**
   * An answer the protocol and the role's configuration allow: any refusal, or an agreement on a version both
   * sides have, for the protocol the role serves, that does not fix the version of a client that rolls it.
   */
  predicate Conforms(config: RoleConfig, spec: SetupSpec, outcome: Outcome) {
    && outcome.Completed? && outcome.response.SetupAnswer?
    && match outcome.response.response
       case Refused(_, _) => true
       case Agreed(version, flags) =>
         && spec.protocol == config.protocol
         && spec.minVersion <= version && config.minVersion <= version
         && version <= spec.maxVersion && version <= config.maxVersion
         && !(spec.protocol == Mining && Bit(spec.flags, 2) && Bit(flags, 0))
       case _ => false
  }

  /** Whether a flag is set, bits counted from the least. */
  predicate Bit(flags: bv32, n: nat)
    requires n < 32
  {
    flags / (1 << n) % 2 == 1
  }

  /** A client that rolls versions says so in bit 2, and a server that fixes them in bit 0. */
  lemma RollingBits(flags: bv32)
    ensures Bit(flags, 2) <==> flags & REQUIRES_VERSION_ROLLING != 0
    ensures Bit(flags, 0) <==> flags & SUCCESS_REQUIRES_FIXED_VERSION != 0
  {
  }

  /** The check passes exactly what is not owed, what was not sent, and what conforms. */
  lemma CheckIsExact(config: RoleConfig, spec: SetupSpec, owed: bool, outcome: Outcome)
    ensures Check(config, spec, owed, outcome).Success? <==>
      !owed || outcome.Skipped? || outcome.HarnessError? || Conforms(config, spec, outcome)
  {
    hide Bit;
    RollingBits(spec.flags);
    if outcome.Completed? && outcome.response.SetupAnswer? && outcome.response.response.Agreed? {
      RollingBits(outcome.response.response.flags);
    }
  }

  /** Action `i` opened the connection, to the role it names. */
  predicate OpenedAs(actions: seq<Action>, outcomes: seq<Outcome>, i: nat, connection: nat, role: nat) {
    i < |actions| && i < |outcomes| && actions[i] == Action.Connect(connection, role)
      && outcomes[i] == Completed(NoResponse)
  }

  /** Every connection a run holds a role for was opened to that role, which has a configuration. */
  ghost predicate RolesTraced(configs: map<nat, RoleConfig>, actions: seq<Action>, r: Run) {
    && |r.outcomes| <= |actions|
    && forall c | c in r.roles :: r.roles[c] in configs && exists i: nat ::
          OpenedAs(actions, r.outcomes, i, c, r.roles[c])
  }

  /** The deployment reaches no role it has no configuration for. */
  ghost predicate Configured(peer: Peer, configs: map<nat, RoleConfig>) {
    forall history: seq<Call>, c: nat, role: nat :: peer.connects(history, c, role) ==> role in configs
  }

  lemma RolesStay(configs: map<nat, RoleConfig>, actions: seq<Action>, r: Run, r': Run)
    requires RolesTraced(configs, actions, r) && r.outcomes <= r'.outcomes && |r'.outcomes| <= |actions|
      && r'.roles == r.roles
    ensures RolesTraced(configs, actions, r')
  {
    forall c | c in r.roles ensures exists i: nat :: OpenedAs(actions, r'.outcomes, i, c, r.roles[c]) {
      var i: nat :| OpenedAs(actions, r.outcomes, i, c, r.roles[c]);
      assert OpenedAs(actions, r'.outcomes, i, c, r.roles[c]);
    }
  }

  lemma PerformRoles(peer: Peer, r: Run, a: Action)
    ensures var r', o := Perform(peer, r, a), Perform(peer, r, a).outcomes[|r.outcomes|];
      || r'.roles == r.roles
      || (a.Connect? && r'.roles == r.roles[a.connection := a.role] && peer.connects(r.calls, a.connection, a.role)
          && o == Completed(NoResponse))
  {
    hide Pump, Events.DispatchAll;
  }

  lemma RolesStep(peer: Peer, configs: map<nat, RoleConfig>, actions: seq<Action>, r: Run)
    requires Configured(peer, configs) && RolesTraced(configs, actions, r) && |r.outcomes| < |actions|
    ensures RolesTraced(configs, actions, Perform(peer, r, actions[|r.outcomes|]))
  {
    hide Perform;
    var n := |r.outcomes|;
    var a, r' := actions[n], Perform(peer, r, actions[n]);
    PerformRecordsOne(peer, r, a);
    PerformRoles(peer, r, a);
    RolesStay(configs, actions, r, r'.(roles := r.roles));
    if r'.roles != r.roles {
      assert OpenedAs(actions, r'.outcomes, n, a.connection, a.role);
    }
  }

  lemma {:induction false} RunRolesTraced(peer: Peer, configs: map<nat, RoleConfig>, actions: seq<Action>, r: Run)
    requires Configured(peer, configs) && Nested(actions) && Forward(actions)
    requires |r.outcomes| <= |actions| && RolesTraced(configs, actions, r)
    ensures RolesTraced(configs, actions, RunFrom(peer, actions, |r.outcomes|, r))
    decreases |actions| - |r.outcomes|
  {
    hide Perform, RolesTraced, Forward, RunFrom, IsEstablished, Configured;
    var n := |r.outcomes|;
    if n < |actions| {
      RunStep(peer, actions, n, r);
      if Unmet(r, actions[n]) {
        var skipped := Skip(r, actions[n].session, actions[n].end + 1 - n);
        RolesStay(configs, actions, r, skipped);
        RunRolesTraced(peer, configs, actions, skipped);
      } else {
        RolesStep(peer, configs, actions, r);
        PerformRecordsOne(peer, r, actions[n]);
        RunRolesTraced(peer, configs, actions, Perform(peer, r, actions[n]));
      }
    } else {
      RunEnd(peer, actions, r);
    }
  }

  /** The complaint is what is wrong with an outcome, the first thing wrong of an agreement. */
  predicate Tells(complaint: Complaint, config: RoleConfig, spec: SetupSpec, outcome: Outcome) {
    match outcome
    case TimedOut => complaint == NotAnswered
    case TransportClosed => complaint == ClosedInstead
    case TransportError(detail) => complaint == TransportFailed(detail)
    case Completed(SetupAnswer(UnexpectedAnswer(messageType))) => complaint == NeitherAnswer(messageType)
    case Completed(SetupAnswer(Agreed(version, flags))) =>
      var proposed := spec.minVersion <= version && version <= spec.maxVersion;
      var fixed := spec.protocol == Mining && Bit(spec.flags, 2) && Bit(flags, 0);
      var served := spec.protocol == config.protocol;
      var supported := config.minVersion <= version && version <= config.maxVersion;
      if !proposed then complaint == VersionNotProposed(version)
      else if fixed then complaint == FixedVersionForRolling
      else if !served then complaint == ProtocolNotServed(spec.protocol)
      else !supported && complaint == VersionNotSupported(version)
    case _ => false
  }

  /** The complaint about action `j` is what is wrong with its answer, from the role its connection was opened to. */
  ghost predicate ToldWhy(
    configs: map<nat, RoleConfig>, cp: CompiledProgram, r: Run, j: nat, complaint: Complaint)
    requires j < |cp.actions| && j < |r.outcomes| && cp.actions[j].AwaitSetupResponse?
  {
    var a := cp.actions[j];
    && a.session in cp.metadata.sessionSetups
    && exists i: nat, role: nat :: OpenedAs(cp.actions, r.outcomes, i, a.connection, role) && role in configs
         && Tells(complaint, configs[role], cp.metadata.sessionSetups[a.session], r.outcomes[j])
  }

  /** Action `j` awaits a setup that was sent, on a connection the program opened, with nothing sent there before. */
  ghost predicate Owed(cp: CompiledProgram, r: Run, j: nat) {
    && j < |cp.actions| && j < |r.outcomes| && cp.actions[j].AwaitSetupResponse? && !r.outcomes[j].Skipped?
    && cp.actions[j].connection >= cp.context.numConnections
    && forall k | 0 <= k < j - 1 :: !IsSendOn(cp.actions[k], cp.actions[j].connection)
  }

  /** The answer to action `j` is one that the role its connection was opened to may give. */
  ghost predicate AnsweredWell(configs: map<nat, RoleConfig>, cp: CompiledProgram, r: Run, j: nat)
    requires j < |cp.actions| && j < |r.outcomes| && cp.actions[j].AwaitSetupResponse?
  {
    var a := cp.actions[j];
    && a.session in cp.metadata.sessionSetups
    && exists i: nat, role: nat :: OpenedAs(cp.actions, r.outcomes, i, a.connection, role)
         && role in configs && Conforms(configs[role], cp.metadata.sessionSetups[a.session], r.outcomes[j])
  }

  /** Everything owed among the first `n` actions got an answer that conforms. */
  ghost predicate Clean(configs: map<nat, RoleConfig>, cp: CompiledProgram, r: Run, n: nat) {
    forall j: nat | j < n && Owed(cp, r, j) :: AnsweredWell(configs, cp, r, j)
  }

  /**
   * Action `at` is the first that was owed an answer and did not get one that conforms; the complaint is what is wrong
   * with it.
   */
  ghost predicate Wanting(configs: map<nat, RoleConfig>, cp: CompiledProgram, r: Run, at: nat, complaint: Complaint) {
    && Clean(configs, cp, r, at) && Owed(cp, r, at) && !AnsweredWell(configs, cp, r, at)
    && ToldWhy(configs, cp, r, at, complaint) && !complaint.IsInternal()
  }

  /** No connection is opened twice. */
  ghost predicate ConnectsOnce(actions: seq<Action>) {
    forall i, j | 0 <= i < j < |actions| && actions[i].Connect? && actions[j].Connect? ::
          actions[i].connection != actions[j].connection
  }

  /** What the books and the run say of action `j`. */
  ghost predicate Judged(configs: map<nat, RoleConfig>, cp: CompiledProgram, r: Run, j: nat)
    requires j < |cp.actions|
  {
    match Conformance(configs, cp, r, j)
    case Success(_) => Owed(cp, r, j) ==> AnsweredWell(configs, cp, r, j)
    case Failure(complaint) =>
      && Owed(cp, r, j) && !AnsweredWell(configs, cp, r, j)
      && ToldWhy(configs, cp, r, j, complaint) && !complaint.IsInternal()
  }

  lemma CheckIsExternal(config: RoleConfig, spec: SetupSpec, owed: bool, a: Action, outcome: Outcome)
    requires a.AwaitSetupResponse? && OutcomeFits(a, outcome)
    ensures var checked := Check(config, spec, owed, outcome);
      checked.Failure? ==>
        owed && !outcome.Skipped? && Tells(checked.error, config, spec, outcome) && !checked.error.IsInternal()
  {
    hide Bit;
    RollingBits(spec.flags);
    if outcome.Completed? && outcome.response.SetupAnswer? && outcome.response.response.Agreed? {
      RollingBits(outcome.response.response.flags);
    }
  }

  lemma OneRole(actions: seq<Action>, outcomes: seq<Outcome>, i: nat, i': nat, c: nat, role: nat, role': nat)
    requires ConnectsOnce(actions) && OpenedAs(actions, outcomes, i, c, role)
      && OpenedAs(actions, outcomes, i', c, role')
    ensures role == role'
  {
  }

  lemma JudgedOpen(configs: map<nat, RoleConfig>, cp: CompiledProgram, r: Run, j: nat)
    requires j < |cp.actions| && |r.outcomes| == |cp.actions| && cp.actions[j].AwaitSetupResponse?
    requires RolesTraced(configs, cp.actions, r) && ConnectsOnce(cp.actions)
      && OutcomeFits(cp.actions[j], r.outcomes[j])
    requires var a := cp.actions[j];
      && a.session in cp.metadata.sessionSetups && a.connection in r.roles
      && (a.firstOnConnection && j !in cp.metadata.violations && !r.outcomes[j].Skipped? <==> Owed(cp, r, j))
    ensures Judged(configs, cp, r, j)
  {
    hide Owed, ConnectsOnce, Check, Conforms, OutcomeFits;
    var a := cp.actions[j];
    var role, spec := r.roles[a.connection], cp.metadata.sessionSetups[a.session];
    var owed := a.firstOnConnection && j !in cp.metadata.violations;
    var i: nat :| OpenedAs(cp.actions, r.outcomes, i, a.connection, role);
    NoHarnessError(a, r.outcomes[j]);
    CheckIsExternal(configs[role], spec, owed, a, r.outcomes[j]);
    CheckIsExact(configs[role], spec, owed, r.outcomes[j]);
    if AnsweredWell(configs, cp, r, j) {
      var i': nat, role': nat :| OpenedAs(cp.actions, r.outcomes, i', a.connection, role')
        && role' in configs && Conforms(configs[role'], spec, r.outcomes[j]);
      OneRole(cp.actions, r.outcomes, i, i', a.connection, role, role');
    }
  }

  lemma NoHarnessError(a: Action, outcome: Outcome)
    requires OutcomeFits(a, outcome)
    ensures !outcome.HarnessError?
  {
  }

  lemma JudgedElse(configs: map<nat, RoleConfig>, cp: CompiledProgram, r: Run, j: nat)
    requires j < |cp.actions| && |r.outcomes| == |cp.actions|
    requires cp.actions[j].AwaitSetupResponse? ==>
      cp.actions[j].session in cp.metadata.sessionSetups && cp.actions[j].connection !in r.roles
        && r.outcomes[j].Skipped?
    ensures Judged(configs, cp, r, j)
  {
  }

  /** An await attempted on a connection that never opened was skipped for it. */
  lemma AwaitUnopened(actions: seq<Action>, r: Run, j: nat)
    requires |r.outcomes| == |actions| && RunTraced(actions, r) && j < |actions| && actions[j].AwaitSetupResponse?
    ensures OutcomeFits(actions[j], r.outcomes[j])
    ensures actions[j].connection !in r.roles ==> r.outcomes[j].Skipped?
  {
    hide SessionsTraced, SkipsTraced, OutcomeFits;
    assert ActionTraced(actions, r.outcomes, j);
    if actions[j].connection !in r.roles {
      assert !OpenedBefore(actions, r.outcomes, |actions|, actions[j].connection);
      assert !OpenedBefore(actions, r.outcomes, j, actions[j].connection);
    }
  }

  lemma CompiledJudged(peer: Peer, configs: map<nat, RoleConfig>, p: Program, j: nat)
    requires B.StaticallyValid(p) && Compile(p).Success? && Configured(peer, configs)
    requires j < |Compile(p).value.actions|
    ensures Forward(Compile(p).value.actions)
    ensures Judged(configs, Compile(p).value, RunProgram(peer, Compile(p).value), j)
  {
    hide B.StaticallyValid, CompileAll, Forward, Nested, RunFrom, RunTraced, RolesTraced, OutcomeFits, Judged,
      SentIsSends, Recorded, Typed;
    var cp := Compile(p).value;
    CompiledTraced(peer, p);
    var r := RunProgram(peer, cp);
    CompiledRecorded(p);
    assert ConnectsOnce(cp.actions) by { ConnectsFromOrder(Lowered(p), p.context.numConnections); }
    assert RolesTraced(configs, cp.actions, START) by { NoRoles(configs, cp.actions); }
    RunRolesTraced(peer, configs, cp.actions, START);
    if cp.actions[j].AwaitSetupResponse? {
      FirstIffFirst(p, j);
      AwaitUnopened(cp.actions, r, j);
      SetupRecorded(Lowered(p), p.context.numConnections, j);
      if cp.actions[j].connection in r.roles {
        JudgedOpen(configs, cp, r, j);
      } else {
        JudgedElse(configs, cp, r, j);
      }
    } else {
      JudgedElse(configs, cp, r, j);
    }
  }

  lemma ConnectsFromOrder(c: State, base: nat)
    requires Recorded(c, base)
    ensures ConnectsOnce(c.actions)
  {
    hide SentIsSends, AwaitsRecorded, TablesRecorded;
  }

  lemma SetupRecorded(c: State, base: nat, j: nat)
    requires Recorded(c, base) && j < |c.actions| && c.actions[j].AwaitSetupResponse?
    ensures c.actions[j].session in c.metadata.sessionSetups
  {
    hide SentIsSends, IdsRecorded, SentOn, RawOn;
    assert AwaitRecorded(c, base, j);
  }

  lemma NoRoles(configs: map<nat, RoleConfig>, actions: seq<Action>)
    ensures RolesTraced(configs, actions, START)
  {
  }

  lemma {:induction false} IntegrityHolds(cp: CompiledProgram, r: Run, id: nat)
    requires forall j | id <= j < |r.outcomes| :: !r.outcomes[j].HarnessError?
    ensures IntegrityFrom(cp, r, id) == Pass
    decreases |r.outcomes| - id
  {
    if id < |r.outcomes| {
      IntegrityHolds(cp, r, id + 1);
    }
  }

  /** The scan stops at the first action with something against it. */
  lemma {:induction false} ScanIsFirst(configs: map<nat, RoleConfig>, cp: CompiledProgram, r: Run, id: nat)
    ensures match ConformanceFrom(configs, cp, r, id)
            case Pass => forall j | id <= j < |cp.actions| :: Conformance(configs, cp, r, j).Success?
            case Fail(at, complaint) =>
              && id <= at < |cp.actions| && Conformance(configs, cp, r, at) == Failure(complaint)
              && forall j | id <= j < at :: Conformance(configs, cp, r, j).Success?
    decreases |cp.actions| - id
  {
    if id < |cp.actions| {
      ScanIsFirst(configs, cp, r, id + 1);
    }
  }

  // ---------------------------------------------------------------------------------------------
  // Any run, whether or not it is a runner's
  // ---------------------------------------------------------------------------------------------

  /** The books of a run do not balance: an outcome too many or too few, or else the first the harness failed at. */
  predicate Unsound(cp: CompiledProgram, r: Run, at: nat, complaint: Complaint) {
    if |r.outcomes| != |cp.actions| then
      at == |cp.actions| && complaint == NotTotal(|cp.actions|, |r.outcomes|)
    else
      && at < |r.outcomes| && r.outcomes[at].HarnessError? && complaint == HarnessFailed(r.outcomes[at].detail)
      && forall k | 0 <= k < at :: !r.outcomes[k].HarnessError?
  }

  /** What is held against one awaited setup, of which the harness may have kept too little, or nonsense. */
  predicate HeldAgainst(configs: map<nat, RoleConfig>, cp: CompiledProgram, r: Run, j: nat, complaint: Complaint) {
    && j < |cp.actions| && cp.actions[j].AwaitSetupResponse?
    && var a := cp.actions[j];
    if |r.outcomes| <= j then complaint == NoOutcome
    else if a.session !in cp.metadata.sessionSetups then complaint == NoSetup(a.session)
    else
      && a.connection in r.roles
      && var role, o := r.roles[a.connection], r.outcomes[j];
      if role !in configs then complaint == UnknownRole(role)
      else
        && a.firstOnConnection && j !in cp.metadata.violations
        && if o == Completed(SetupAnswer(Silence)) then complaint == Silent
           else if o.Completed? && !o.response.SetupAnswer? then complaint == WrongKind(o.response)
           else Tells(complaint, configs[role], cp.metadata.sessionSetups[a.session], o)
  }

  lemma CheckTells(config: RoleConfig, spec: SetupSpec, o: Outcome, complaint: Complaint)
    ensures Check(config, spec, true, o) == Failure(complaint) <==>
      if o == Completed(SetupAnswer(Silence)) then complaint == Silent
      else if o.Completed? && !o.response.SetupAnswer? then complaint == WrongKind(o.response)
      else Tells(complaint, config, spec, o)
  {
    hide Bit;
    RollingBits(spec.flags);
    if o.Completed? && o.response.SetupAnswer? && o.response.response.Agreed? {
      RollingBits(o.response.response.flags);
    }
  }

  lemma ConformanceTells(configs: map<nat, RoleConfig>, cp: CompiledProgram, r: Run, j: nat, complaint: Complaint)
    requires j < |cp.actions|
    ensures Conformance(configs, cp, r, j) == Failure(complaint) <==> HeldAgainst(configs, cp, r, j, complaint)
  {
    hide Tells;
    var a := cp.actions[j];
    if a.AwaitSetupResponse? && j < |r.outcomes| && a.session in cp.metadata.sessionSetups
      && a.connection in r.roles && r.roles[a.connection] in configs
    {
      CheckTells(configs[r.roles[a.connection]], cp.metadata.sessionSetups[a.session], r.outcomes[j], complaint);
    }
  }

  lemma {:induction false} IntegrityTold(cp: CompiledProgram, r: Run, id: nat)
    ensures match IntegrityFrom(cp, r, id)
            case Pass => forall k | id <= k < |r.outcomes| :: !r.outcomes[k].HarnessError?
            case Fail(at, complaint) =>
              && id <= at < |r.outcomes| && r.outcomes[at].HarnessError?
              && complaint == HarnessFailed(r.outcomes[at].detail)
              && forall k | id <= k < at :: !r.outcomes[k].HarnessError?
    decreases |r.outcomes| - id
  {
    if id < |r.outcomes| {
      IntegrityTold(cp, r, id + 1);
    }
  }

  /**
   * Of any run at all: it is the infrastructure's fault exactly if its books do not balance, and says where; otherwise
   * a finding exactly if something is held against a setup, the first there is; and otherwise good or bad by whether
   * the deployment still serves.
   */
  lemma VerdictTold(configs: map<nat, RoleConfig>, alive: bool, cp: CompiledProgram, r: Run)
    ensures match Judge(configs, alive, cp, r)
            case Infrastructure(at, complaint) => Unsound(cp, r, at, complaint)
            case Finding(at, complaint) =>
              && HeldAgainst(configs, cp, r, at, complaint)
              && (forall k, c | 0 <= k < at :: !HeldAgainst(configs, cp, r, k, c))
              && forall k: nat, c :: !Unsound(cp, r, k, c)
            case Ok => alive && forall k: nat, c :: !HeldAgainst(configs, cp, r, k, c) && !Unsound(cp, r, k, c)
            case NotServing => !alive && forall k: nat, c :: !HeldAgainst(configs, cp, r, k, c) && !Unsound(cp, r, k, c)
  {
    hide HeldAgainst, Conformance;
    IntegrityTold(cp, r, 0);
    ScanIsFirst(configs, cp, r, 0);
    forall j: nat, c ensures HeldAgainst(configs, cp, r, j, c) <==>
                             j < |cp.actions| && Conformance(configs, cp, r, j) == Failure(c)
    {
      if j < |cp.actions| {
        ConformanceTells(configs, cp, r, j, c);
      } else {
        HeldInside(configs, cp, r, j, c);
      }
    }
  }

  lemma HeldInside(configs: map<nat, RoleConfig>, cp: CompiledProgram, r: Run, j: nat, c: Complaint)
    requires j >= |cp.actions|
    ensures !HeldAgainst(configs, cp, r, j, c)
  {
  }

  lemma JudgedScan(configs: map<nat, RoleConfig>, cp: CompiledProgram, r: Run)
    requires forall j: nat | j < |cp.actions| :: Judged(configs, cp, r, j)
    ensures match ConformanceFrom(configs, cp, r, 0)
            case Pass => Clean(configs, cp, r, |cp.actions|)
            case Fail(at, complaint) => Wanting(configs, cp, r, at, complaint)
  {
    hide Conformance, ConformanceFrom, AnsweredWell;
    ScanIsFirst(configs, cp, r, 0);
    forall j: nat | Owed(cp, r, j) && Conformance(configs, cp, r, j).Success? ensures AnsweredWell(configs, cp, r, j) {
      assert Judged(configs, cp, r, j);
    }
    var scan := ConformanceFrom(configs, cp, r, 0);
    if scan.Fail? {
      assert Judged(configs, cp, r, scan.action);
    }
  }

  /**
   * On every run of a compiled valid program, against a deployment that reaches only roles it has a
   * configuration for, the harness's integrity holds and nothing is ever held against the harness; the run is
   * found wanting exactly at the first setup that was owed an answer and did not get one that conforms; and
   * all is well exactly when there is none and the deployment still serves.
   */
  lemma JudgementIsExact(peer: Peer, configs: map<nat, RoleConfig>, alive: bool, p: Program)
    requires B.StaticallyValid(p) && Compile(p).Success? && Configured(peer, configs)
    ensures Forward(Compile(p).value.actions)
    ensures var cp := Compile(p).value;
      var r := RunProgram(peer, cp);
      && |r.outcomes| == |cp.actions| && Integrity(cp, r) == Pass
      && match Judge(configs, alive, cp, r)
         case Infrastructure(_, _) => false
         case Finding(at, complaint) => Wanting(configs, cp, r, at, complaint)
         case NotServing => !alive && Clean(configs, cp, r, |cp.actions|)
         case Ok => alive && Clean(configs, cp, r, |cp.actions|)
  {
    hide B.StaticallyValid, Compile, Forward, Nested, RunFrom, AnsweredWell, Conformance, IntegrityFrom,
      ConformanceFrom, Owed, Judged;
    var cp := Compile(p).value;
    CompiledTraced(peer, p);
    var r := RunProgram(peer, cp);
    assert forall j | 0 <= j < |r.outcomes| :: !r.outcomes[j].HarnessError? by { NoneFailed(cp.actions, r); }
    IntegrityHolds(cp, r, 0);
    forall j: nat | j < |cp.actions| ensures Judged(configs, cp, r, j) {
      CompiledJudged(peer, configs, p, j);
    }
    JudgedScan(configs, cp, r);
  }

  lemma NoneFailed(actions: seq<Action>, r: Run)
    requires RunTraced(actions, r) && |r.outcomes| <= |actions|
    ensures forall j | 0 <= j < |r.outcomes| :: !r.outcomes[j].HarnessError?
  {
    hide LinksTraced, SessionsTraced, SkipsTraced, OutcomeFits;
    forall j | 0 <= j < |r.outcomes| ensures !r.outcomes[j].HarnessError? {
      assert ActionTraced(actions, r.outcomes, j);
      NoHarnessError(actions[j], r.outcomes[j]);
    }
  }
}
