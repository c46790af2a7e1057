/** A verdict told by the frames that decide it: the first message that answered each setup that was owed one. */
module Findings {
  import opened Wrappers
  import opened Ir
  import B = Builder
  import opened Compiler
  import opened Events
  import opened Runner
  import opened Runs
  import opened Traces
  import opened Answers
  import opened Histories
  import opened Oracle

  /**
   * A frame a role so configured may answer a setup with: an error, or a success for the protocol it serves in a
   * version both have, that does not fix the version of a client that rolls it.
   */
  predicate MayAnswer(config: RoleConfig, spec: SetupSpec, f: Frame)
    requires f.body.Decoded?
  {
    match f.body.message
    case SetupConnectionError(_, _) => true
    case SetupConnectionSuccess(v, flags) =>
      && spec.minVersion <= v <= spec.maxVersion
      && config.minVersion <= v <= config.maxVersion
      && spec.protocol == config.protocol
      && !(spec.protocol == Mining && Bit(spec.flags, 2) && Bit(flags, 0))
    case _ => false
  }

  /** An outcome conforms exactly if a frame that may answer is what answered. */
  lemma ShownConforms(config: RoleConfig, spec: SetupSpec, o: Outcome, w: Window)
    requires Shows(o, w)
    ensures Conforms(config, spec, o) <==> Answered(w) && MayAnswer(config, spec, AnsweringFrame(w))
  {
    hide Bit, Answered, AnsweringFrame;
  }

  /** The role the connection of action `j` was opened to may give the answer that came in its window. */
  ghost predicate WellAnswered(peer: Peer, configs: map<nat, RoleConfig>, cp: CompiledProgram, r: Run, j: nat)
    requires j < |cp.actions| && j < |r.outcomes| && cp.actions[j].AwaitSetupResponse?
    requires Asked(cp.actions, r.outcomes, j) <= |r.calls|
  {
    var a, w := cp.actions[j], WindowOf(peer, cp.actions, r.outcomes, r.calls, j);
    && a.session in cp.metadata.sessionSetups
    && exists i: nat, role: nat :: OpenedAs(cp.actions, r.outcomes, i, a.connection, role) && role in configs
         && Answered(w) && MayAnswer(configs[role], cp.metadata.sessionSetups[a.session], AnsweringFrame(w))
  }

  lemma OwedShown(peer: Peer, cp: CompiledProgram, r: Run, j: nat)
    requires Owed(cp, r, j) && ToldAt(peer, cp.actions, r.outcomes, r.calls, j)
    ensures Asked(cp.actions, r.outcomes, j) <= |r.calls|
    ensures Shows(r.outcomes[j], WindowOf(peer, cp.actions, r.outcomes, r.calls, j))
  {
    hide OpenAfter, Asked, Taken, Sees, Shows;
  }

  /** What is owed is answered well exactly if the message that came first in its window says so. */
  lemma WellByFrame(peer: Peer, configs: map<nat, RoleConfig>, cp: CompiledProgram, r: Run, j: nat)
    requires Owed(cp, r, j) && ToldAt(peer, cp.actions, r.outcomes, r.calls, j)
    ensures Asked(cp.actions, r.outcomes, j) <= |r.calls|
    ensures AnsweredWell(configs, cp, r, j) <==> WellAnswered(peer, configs, cp, r, j)
  {
    hide Shows, Conforms, MayAnswer, Answered, AnsweringFrame, WindowOf, OpenedAs, Asked, ToldAt, Owed;
    OwedShown(peer, cp, r, j);
    OwedAwaits(cp, r, j);
    var a, w := cp.actions[j], WindowOf(peer, cp.actions, r.outcomes, r.calls, j);
    if a.session in cp.metadata.sessionSetups {
      var spec := cp.metadata.sessionSetups[a.session];
      forall role: nat | role in configs
        ensures Conforms(configs[role], spec, r.outcomes[j]) <==>
                Answered(w) && MayAnswer(configs[role], spec, AnsweringFrame(w))
      {
        ShownConforms(configs[role], spec, r.outcomes[j], w);
      }
    }
  }

  lemma OwedAwaits(cp: CompiledProgram, r: Run, j: nat)
    requires Owed(cp, r, j)
    ensures j < |cp.actions| && j < |r.outcomes| && cp.actions[j].AwaitSetupResponse?
  {
  }

  /** Every setup owed among the first `n` actions was answered well. */
  ghost predicate AllWell(peer: Peer, configs: map<nat, RoleConfig>, cp: CompiledProgram, r: Run, n: nat)
    requires n <= |cp.actions| == |r.outcomes|
  {
    forall j: nat | j < n && Owed(cp, r, j) ::
      Asked(cp.actions, r.outcomes, j) <= |r.calls| && WellAnswered(peer, configs, cp, r, j)
  }

  /** The verdict, told by the frames. */
  ghost predicate VerdictTold(
    peer: Peer, configs: map<nat, RoleConfig>, alive: bool, cp: CompiledProgram, r: Run, verdict: Verdict)
    requires |cp.actions| == |r.outcomes|
  {
    match verdict
    case Infrastructure(_, _) => false
    case Finding(at, complaint) =>
      && at < |cp.actions| && AllWell(peer, configs, cp, r, at) && Owed(cp, r, at)
      && Asked(cp.actions, r.outcomes, at) <= |r.calls| && !WellAnswered(peer, configs, cp, r, at)
      && ToldWhy(configs, cp, r, at, complaint)
    case NotServing => !alive && AllWell(peer, configs, cp, r, |cp.actions|)
    case Ok => alive && AllWell(peer, configs, cp, r, |cp.actions|)
  }

  /**
   * On every run of a compiled valid program, against a deployment that reaches only roles it has a configuration for,
   * the finding is the first setup that was owed an answer and whose first decoded message of extension zero is none
   * the role may give, or does not come; and all is well exactly if there is none and the deployment still serves.
   */
  lemma VerdictByFrames(peer: Peer, configs: map<nat, RoleConfig>, alive: bool, p: Program)
    requires B.StaticallyValid(p) && Compile(p).Success? && Configured(peer, configs)
    ensures Forward(Compile(p).value.actions)
    ensures var cp := Compile(p).value;
      var r := RunProgram(peer, cp);
      |r.outcomes| == |cp.actions| && VerdictTold(peer, configs, alive, cp, r, Judge(configs, alive, cp, r))
  {
    hide B.StaticallyValid, Compile, Forward, RunFrom, AnsweredWell, WellAnswered, Owed, ToldAt, Judge, ToldWhy, Asked;
    JudgementIsExact(peer, configs, alive, p);
    var cp := Compile(p).value;
    var r := RunProgram(peer, cp);
    forall j: nat | Owed(cp, r, j)
      ensures j < |cp.actions| && cp.actions[j].AwaitSetupResponse?
      ensures Asked(cp.actions, r.outcomes, j) <= |r.calls|
      ensures AnsweredWell(configs, cp, r, j) <==> WellAnswered(peer, configs, cp, r, j)
    {
      OwedAwaits(cp, r, j);
      EachTold(peer, p, j);
      WellByFrame(peer, configs, cp, r, j);
    }
  }
}
