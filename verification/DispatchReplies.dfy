/** What leaves the Broker: proofs that are true, refusals with the right code, and which
    engine calls a request makes whatever the probe says. */
module DispatchReplies {
  import opened Wrappers
  import opened StrictContract
  import opened BrokerWorld
  import Spec = BrokerSpec
  import BrokerRuns
  import opened BrokerReplies
  import opened CoreIngress
  import CoreSide
  import opened TargetGroups
  import opened BrokerDispatch
  import opened StrictProtocol

  /** The engine command behind a request, once the dispatcher passes it on. */
  function Behind(command: Command, health: Spec.ForwardingHealth): BrokerRuns.Command {
    match command
    case Status => BrokerRuns.Status
    case PreparePolicy(policy) => BrokerRuns.Prepare(policy)
    case CommitPolicy(revision, digest, _) => BrokerRuns.Commit(revision, digest, health)
    case ForceBlocking(revision) => BrokerRuns.ForceBlocking(revision)
    case DisablePolicy(revision) => BrokerRuns.Disable(revision)
  }

  /** A commit is only looked at for the prepared revision and digest, while blocking, and
      with a valid set that lists exactly the policy's groups in their order. */
  predicate Committable(rules: Rules, e: Spec.Engine, command: Command) {
    && command.CommitPolicy? && e.marker.Some? && e.phase == Blocking
    && e.marker.value.revision == command.revision && SameDigest(e.marker.value.digest, command.digest)
    && ValidIngressSet(rules, command.ingress)
    && CoreSide.EntryGroups(command.ingress.entries) == OrderedSet(ProxyGroups(e.marker.value.policy.entries))
  }

  /** A request reaches the engine unless its deactivation fails before a prepare, or it is
      a commit that is not committable or whose forwarding could not be measured. */
  predicate Reaches(rules: Rules, n: Node, command: Command) {
    var first := NextAnswer(n.probe).outcome;
    && (command.PreparePolicy? ==> first.Works?)
    && (command.CommitPolicy? ==> Committable(rules, n.e, command) && first.Works?)
  }

  /** What reaches the engine has exactly the engine's effect, even if a deactivation
      failed, and what does not has none. */
  lemma EngineEffectExactly(rules: Rules, n: Node, command: Command)
    ensures var n' := Dispatch(rules, n, command).0;
            if Reaches(rules, n, command) then
              Spec.State(n'.e, n'.w) == BrokerRuns.Execute(rules, n.e, n.w, Behind(command, NextAnswer(n.probe).health)).s
            else n'.e == n.e && n'.w == n.w
  {
  }

  /** A request is answered with a proof exactly if it reaches the engine, no deactivation
      it depends on failed, the engine succeeds, and the proof is one that may leave the
      Broker; the proof is then the engine's. Otherwise the code says why. */
  lemma RepliesExactly(rules: Rules, n: Node, command: Command)
    ensures var response := Dispatch(rules, n, command).1;
            var first := NextAnswer(n.probe);
            var r := BrokerRuns.Execute(rules, n.e, n.w, Behind(command, first.health));
            var stopped := command.ForceBlocking? || command.DisablePolicy? ==> first.outcome.Works?;
            && (response.Proven? <==> Reaches(rules, n, command) && stopped && r.result.Ok? && ValidBrokerProof(r.result.value.proof))
            && (response.Proven? ==> response.proof == r.result.value.proof)
            && (response.Refused? ==>
                  response.code == if command.CommitPolicy? && !Committable(rules, n.e, command) then InvalidRequest
                                   else if command.CommitPolicy? && !first.outcome.Works? then BackendUnavailable
                                   else if command.Status? && r.result.Err? then BackendUnavailable
                                   else Internal)
  {
  }

  /** Every proof that leaves the Broker is true, field by field, of the state it leaves. */
  lemma ProofsAreTrue(rules: Rules, n: Node, command: Command)
    requires Dispatch(rules, n, command).1.Proven?
    ensures var (n', response) := Dispatch(rules, n, command);
            Truthful(Spec.BrokerStatus(n'.e.phase, response.proof), n'.e, n'.w)
  {
    RepliesExactly(rules, n, command);
    EngineEffectExactly(rules, n, command);
    EveryReplyIsTrue(rules, n.e, n.w, Behind(command, NextAnswer(n.probe).health));
  }

  /** What may leave: for no policy only the empty proof; for a policy one that names its
      marker, a generation for its guards, and claims persistence only with guards. */
  lemma ProofsMayLeaveExactly(p: BrokerProof)
    ensures ValidBrokerProof(p) <==>
              && |p.policyDigest| == 64 && (forall i :: 0 <= i < 64 ==> IsHexDigit(p.policyDigest[i]))
              && (p.revision == 0 ==> p == BrokerProof(0, ZeroDigest(), 0, {}, false, false, p.coreHealthy, p.relayHealthy, p.dnsHealthy)
                                      && !p.coreHealthy && !p.relayHealthy && !p.dnsHealthy)
              && (p.revision > 0 ==> p.markerPresent && (p.guardsInstalled ==> p.filterGeneration > 0)
                                     && (!p.guardsInstalled ==> PersistentFailClosed !in p.capabilities && RecoveryVerified !in p.capabilities))
  {
  }
}
