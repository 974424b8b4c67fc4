/** Phase by phase, exactly which proofs, answers and calls the orchestrator goes on with,
    where it goes, and where it falls back to when it does not. */
module OrchestratorMoves {
  import opened Wrappers
  import opened StrictContract
  import opened TargetGroups
  import Ingress = CoreIngress
  import Control = StrictControllerModule
  import Verdicts = StrictVerdicts
  import opened StrictProtocol
  import opened OrchestratorSpec

  // ----- What a proof says ---------------------------------------------------

  predicate Heard(o: Orchestrator, proof: BrokerProof) {
    && o.controller.desired.Some? && proof.revision == o.controller.desired.value.revision
    && SameDigest(proof.policyDigest, o.controller.desired.value.digest)
  }

  predicate Arming(o: Orchestrator, proof: BrokerProof) {
    Heard(o, proof) && Verdicts.Arms(o.controller.desired.value, proof)
  }

  /** The guards stand for good, whatever forwarding does. */
  predicate Guarding(proof: BrokerProof) {
    && proof.filterGeneration > 0 && proof.guardsInstalled && proof.markerPresent
    && {DriverSigned, IdentityVerified, PersistentFailClosed, RecoveryVerified} <= proof.capabilities
  }

  predicate Quiet(proof: BrokerProof) {
    !proof.coreHealthy && !proof.relayHealthy && !proof.dnsHealthy
  }

  /** The set the Broker would accept for the active descriptor, if there is one. */
  predicate HasSet(rules: Rules, o: Orchestrator) {
    o.ingress.active.Some? && Ingress.BrokerIngressSet(rules, o.ingress.active.value).Ok?
  }

  /** Armed and done. */
  predicate Activates(o: Orchestrator, r: Result<Action>, revision: nat) {
    && o.phase == Active(revision) && o.controller.state == Control.Armed && o.controller.reason == Control.NoReason
    && r == Ok(Settled(Control.StatusOf(o.controller)))
  }

  predicate FallsBack(o: Orchestrator, r: Result<Action>, revision: nat) {
    o.phase == AwaitBlocking(revision) && r.Err? && o.controller.state != Control.Armed
  }

  // ----- Proofs --------------------------------------------------------------

  /** While a commit is awaited: active exactly on an arming proof, else back to blocking,
      the state being whatever the proof makes it if it is heard at all. */
  lemma CommitProofExactly(rules: Rules, o: Orchestrator, proof: BrokerProof, draw: Ingress.Draw)
    requires o.phase.AwaitCommit?
    ensures var (o', r) := AcceptProof(rules, o, proof, draw);
            && o'.ingress == o.ingress && o'.controller.desired == o.controller.desired
            && (if Arming(o, proof) then Activates(o', r, o.phase.revision)
                else o'.phase == AwaitBlocking(o.phase.revision) && r.Err? && (Heard(o, proof) ==> o'.controller.state == Control.Blocking)
                     && (!Heard(o, proof) ==> o'.controller == o.controller))
  {
    Verdicts.ProofDecidesExactly(o.controller, proof);
  }

  /** While active: an arming proof keeps it so; a proof that the guards stand but
      forwarding is off leads to a new commit of the active set, if there is one; any
      other heard proof falls back to blocking; an unheard one changes nothing. */
  lemma ActiveProofExactly(rules: Rules, o: Orchestrator, proof: BrokerProof, draw: Ingress.Draw)
    requires o.phase.Active?
    ensures var (o', r) := AcceptProof(rules, o, proof, draw);
            && o'.ingress == o.ingress && o'.controller.desired == o.controller.desired
            && (if !Heard(o, proof) then o' == o && r.Err?
                else if Arming(o, proof) then Activates(o', r, o.phase.revision)
                else if Guarding(proof) && Quiet(proof) && HasSet(rules, o) then
                  && o'.phase == AwaitCommit(o.phase.revision) && o'.controller.state == Control.Recovering
                  && r == Ok(Action.Broker(CommitPolicy(o.phase.revision, proof.policyDigest,
                                                       Ingress.BrokerIngressSet(rules, o.ingress.active.value).value)))
                else FallsBack(o', r, o.phase.revision))
  {
    Verdicts.ProofDecidesExactly(o.controller, proof);
  }

  /** While blocking is awaited: on with the revoke of the Core's ingress exactly on a heard
      proof that the guards stand and forwarding is off, while a generation is left. */
  lemma BlockingProofExactly(rules: Rules, o: Orchestrator, proof: BrokerProof, draw: Ingress.Draw)
    requires o.phase.AwaitBlocking?
    ensures var (o', r) := AcceptProof(rules, o, proof, draw);
            var request := Ingress.CoreAction(o.ingress.generation + 1, []);
            var stopped := Heard(o, proof) && Guarding(proof) && Quiet(proof);
            && o'.controller.desired == o.controller.desired
            && (r.Ok? <==> stopped && o.ingress.generation < U64_MAX && draw.fits)
            && (r.Ok? ==> o'.phase == AwaitBlockingRevoke(o.phase.revision) && r.value == Action.Core(request)
                          && o'.ingress == Ingress.Coordinator(o.ingress.generation + 1, Some(request), o.ingress.active))
            && (r.Err? ==> o'.phase == o.phase)
            && (!Heard(o, proof) ==> o' == o)
            && (Heard(o, proof) && !stopped ==> o'.controller.state == Control.Blocking && o'.ingress == o.ingress)
  {
    Verdicts.ProofDecidesExactly(o.controller, proof);
  }

  /** While a prepare is awaited, for a policy without proxies: active exactly on an arming
      proof of its guards; for one with proxies: on with the Core's ingress or, if that
      already serves the groups, with the commit. A heard proof of anything else falls back
      to blocking, an unheard one changes nothing. */
  lemma PreparedProofExactly(rules: Rules, o: Orchestrator, proof: BrokerProof, draw: Ingress.Draw)
    requires o.phase.AwaitPrepare?
    ensures var (o', r) := AcceptProof(rules, o, proof, draw);
            var policy, groups := o.phase.policy, o.phase.groups;
            && o'.controller.desired == o.controller.desired
            && (if !Heard(o, proof) then o' == o && r.Err?
                else if groups == [] then
                  && o'.ingress == o.ingress
                  && (if Guarding(proof) && Arming(o, proof) then Activates(o', r, policy.revision)
                      else o'.phase == AwaitBlocking(policy.revision) && r.Err?)
                else if !Guarding(proof) || Arming(o, proof) then o'.phase == AwaitBlocking(policy.revision) && r.Err? && o'.ingress == o.ingress
                else if MayRequest(rules, o, draw) then
                  var request := Ingress.CoreAction(o.ingress.generation + 1, Ingress.Drawn(SortedDistinct(groups), draw.tokens));
                  && o'.phase == AwaitIngress(policy.revision, o.phase.digest) && r == Ok(Action.Core(request))
                  && o'.ingress == Ingress.Coordinator(o.ingress.generation + 1, Some(request), o.ingress.active)
                else if Serves(rules, o) then
                  && o'.phase == AwaitCommit(policy.revision) && o'.ingress == o.ingress
                  && r == Ok(Action.Broker(CommitPolicy(policy.revision, o.phase.digest,
                                                       Ingress.BrokerIngressSet(rules, o.ingress.active.value).value)))
                else FallsBack(o', r, policy.revision) && o'.ingress == o.ingress)
  {
    Verdicts.ProofDecidesExactly(o.controller, proof);
    if Heard(o, proof) && Guarding(proof) && o.phase.groups != [] && !Arming(o, proof) {
      PreparedRequestExactly(rules, o, proof, draw);
    }
  }

  predicate GroupsFit(rules: Rules, o: Orchestrator)
    requires o.phase.AwaitPrepare?
  {
    && o.ingress.pending.None? && |o.phase.groups| <= 128
    && forall i :: 0 <= i < |o.phase.groups| ==> rules.groupOk(o.phase.groups[i])
  }

  /** A request for the groups can be drawn and is needed. */
  predicate MayRequest(rules: Rules, o: Orchestrator, draw: Ingress.Draw)
    requires o.phase.AwaitPrepare?
  {
    && GroupsFit(rules, o) && Ingress.ActiveGroups(o.ingress) != SortedDistinct(o.phase.groups)
    && o.ingress.generation < U64_MAX && draw.fits
  }

  /** The active ingress already serves exactly the groups. */
  predicate Serves(rules: Rules, o: Orchestrator)
    requires o.phase.AwaitPrepare?
  {
    GroupsFit(rules, o) && Ingress.ActiveGroups(o.ingress) == SortedDistinct(o.phase.groups) && HasSet(rules, o)
  }

  lemma PreparedRequestExactly(rules: Rules, o: Orchestrator, proof: BrokerProof, draw: Ingress.Draw)
    requires o.phase.AwaitPrepare? && Heard(o, proof) && Guarding(proof) && o.phase.groups != [] && !Arming(o, proof)
    ensures var (o', r) := AcceptPrepared(rules, o, o.phase.policy, o.phase.digest, o.phase.groups, proof, draw);
            var policy, groups := o.phase.policy, o.phase.groups;
            && o'.controller == Control.ApplyProof(o.controller, proof).0
            && (if MayRequest(rules, o, draw) then
                  var request := Ingress.CoreAction(o.ingress.generation + 1, Ingress.Drawn(SortedDistinct(groups), draw.tokens));
                  && o'.phase == AwaitIngress(policy.revision, o.phase.digest) && r == Ok(Action.Core(request))
                  && o'.ingress == Ingress.Coordinator(o.ingress.generation + 1, Some(request), o.ingress.active)
                else if Serves(rules, o) then
                  && o'.phase == AwaitCommit(policy.revision) && o'.ingress == o.ingress
                  && r == Ok(Action.Broker(CommitPolicy(policy.revision, o.phase.digest,
                                                       Ingress.BrokerIngressSet(rules, o.ingress.active.value).value)))
                else o'.phase == AwaitBlocking(policy.revision) && r.Err? && o'.ingress == o.ingress)
  {
    Verdicts.ProofDecidesExactly(o.controller, proof);
    Ingress.TransitionExactly(rules, o.ingress, o.phase.groups, draw);
    var c := Control.ApplyProof(o.controller, proof).0;
    var (ingress, change) := Ingress.Begin(rules, o.ingress, o.phase.groups, draw);
    assert AcceptPrepared(rules, o, o.phase.policy, o.phase.digest, o.phase.groups, proof, draw)
        == RequestOrCommit(rules, o.(controller := c, ingress := ingress), o.phase.policy.revision, o.phase.digest, change);
  }

  // ----- Core answers --------------------------------------------------------

  /** An answer to the request for the groups leads to the commit of exactly the set it
      makes, if it makes one, and otherwise back to blocking. */
  lemma IngressAnswerExactly(rules: Rules, o: Orchestrator, response: Ingress.CoreResponse)
    requires o.phase.AwaitIngress?
    ensures var (o', r) := AcceptCore(rules, o, response);
            var (ingress, done) := Ingress.Complete(o.ingress, response);
            && o'.ingress == ingress && o'.controller == o.controller
            && (if done.Ok? && done.value.Some? && Ingress.BrokerIngressSet(rules, done.value.value).Ok? then
                  && o'.phase == AwaitCommit(o.phase.revision)
                  && r == Ok(Action.Broker(CommitPolicy(o.phase.revision, o.phase.digest,
                                                       Ingress.BrokerIngressSet(rules, done.value.value).value)))
                else o'.phase == AwaitBlocking(o.phase.revision) && r.Err?)
  {
  }

  /** An accepted answer to a revoke leaves the policy blocked, or repeats may follow. */
  lemma RevokeAnswerExactly(rules: Rules, o: Orchestrator, response: Ingress.CoreResponse)
    requires o.phase.AwaitBlockingRevoke?
    ensures var (o', r) := AcceptCore(rules, o, response);
            var (ingress, done) := Ingress.Complete(o.ingress, response);
            && o'.ingress == ingress && o'.controller == o.controller
            && (if done.Ok? then o'.phase == Phase.Blocked(o.phase.revision) && r == Ok(Settled(Control.StatusOf(o.controller)))
                else o'.phase == o.phase && r.Err?)
  {
  }

  // ----- Calls ---------------------------------------------------------------

  /** A policy begins exactly from idle, if it is valid, counts as an intent and may be
      taken up; it is then to be prepared. */
  lemma BeginExactly(rules: Rules, o: Orchestrator, policy: Policy)
    ensures var (o', r) := Begin(rules, o, policy);
            var intent := IntentFor(rules, policy);
            && (r.Ok? <==> o.phase.Idle? && ValidPolicy(rules, policy) && intent.Ok? && !o.controller.disabling
                           && (o.controller.desired == None || o.controller.desired == Some(intent.value)
                               || policy.revision > o.controller.desired.value.revision))
            && (r.Ok? ==>
                  && r.value == Action.Broker(PreparePolicy(policy)) && o'.ingress == o.ingress
                  && o'.phase == AwaitPrepare(policy, rules.digest(policy), OrderedSet(ProxyGroups(policy.entries)))
                  && o'.controller == Control.Controller(Some(intent.value), Control.Preparing, Control.BeingPrepared, None, false))
            && (r.Err? ==> o' == o)
  {
    if IntentFor(rules, policy).Ok? { Verdicts.IntentsBeginExactly(o.controller, IntentFor(rules, policy).value); }
  }

  /** A disable interrupted earlier is taken up again exactly where its policy could begin. */
  lemma RestoreExactly(rules: Rules, o: Orchestrator, policy: Policy)
    ensures var (o', r) := RestoreDisable(rules, o, policy);
            && (r.Ok? <==> Begin(rules, o, policy).1.Ok?)
            && (r.Ok? ==>
                  && r.value == Action.Broker(DisablePolicy(policy.revision)) && o'.phase == AwaitDisable && o'.ingress == o.ingress
                  && o'.controller.disabling && o'.controller.state == Control.Blocking
                  && o'.controller.desired == Some(IntentFor(rules, policy).value))
            && (r.Err? ==> o' == o)
  {
    BeginExactly(rules, o, policy);
  }

  /** Blocking can be forced, a disable asked for and a migration started exactly in these
      phases; a disable and a forced blocking name the revision at hand. */
  lemma CallsExactly(rules: Rules, o: Orchestrator, policy: Policy)
    ensures var (o', r) := ForceBlockingNow(o);
            && (r.Ok? <==> o.phase.AwaitIngress? || o.phase.AwaitCommit? || o.phase.AwaitBlocking? || o.phase.Active? || o.phase.Blocked?)
            && (r.Ok? ==> r.value == Action.Broker(ForceBlocking(o.phase.revision)) && o'.phase == AwaitBlocking(o.phase.revision)
                          && o'.ingress == o.ingress && o'.controller == Control.BackendLost(o.controller, Control.BackendUnavailable))
            && (r.Err? ==> o' == o)
    ensures var (o', r) := Disable(o);
            && (r.Ok? <==> o.phase.Active? || o.phase.Blocked?)
            && (r.Ok? ==> r.value == Action.Broker(DisablePolicy(o.phase.revision)) && o'.phase == AwaitDisable
                          && o'.ingress == o.ingress && o'.controller == Control.RequestDisable(o.controller))
            && (r.Err? ==> o' == o)
    ensures var (o', r) := BeginMigration(rules, o, policy);
            if o.phase.Active? || o.phase.Blocked? then (o', r) == Begin(rules, o.(phase := Idle), policy) else o' == o && r.Err?
  {
  }

  /** A lost Broker blocks the controller and, except while a prepare or a disable is under
      way, has blocking awaited. */
  lemma LossExactly(o: Orchestrator, revision: nat)
    ensures var o' := BrokerLost(o, revision);
            && o'.ingress == o.ingress && o'.controller == Control.BackendLost(o.controller, Control.BackendUnavailable)
            && o'.phase == (if o.phase.AwaitPrepare? || o.phase.AwaitDisable? || o.phase.AwaitDisableRevoke? then o.phase
                            else AwaitBlocking(revision))
  {
  }

  /** What recovery asks for in each phase: the outstanding command again, a revoke again,
      a new beginning once blocked, and forced blocking in between. */
  lemma RecoverExactly(rules: Rules, o: Orchestrator, policy: Policy, draw: Ingress.Draw)
    ensures var (o', r) := Recover(rules, o, policy, draw);
            var request := Ingress.CoreAction(o.ingress.generation + 1, []);
            match o.phase
            case Idle => o' == o && r.Err?
            case Active(_) => o' == o && r.Err?
            case AwaitPrepare(_, _, _) => o' == o && r == Ok(Action.Broker(PreparePolicy(policy)))
            case AwaitDisable => o' == o && r == Ok(Action.Broker(DisablePolicy(policy.revision)))
            case Blocked(_) => (o', r) == Begin(rules, o.(phase := Idle), policy)
            case AwaitIngress(revision, _) => r == Ok(Action.Broker(ForceBlocking(revision))) && o'.phase == AwaitBlocking(revision)
            case AwaitCommit(revision) => r == Ok(Action.Broker(ForceBlocking(revision))) && o'.phase == AwaitBlocking(revision)
            case AwaitBlocking(revision) => r == Ok(Action.Broker(ForceBlocking(revision))) && o'.phase == AwaitBlocking(revision)
            case _ =>
              && o'.phase == o.phase && o'.controller == o.controller
              && (r.Ok? <==> o.ingress.generation < U64_MAX && draw.fits)
              && (r.Ok? ==> r.value == Action.Core(request)
                            && o'.ingress == Ingress.Coordinator(o.ingress.generation + 1, Some(request), o.ingress.active))
              && (r.Err? ==> o'.ingress == o.ingress.(pending := None))
  {
  }
}
