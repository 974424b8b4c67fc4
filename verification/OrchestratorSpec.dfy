/** What each call on the Agent's policy orchestrator does. */
module OrchestratorSpec {
  import opened Wrappers
  import opened StrictContract
  import opened TargetGroups
  import Ingress = CoreIngress
  import Control = StrictControllerModule
  import opened StrictProtocol

  datatype Action = Broker(command: Command) | Core(action: Ingress.CoreAction) | Settled(status: Control.StrictStatus)

  datatype Phase =
    | Idle
    | AwaitPrepare(policy: Policy, digest: string, groups: seq<Group>)
    | AwaitIngress(revision: nat, digest: string)
    | AwaitCommit(revision: nat)
    | Active(revision: nat)
    | AwaitBlocking(revision: nat)
    | AwaitBlockingRevoke(revision: nat)
    | Blocked(revision: nat)
    | AwaitDisable
    | AwaitDisableRevoke

  datatype Orchestrator = Orchestrator(controller: Control.Controller, ingress: Ingress.Coordinator, phase: Phase)

  const NEW_ORCHESTRATOR: Orchestrator := Orchestrator(Control.NEW_CONTROLLER, Ingress.NEW_COORDINATOR, Idle)

  type Outcome = (Orchestrator, Result<Action>)

  function ProxyCount(entries: seq<Entry>): (n: nat)
    ensures n <= |entries|
    ensures n > 0 <==> exists i :: 0 <= i < |entries| && entries[i].action == Proxy
  {
    if entries == [] then 0
    else
      var rest := ProxyCount(entries[1..]);
      assert forall i :: 0 < i < |entries| ==> entries[i] == entries[1..][i - 1];
      if entries[0].action == Proxy then rest + 1 else rest
  }

  function IntentFor(rules: Rules, policy: Policy): Result<Control.Intent> {
    Control.NewIntent(policy.revision, rules.digest(policy), ProxyCount(policy.entries),
                      |policy.entries| - ProxyCount(policy.entries))
  }

  predicate ProvesGuard(proof: BrokerProof) {
    && proof.filterGeneration > 0 && proof.guardsInstalled && proof.markerPresent
    && RequiredForBlockOnly() <= proof.capabilities
  }

  predicate ForwardingOff(proof: BrokerProof) {
    !proof.coreHealthy && !proof.relayHealthy && !proof.dnsHealthy
  }

  /** The all-empty proof that only a Broker without any policy can give. */
  predicate ProvesEmpty(proof: BrokerProof) {
    && proof.revision == 0 && proof.policyDigest == ZeroDigest() && proof.filterGeneration == 0
    && proof.capabilities == {} && !proof.guardsInstalled && !proof.markerPresent && ForwardingOff(proof)
  }

  // ----- Beginning -----------------------------------------------------------

  function Begin(rules: Rules, o: Orchestrator, policy: Policy): Outcome {
    if !o.phase.Idle? || !ValidPolicy(rules, policy) then (o, Err) else
    var intent := IntentFor(rules, policy);
    if intent.Err? then (o, Err) else
    var (controller, ok) := Control.Begin(o.controller, intent.value);
    if !ok then (o, Err) else
    (o.(controller := controller,
        phase := AwaitPrepare(policy, rules.digest(policy), OrderedSet(ProxyGroups(policy.entries)))),
     Ok(Broker(PreparePolicy(policy))))
  }

  function RestoreDisable(rules: Rules, o: Orchestrator, policy: Policy): Outcome {
    var (begun, action) := Begin(rules, o, policy);
    if action.Err? then (begun, Err) else
    (begun.(controller := Control.RequestDisable(begun.controller), phase := AwaitDisable),
     Ok(Broker(DisablePolicy(policy.revision))))
  }

  predicate Replaceable(o: Orchestrator) {
    o.phase.Active? || o.phase.Blocked?
  }

  function BeginMigration(rules: Rules, o: Orchestrator, policy: Policy): Outcome {
    if !Replaceable(o) then (o, Err) else Begin(rules, o.(phase := Idle), policy)
  }

  // ----- Broker proofs -------------------------------------------------------

  function FailTo(o: Orchestrator, controller: Control.Controller, phase: Phase): Outcome {
    (o.(controller := controller, phase := phase), Err)
  }

  function Lost(c: Control.Controller): Control.Controller {
    Control.BackendLost(c, Control.BackendUnavailable)
  }

  function CurrentIngressSet(rules: Rules, c: Ingress.Coordinator): Result<Ingress.IngressSet> {
    if c.active.None? then Err else Ingress.BrokerIngressSet(rules, c.active.value)
  }

  function AcceptProof(rules: Rules, o: Orchestrator, proof: BrokerProof, draw: Ingress.Draw): Outcome {
    match o.phase
    case AwaitPrepare(policy, digest, groups) => AcceptPrepared(rules, o, policy, digest, groups, proof, draw)
    case AwaitCommit(revision) =>
      var (c, ok) := Control.ApplyProof(o.controller, proof);
      if !ok || !c.state.Armed? then FailTo(o, c, AwaitBlocking(revision)) else
      (o.(controller := c, phase := Active(revision)), Ok(Settled(Control.StatusOf(c))))
    case Active(revision) => AcceptWhileActive(rules, o, revision, proof)
    case AwaitBlocking(revision) =>
      var (c, ok) := Control.ApplyProof(o.controller, proof);
      if !ok then FailTo(o, c, o.phase) else
      if !ProvesGuard(proof) || !ForwardingOff(proof) then FailTo(o, Lost(c), o.phase) else
      Revoke(o.(controller := c), draw, o.phase, AwaitBlockingRevoke(revision))
    case AwaitDisable =>
      if !ProvesEmpty(proof) then (o, Err) else Revoke(o, draw, o.phase, AwaitDisableRevoke)
    case _ => (o, Err)
  }

  function Revoke(o: Orchestrator, draw: Ingress.Draw, otherwise: Phase, next: Phase): Outcome {
    var (ingress, action) := Ingress.ForceRevoke(o.ingress, draw);
    if action.Err? then (o.(ingress := ingress, phase := otherwise), Err)
    else (o.(ingress := ingress, phase := next), Ok(Core(action.value)))
  }

  function AcceptPrepared(rules: Rules, o: Orchestrator, policy: Policy, digest: string, groups: seq<Group>,
                          proof: BrokerProof, draw: Ingress.Draw): Outcome {
    var (c, ok) := Control.ApplyProof(o.controller, proof);
    if !ok then (o, Err) else
    if !ProvesGuard(proof) then FailTo(o, c, AwaitBlocking(policy.revision)) else
    if groups == [] then
      if !c.state.Armed? then FailTo(o, c, AwaitBlocking(policy.revision))
      else (o.(controller := c, phase := Active(policy.revision)), Ok(Settled(Control.StatusOf(c))))
    else
    if !c.state.Blocking? then FailTo(o, Lost(c), AwaitBlocking(policy.revision)) else
    var (ingress, change) := Ingress.Begin(rules, o.ingress, groups, draw);
    RequestOrCommit(rules, o.(controller := c, ingress := ingress), policy.revision, digest, change)
  }

  function RequestOrCommit(rules: Rules, o: Orchestrator, revision: nat, digest: string, change: Result<Ingress.Change>): Outcome {
    if change.Err? then FailTo(o, o.controller, AwaitBlocking(revision)) else
    match change.value
    case Request(action) => (o.(phase := AwaitIngress(revision, digest)), Ok(Core(action)))
    case Unchanged =>
      var current := CurrentIngressSet(rules, o.ingress);
      if current.Err? then FailTo(o, o.controller, AwaitBlocking(revision)) else
      (o.(phase := AwaitCommit(revision)), Ok(Broker(CommitPolicy(revision, digest, current.value))))
  }

  function AcceptWhileActive(rules: Rules, o: Orchestrator, revision: nat, proof: BrokerProof): Outcome {
    var (c, ok) := Control.ApplyProof(o.controller, proof);
    if !ok then (o, Err) else
    if c.state.Armed? then (o.(controller := c), Ok(Settled(Control.StatusOf(c)))) else
    if !ProvesGuard(proof) || !ForwardingOff(proof) then FailTo(o, Lost(c), AwaitBlocking(revision)) else
    var current := CurrentIngressSet(rules, o.ingress);
    if current.Err? then FailTo(o, Lost(c), AwaitBlocking(revision)) else
    (o.(controller := Control.BeginRecovery(c), phase := AwaitCommit(revision)),
     Ok(Broker(CommitPolicy(revision, proof.policyDigest, current.value))))
  }

  // ----- Core responses ------------------------------------------------------

  function AcceptCore(rules: Rules, o: Orchestrator, response: Ingress.CoreResponse): Outcome {
    match o.phase
    case AwaitIngress(revision, digest) =>
      var (ingress, done) := Ingress.Complete(o.ingress, response);
      var o := o.(ingress := ingress);
      if done.Err? || done.value.None? then FailTo(o, o.controller, AwaitBlocking(revision)) else
      var current := Ingress.BrokerIngressSet(rules, done.value.value);
      if current.Err? then FailTo(o, o.controller, AwaitBlocking(revision)) else
      (o.(phase := AwaitCommit(revision)), Ok(Broker(CommitPolicy(revision, digest, current.value))))
    case AwaitBlockingRevoke(revision) =>
      var (ingress, done) := Ingress.Complete(o.ingress, response);
      var o := o.(ingress := ingress);
      if done.Err? then (o, Err) else (o.(phase := Blocked(revision)), Ok(Settled(Control.StatusOf(o.controller))))
    case AwaitDisableRevoke =>
      var (ingress, done) := Ingress.Complete(o.ingress, response);
      var o := o.(ingress := ingress);
      if done.Err? then (o, Err) else
      var (c, confirmed) := Control.ConfirmDisabled(o.controller, false, false);
      if !confirmed then FailTo(o, c, AwaitDisable) else
      (o.(controller := c, phase := Idle), Ok(Settled(Control.StatusOf(c))))
    case _ => (o, Err)
  }

  // ----- Calls that need no reply --------------------------------------------

  function Blockable(phase: Phase): Option<nat> {
    match phase
    case AwaitIngress(revision, _) => Some(revision)
    case AwaitCommit(revision) => Some(revision)
    case AwaitBlocking(revision) => Some(revision)
    case Active(revision) => Some(revision)
    case Blocked(revision) => Some(revision)
    case _ => None
  }

  function ForceBlockingNow(o: Orchestrator): Outcome {
    var revision := Blockable(o.phase);
    if revision.None? then (o, Err) else
    (o.(controller := Lost(o.controller), phase := AwaitBlocking(revision.value)), Ok(Broker(ForceBlocking(revision.value))))
  }

  function Disable(o: Orchestrator): Outcome {
    if !Replaceable(o) then (o, Err) else
    (o.(controller := Control.RequestDisable(o.controller), phase := AwaitDisable), Ok(Broker(DisablePolicy(o.phase.revision))))
  }

  function BrokerLost(o: Orchestrator, revision: nat): Orchestrator {
    var o := o.(controller := Lost(o.controller));
    if o.phase.AwaitPrepare? || o.phase.AwaitDisable? || o.phase.AwaitDisableRevoke? then o
    else o.(phase := AwaitBlocking(revision))
  }

  function RetryCoreRevoke(o: Orchestrator, draw: Ingress.Draw): Outcome {
    if o.phase.AwaitBlockingRevoke? || o.phase.AwaitDisableRevoke? then Revoke(o, draw, o.phase, o.phase) else (o, Err)
  }

  function Recover(rules: Rules, o: Orchestrator, policy: Policy, draw: Ingress.Draw): Outcome {
    match o.phase
    case AwaitPrepare(_, _, _) => (o, Ok(Broker(PreparePolicy(policy))))
    case AwaitDisable => (o, Ok(Broker(DisablePolicy(policy.revision))))
    case AwaitDisableRevoke => RetryCoreRevoke(o, draw)
    case Blocked(_) => Begin(rules, o.(phase := Idle), policy)
    case AwaitBlocking(_) => ForceBlockingNow(o)
    case AwaitIngress(_, _) => ForceBlockingNow(o)
    case AwaitCommit(_) => ForceBlockingNow(o)
    case AwaitBlockingRevoke(_) => RetryCoreRevoke(o, draw)
    case _ => (o, Err)
  }
}
