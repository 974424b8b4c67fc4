/** The dispatcher joins the engine to the forwarding health probe: every
    command that may change the policy first revokes forwarding admission. */
module BrokerDispatch {
  import opened Wrappers
  import opened StrictContract
  import opened BrokerWorld
  import Spec = BrokerSpec
  import opened BrokerEngineModule
  import opened TargetGroups
  import opened CoreIngress
  import CoreSide
  import opened StrictProtocol

  // ----- Forwarding probe ----------------------------------------------------

  datatype ProbeAnswer = ProbeAnswer(outcome: Outcome, health: Spec.ForwardingHealth)

  /** Whether forwarding is admitted, and how the probe will answer. */
  datatype Probe = Probe(forwarding: bool, script: seq<ProbeAnswer>)

  function NextAnswer(p: Probe): ProbeAnswer {
    if p.script == [] then ProbeAnswer(Fails, Spec.NO_HEALTH) else p.script[0]
  }

  function RestOf(p: Probe): Probe {
    if p.script == [] then p else p.(script := p.script[1..])
  }

  function Measure(p: Probe): (Probe, Option<Spec.ForwardingHealth>) {
    var a := NextAnswer(p);
    (RestOf(p).(forwarding := p.forwarding || !a.outcome.Fails?), if a.outcome.Works? then Some(a.health) else None)
  }

  function Deactivate(p: Probe): (Probe, bool) {
    var a := NextAnswer(p);
    (RestOf(p).(forwarding := p.forwarding && a.outcome.Fails?), a.outcome.Works?)
  }

  // ----- Commands and replies ------------------------------------------------

  datatype ErrorCode = InvalidRequest | BackendUnavailable | Internal

  datatype Response = Proven(proof: BrokerProof) | Refused(code: ErrorCode)

  /** What a proof must satisfy before it may leave the Broker. */
  predicate ValidBrokerProof(p: BrokerProof) {
    && IsSha256(p.policyDigest)
    && (if p.revision == 0 then
          && p.policyDigest == ZeroDigest() && p.filterGeneration == 0 && p.capabilities == {}
          && !p.guardsInstalled && !p.markerPresent && !p.coreHealthy && !p.relayHealthy && !p.dnsHealthy
        else
          && p.markerPresent
          && (p.guardsInstalled ==> p.filterGeneration != 0)
          && (PersistentFailClosed in p.capabilities || RecoveryVerified in p.capabilities ==> p.guardsInstalled))
  }

  function ResponseFor(r: Result<Spec.BrokerStatus>, code: ErrorCode): Response {
    if r.Err? then Refused(code)
    else if ValidBrokerProof(r.value.proof) then Proven(r.value.proof)
    else Refused(Internal)
  }

  predicate AcceptsIngress(rules: Rules, e: Spec.Engine, revision: nat, digest: string, ingress: IngressSet) {
    && Spec.MatchesCurrent(e, revision, digest)
    && e.phase == Blocking
    && ValidIngressSet(rules, ingress)
    && CoreSide.EntryGroups(ingress.entries) == OrderedSet(ProxyGroups(e.marker.value.policy.entries))
  }

  datatype Node = Node(e: Spec.Engine, w: World, probe: Probe)

  /** The node before its next call, with the answers its world and probe will give. */
  function Facing(n: Node, answers: seq<Answer>, probed: seq<ProbeAnswer>): Node {
    Node(n.e, n.w.(script := answers), n.probe.(script := probed))
  }

  function After(r: Spec.Reply, probe: Probe, response: Response): (Node, Response) {
    (Node(r.s.e, r.s.w, probe), response)
  }

  function DispatchCommit(rules: Rules, n: Node, revision: nat, digest: string, ingress: IngressSet): (Node, Response) {
    if !AcceptsIngress(rules, n.e, revision, digest, ingress) then (n, Refused(InvalidRequest)) else
    var (measured, health) := Measure(n.probe);
    if health.None? then (n.(probe := Deactivate(measured).0), Refused(BackendUnavailable)) else
    var r := Spec.Commit(n.e, n.w, revision, digest, health.value);
    After(r, if r.result.Err? then Deactivate(measured).0 else measured, ResponseFor(r.result, Internal))
  }

  function Dispatch(rules: Rules, n: Node, command: Command): (Node, Response) {
    match command
    case Status =>
      var r := Spec.Status(n.e, n.w);
      After(r, n.probe, ResponseFor(r.result, BackendUnavailable))
    case PreparePolicy(policy) =>
      var (probe, ok) := Deactivate(n.probe);
      if !ok then (n.(probe := probe), Refused(Internal)) else
      var r := Spec.Prepare(rules, n.e, n.w, policy);
      After(r, probe, ResponseFor(r.result, Internal))
    case CommitPolicy(revision, digest, ingress) => DispatchCommit(rules, n, revision, digest, ingress)
    case ForceBlocking(revision) =>
      var (probe, ok) := Deactivate(n.probe);
      var r := Spec.ForceBlocking(n.e, n.w, revision);
      After(r, probe, ResponseFor(if ok then r.result else Err, Internal))
    case DisablePolicy(revision) =>
      var (probe, ok) := Deactivate(n.probe);
      var r := Spec.Disable(n.e, n.w, revision);
      After(r, probe, ResponseFor(if ok then r.result else Err, Internal))
  }

  predicate Stops(command: Command) {
    command.PreparePolicy? || command.ForceBlocking? || command.DisablePolicy?
  }

  // ----- The dispatcher object -----------------------------------------------

  class BrokerDispatcher {
    const engine: BrokerEngine
    var probe: Probe

    function View(): Node
      reads this, engine, engine.host
    {
      Node(engine.View(), engine.host.world, probe)
    }

    constructor (engine: BrokerEngine, probe: Probe)
      ensures this.engine == engine && this.probe == probe
    {
      this.engine, this.probe := engine, probe;
    }

    method MeasureForwarding() returns (health: Option<Spec.ForwardingHealth>)
      modifies this
      ensures (probe, health) == Measure(old(probe))
      ensures health.Some? || old(probe).forwarding ==> probe.forwarding
    {
      var r := Measure(probe);
      probe, health := r.0, r.1;
    }

    method DeactivateForwarding() returns (ok: bool)
      modifies this
      ensures (probe, ok) == Deactivate(old(probe))
      ensures ok ==> !probe.forwarding
      ensures probe.forwarding ==> old(probe).forwarding
    {
      var r := Deactivate(probe);
      probe, ok := r.0, r.1;
    }

    method Handle(command: Command) returns (response: Response)
      modifies this, engine, engine.host
      ensures (View(), response) == Dispatch(engine.rules, old(View()), command)
      ensures old(engine.Safe()) ==> engine.Safe()
      ensures Stops(command) && response.Proven? ==>
                !probe.forwarding && engine.host.world.now.image.backend.dataPlane == None
    {
      if Stops(command) && Dispatch(engine.rules, View(), command).1.Proven? { StoppingReplyIsTrue(engine.rules, View(), command); }
      match command {
        case Status =>
          var r := engine.Status();
          return ResponseFor(r, BackendUnavailable);
        case PreparePolicy(policy) =>
          var ok := DeactivateForwarding();
          if !ok { return Refused(Internal); }
          var r := engine.Prepare(policy);
          return ResponseFor(r, Internal);
        case CommitPolicy(revision, digest, ingress) =>
          if !AcceptsIngress(engine.rules, engine.View(), revision, digest, ingress) { return Refused(InvalidRequest); }
          var health := MeasureForwarding();
          if health.None? {
            var _ := DeactivateForwarding();
            return Refused(BackendUnavailable);
          }
          var r := engine.Commit(revision, digest, health.value);
          if r.Err? { var _ := DeactivateForwarding(); }
          return ResponseFor(r, Internal);
        case ForceBlocking(revision) =>
          var ok := DeactivateForwarding();
          var r := engine.ForceBlocking(revision);
          return ResponseFor(if ok then r else Err, Internal);
        case DisablePolicy(revision) =>
          var ok := DeactivateForwarding();
          var r := engine.Disable(revision);
          return ResponseFor(if ok then r else Err, Internal);
      }
    }
  }

  // ----- Replies ---------------------------------------------------------------

  /** A proof answering a command that must stop forwarding is sent only once
      forwarding is off and no redirect remains installed. */
  lemma StoppingReplyIsTrue(rules: Rules, n: Node, command: Command)
    requires Stops(command)
    requires Dispatch(rules, n, command).1.Proven?
    ensures var n' := Dispatch(rules, n, command).0;
            !n'.probe.forwarding && n'.w.now.image.backend.dataPlane == None
  {
    match command
    case PreparePolicy(policy) => PrepareOutcome(rules, n.e, n.w, policy);
    case ForceBlocking(revision) => ForceBlockingOutcome(n.e, n.w, revision);
    case DisablePolicy(revision) =>
      var disabling := n.e.marker.value.WithPhase(Disabling, n.e.marker.value.filterGeneration);
      CompleteDisableStops(n.e.(marker := Some(disabling), phase := Recovering, health := Spec.NO_HEALTH),
                             Persist(n.w, disabling).0, disabling);
  }

  lemma ForceBlockingOutcome(e: Spec.Engine, w: World, revision: nat)
    requires Spec.ForceBlocking(e, w, revision).result.Ok?
    ensures Spec.ForceBlocking(e, w, revision).s.w.now.image.backend.dataPlane == None
  {
  }

  lemma CompleteDisableStops(e: Spec.Engine, w: World, marker: Marker)
    requires Spec.CompleteDisable(e, w, marker).result.Ok?
    ensures Spec.CompleteDisable(e, w, marker).s.w.now.image.backend.dataPlane == None
  {
  }

  lemma RebindOutcome(e: Spec.Engine, w: World, marker: Marker)
    requires e.lease.Some? && Spec.Rebind(e, w, marker).result.Ok?
    ensures Spec.Rebind(e, w, marker).s.w.now.image.backend.dataPlane == None
  {
  }

  lemma RecoverMarkedOutcome(rules: Rules, e: Spec.Engine, w: World, record: Record, snapshot: Snapshot)
    requires record.marker.Some? && Spec.RecoverMarked(rules, e, w, record, snapshot).result.Ok?
    ensures Spec.RecoverMarked(rules, e, w, record, snapshot).s.w.now.image.backend.dataPlane == None
  {
    var marker := record.marker.value;
    var recovering := e.(marker := Some(marker), phase := Recovering, health := Spec.NO_HEALTH);
    if marker.phase == Disabling { CompleteDisableStops(recovering, w, marker); return; }
    var verified := Verify(w).0;
    var leased := recovering.(lease := Some(marker.policy));
    if !snapshot.dataPlaneInstalled { RebindOutcome(leased, verified, marker); return; }
    RebindOutcome(leased, TakeSnapshot(RemoveDataPlane(verified).0).0, marker);
  }

  lemma RecoverOutcome(rules: Rules, e: Spec.Engine, w: World)
    requires Spec.Recover(rules, e, w).result.Ok?
    ensures Spec.Recover(rules, e, w).s.w.now.image.backend.dataPlane == None
  {
    var (w1, record) := Load(w);
    var (w2, snapshot) := TakeSnapshot(w1);
    if record.value.marker.Some? {
      RecoverMarkedOutcome(rules, e.(storeLoaded := true, highWatermark := record.value.highWatermark), w2,
                           record.value, snapshot.value);
    }
  }

  lemma InstallSuccessorOutcome(rules: Rules, e: Spec.Engine, w: World, policy: Policy)
    requires Spec.InstallSuccessor(rules, e, w, policy).result.Ok?
    ensures Spec.InstallSuccessor(rules, e, w, policy).s.w.now.image.backend.dataPlane == None
  {
  }

  lemma InstallFirstOutcome(e: Spec.Engine, w: World, preparing: Marker)
    requires e.lease.Some? && Spec.InstallFirst(e, w, preparing).result.Ok?
    ensures Spec.InstallFirst(e, w, preparing).s.w.now.image.backend.dataPlane == None
  {
  }

  lemma PrepareOutcome(rules: Rules, e: Spec.Engine, w: World, policy: Policy)
    requires Spec.Prepare(rules, e, w, policy).result.Ok?
    ensures Spec.Prepare(rules, e, w, policy).s.w.now.image.backend.dataPlane == None
  {
    var (s, loaded) := Spec.LoadStoreOnce(e, w);
    if s.e.marker.None? {
      var preparing := PreparingMarker(policy, rules.digest(policy));
      InstallFirstOutcome(s.e.(lease := Some(policy), highWatermark := policy.revision, marker := Some(preparing),
                               phase := Preparing, health := Spec.NO_HEALTH), Persist(Verify(s.w).0, preparing).0, preparing);
    } else if s.e.marker.value.policy == policy && s.e.marker.value.phase != Disabling {
      RecoverOutcome(rules, s.e, s.w);
    } else {
      var blocked := Spec.ForceBlocking(s.e, Verify(s.w).0, s.e.marker.value.revision);
      InstallSuccessorOutcome(rules, blocked.s.e, blocked.s.w, policy);
    }
  }

  /** The set that an honest exchange yields is the one the Broker accepts for the
      same prepared policy, and no other list of groups is. */
  lemma IngressAgreement(rules: Rules, e: Spec.Engine, policy: Policy, ingress: IngressSet)
    requires e.phase == Blocking && e.marker.Some? && e.marker.value.policy == policy
    requires ValidIngressSet(rules, ingress)
    ensures AcceptsIngress(rules, e, e.marker.value.revision, e.marker.value.digest, ingress) <==>
              Elements(CoreSide.EntryGroups(ingress.entries)) == Elements(ProxyGroups(policy.entries))
  {
    var listed := CoreSide.EntryGroups(ingress.entries);
    OrderedSetAscends(ProxyGroups(policy.entries));
    AdjacentAscends(listed);
    if Elements(listed) == Elements(ProxyGroups(policy.entries)) {
      AscendingUnique(listed, OrderedSet(ProxyGroups(policy.entries)));
    }
  }

  lemma {:induction false} AdjacentAscends(s: seq<Group>)
    requires forall i :: 0 < i < |s| ==> Below(s[i - 1], s[i])
    ensures Ascending(s)
  {
    if |s| > 1 {
      AdjacentAscends(s[1..]);
      assert s == [s[0]] + s[1..];
      AscendingCons(s[0], s[1..]);
    }
  }
}
