/** What the Broker says and does at the two quiet ends of its life: every reply tells
    the truth about the state it leaves, and a Broker without a policy starts. */
module BrokerReplies {
  import opened Wrappers
  import opened StrictContract
  import opened BrokerWorld
  import Spec = BrokerSpec
  import opened BrokerInvariant
  import opened BrokerRuns

  // ----- Every reply is true -------------------------------------------------

  /** Field by field, what a proof says about the engine and the installed filters. */
  predicate Truthful(status: Spec.BrokerStatus, e: Engine, w: World) {
    var proof, b := status.proof, w.now.image.backend;
    && status.phase == e.phase
    && (proof.guardsInstalled <==> b.guards.Some?)
    && (proof.markerPresent <==> e.marker.Some?)
    && proof.filterGeneration == b.generation
    && (e.marker.Some? ==> proof.revision == e.marker.value.revision && proof.policyDigest == e.marker.value.digest)
    && (e.marker.None? && b.guards.Some? ==> proof.revision == b.guards.value.policy.revision && proof.policyDigest == b.guards.value.digest)
    && (e.marker.None? && b.guards.None? && b.dataPlane.None? ==> proof.revision == 0 && proof.policyDigest == ZeroDigest())
    && (proof.coreHealthy <==> e.phase == Armed && e.health.core)
    && (proof.relayHealthy <==> e.phase == Armed && e.health.relay)
    && (proof.dnsHealthy <==> e.phase == Armed && e.health.dns)
    && proof.capabilities <= (if e.phase == Armed && b.dataPlane.Some? then e.health.capabilities else RequiredForBlockOnly())
  }

  lemma StatusIsTrue(e: Engine, w: World, capabilities: set<Capability>)
    ensures Truthful(Spec.StatusOf(e, Inventory(w.now.image.backend, capabilities)), e, w)
  {
  }

  /** The reply says what the inventory it was made from says, which is the inventory of
      the filters it leaves. */
  predicate Faithful(r: Spec.Reply) {
    r.result.Ok? ==> Truthful(r.result.value, r.s.e, r.s.w)
  }

  lemma InstallFirstIsTrue(e: Engine, w: World, preparing: Marker)
    requires e.lease.Some?
    ensures Faithful(Spec.InstallFirst(e, w, preparing))
  {
  }

  lemma RebindIsTrue(e: Engine, w: World, marker: Marker)
    requires e.lease.Some?
    ensures Faithful(Spec.Rebind(e, w, marker))
  {
  }

  lemma SuccessorIsTrue(rules: Rules, e: Engine, w: World, policy: Policy)
    ensures Faithful(Spec.InstallSuccessor(rules, e, w, policy))
  {
  }

  lemma ForceBlockingIsTrue(e: Engine, w: World, revision: nat)
    ensures Faithful(Spec.ForceBlocking(e, w, revision))
  {
  }

  lemma CompleteDisableIsTrue(e: Engine, w: World, marker: Marker)
    ensures Faithful(Spec.CompleteDisable(e, w, marker))
  {
  }

  lemma ArmIsTrue(e: Engine, w: World, marker: Marker, health: Spec.ForwardingHealth)
    ensures Faithful(Spec.Arm(e, w, marker, health))
  {
  }

  lemma RecoverIsTrue(rules: Rules, e: Engine, w: World)
    ensures Faithful(Spec.Recover(rules, e, w))
  {
    var (w1, record) := Load(w);
    if record.None? { return; }
    var loaded := e.(storeLoaded := true, highWatermark := record.value.highWatermark);
    var (w2, snapshot) := TakeSnapshot(w1);
    if snapshot.None? { return; }
    if record.value.marker.None? {
      StatusIsTrue(loaded.(marker := None, phase := Disabled), w2, Head(w1).capabilities);
    } else {
      RecoverMarkedIsTrue(rules, loaded, w2, record.value, snapshot.value);
    }
  }

  lemma RecoverMarkedIsTrue(rules: Rules, e: Engine, w: World, record: Record, snapshot: Snapshot)
    requires record.marker.Some?
    ensures Faithful(Spec.RecoverMarked(rules, e, w, record, snapshot))
  {
    var marker := record.marker.value;
    var recovering := e.(marker := Some(marker), phase := Recovering, health := Spec.NO_HEALTH);
    CompleteDisableIsTrue(recovering, w, marker);
    var verified := Verify(w).0;
    var leased := recovering.(lease := Some(marker.policy));
    RebindIsTrue(leased, verified, marker);
    RebindIsTrue(leased, TakeSnapshot(RemoveDataPlane(verified).0).0, marker);
  }

  lemma PrepareIsTrue(rules: Rules, e: Engine, w: World, policy: Policy)
    ensures Faithful(Spec.Prepare(rules, e, w, policy))
  {
    var (s, loaded) := Spec.LoadStoreOnce(e, w);
    if !loaded { return; }
    if s.e.marker.None? {
      var preparing := PreparingMarker(policy, rules.digest(policy));
      InstallFirstIsTrue(s.e.(lease := Some(policy), highWatermark := policy.revision, marker := Some(preparing),
                              phase := Preparing, health := Spec.NO_HEALTH), Persist(Verify(s.w).0, preparing).0, preparing);
    } else if s.e.marker.value.policy == policy && s.e.marker.value.phase != Disabling {
      RecoverIsTrue(rules, s.e, s.w);
    } else {
      var blocked := Spec.ForceBlocking(s.e, Verify(s.w).0, s.e.marker.value.revision);
      SuccessorIsTrue(rules, blocked.s.e, blocked.s.w, policy);
    }
  }

  /** Whatever fails on the way: a command that answers at all tells the truth, field by
      field, about the engine and the filters it leaves. */
  lemma EveryReplyIsTrue(rules: Rules, e: Engine, w: World, command: Command)
    ensures var r := Execute(rules, e, w, command);
            r.result.Ok? ==> Truthful(r.result.value, r.s.e, r.s.w)
  {
    match command
    case Prepare(policy) => PrepareIsTrue(rules, e, w, policy);
    case Commit(revision, digest, health) =>
      if Spec.MatchesCurrent(e, revision, digest) && e.lease.Some? {
        var marker := e.marker.value;
        ArmIsTrue(e, InstallDataPlane(w, marker.policy, e.lease.value, marker.digest).0, marker, health);
      }
    case ForceBlocking(revision) => ForceBlockingIsTrue(e, w, revision);
    case ForceBlockingIfActive =>
      if e.marker.Some? { ForceBlockingIsTrue(e, w, e.marker.value.revision); } else { StatusIsTrue(e, w, Head(w).capabilities); }
    case Disable(revision) =>
      if e.marker.Some? {
        var disabling := e.marker.value.WithPhase(Disabling, e.marker.value.filterGeneration);
        CompleteDisableIsTrue(e.(marker := Some(disabling), phase := Recovering, health := Spec.NO_HEALTH),
                              Persist(w, disabling).0, disabling);
      }
    case Recover => RecoverIsTrue(rules, e, w);
    case Status => StatusIsTrue(e, w, Head(w).capabilities);
  }

  /** A status is answered exactly when the filters can be read, and changes nothing. So
      is a teardown without a live policy. */
  lemma StatusAnswersExactly(e: Engine, w: World)
    ensures (Spec.Status(e, w).result.Ok? <==> AllWork(w.script, 1))
    ensures Spec.Status(e, w).s.e == e && Spec.Status(e, w).s.w.now == w.now && Spec.Status(e, w).s.w.trace == w.trace
    ensures e.marker.None? ==> Spec.ForceBlockingIfActive(e, w) == Spec.Status(e, w)
  {
  }

  // ----- A Broker without a policy -------------------------------------------

  /** Recovery of a store without a marker comes up disabled exactly when the store and
      the filters can be read; it changes nothing durable. */
  lemma EmptyStoreRecovers(rules: Rules, e: Engine, w: World)
    requires Inv(rules, e, w) && w.now.image.store.marker.None?
    ensures var r := Spec.Recover(rules, e, w);
            && (r.result.Ok? <==> AllWork(w.script, 2))
            && r.s.w.now == w.now && r.s.w.trace == w.trace
            && (r.result.Ok? ==>
                  && r.s.e == e.(phase := Disabled, marker := None, storeLoaded := true, highWatermark := w.now.image.store.highWatermark)
                  && r.result.value.phase == Disabled
                  && r.result.value.proof.revision == 0 && r.result.value.proof.policyDigest == ZeroDigest()
                  && !r.result.value.proof.guardsInstalled && !r.result.value.proof.markerPresent
                  && !r.result.value.proof.coreHealthy && !r.result.value.proof.relayHealthy && !r.result.value.proof.dnsHealthy)
  {
  }

  /** So a new Broker starts from every crash image of every run whose store holds no
      marker, in particular from the blank one and after every completed disable. */
  lemma EmptyCrashImageRecovers(rules: Rules, events: seq<Event>, i: nat, script: seq<Answer>)
    requires i < |Run(rules, events).w.trace| && AllWork(script, 2)
    requires Run(rules, events).w.trace[i].image.store.marker.None?
    ensures var crash := Run(rules, events).w.trace[i];
            var r := Spec.Recover(rules, Spec.NEW_ENGINE, World(crash, script, []));
            && r.result.Ok? && r.s.w.now == crash
            && r.s.e == Spec.NEW_ENGINE.(storeLoaded := true, highWatermark := crash.image.store.highWatermark)
            && r.result.value.proof.revision == 0 && !r.result.value.proof.guardsInstalled && !r.result.value.proof.markerPresent
  {
    RunKeeps(rules, events);
    var w := World(Run(rules, events).w.trace[i], script, []);
    assert MomentOk(rules, w.now);
    EmptyStoreRecovers(rules, Spec.NEW_ENGINE, w);
  }

  // ----- Prepare again -------------------------------------------------------

  /** While a disable is unfinished no policy is prepared, its own neither. */
  lemma UnfinishedDisableRefuses(rules: Rules, e: Engine, w: World, policy: Policy)
    requires e.marker.Some? && e.marker.value.phase == Disabling && e.storeLoaded
    ensures Spec.Prepare(rules, e, w, policy) == Spec.Reply(Spec.State(e, w), Err)
  {
  }

  // ----- The proof of a disable ----------------------------------------------

  /** A disable that succeeds leaves nothing and says so; the generation and the
      capabilities it reports are the backend's own. */
  lemma DisableProvesNothingLeft(rules: Rules, e: Engine, w: World, revision: nat)
    requires Inv(rules, e, w) && Spec.Disable(e, w, revision).result.Ok?
    ensures var r := Spec.Disable(e, w, revision);
            var proof := r.result.value.proof;
            && r.s.e.phase == Disabled && r.s.e.marker == None && r.s.e.lease == None
            && r.s.w.now.image.backend.guards == None && r.s.w.now.image.backend.dataPlane == None
            && r.s.w.now.image.store == Record(w.now.image.store.highWatermark, None)
            && proof.revision == 0 && proof.policyDigest == ZeroDigest()
            && !proof.guardsInstalled && !proof.markerPresent && !proof.coreHealthy && !proof.relayHealthy && !proof.dnsHealthy
            && proof.filterGeneration == r.s.w.now.image.backend.generation
  {
    var disabling := e.marker.value.WithPhase(Disabling, e.marker.value.filterGeneration);
    EveryReplyIsTrue(rules, e, w, Disable(revision));
    CompleteDisableLeavesNothing(e.(marker := Some(disabling), phase := Recovering, health := Spec.NO_HEALTH),
                                 Persist(w, disabling).0, disabling);
  }

  lemma CompleteDisableLeavesNothing(e: Engine, w: World, marker: Marker)
    requires Spec.CompleteDisable(e, w, marker).result.Ok?
    ensures var r := Spec.CompleteDisable(e, w, marker);
            && r.s.e.phase == Disabled && r.s.e.marker == None && r.s.e.lease == None
            && r.s.w.now.image.backend.guards == None && r.s.w.now.image.backend.dataPlane == None
            && r.s.w.now.image.store == w.now.image.store.(marker := None)
  {
  }
}
