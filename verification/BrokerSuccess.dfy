/** When nothing fails: exactly which commands the engine carries out, what they
    leave behind, and that a disable undoes a prepare and a commit. */
module BrokerSuccess {
  import opened Wrappers
  import opened StrictContract
  import opened BrokerWorld
  import opened BrokerSpec
  import opened BrokerInvariant
  import opened BrokerRuns

  /** Rules for a policy verified as itself, labelled with its digest. */
  predicate AreRulesOf(held: Option<RuleSet>, policy: Policy, digest: string) {
    held.Some? && held.value.policy == policy && held.value.verifiedFor == policy && SameDigest(held.value.digest, digest)
  }

  /** Guards, marker and engine all stand for one policy in one phase. */
  predicate Stands(s: BrokerSpec.State, policy: Policy, phase: BrokerPhase) {
    var b := s.w.now.image.backend;
    && s.e.phase == phase && s.e.marker.Some? && s.e.marker.value.policy == policy && s.e.marker.value.phase == phase
    && s.e.marker.value.filterGeneration == b.generation
    && s.w.now.image.store.marker == s.e.marker
    && AreRulesOf(b.guards, policy, s.e.marker.value.digest)
    && (if phase == Armed && HasProxyEntries(policy)
        then AreRulesOf(b.dataPlane, policy, s.e.marker.value.digest) else b.dataPlane == None)
  }

  /** The watermark a prepare compares against. */
  function Watermark(e: BrokerSpec.Engine, w: World): nat {
    if e.storeLoaded then e.highWatermark else w.now.image.store.highWatermark
  }

  lemma PrepareFreshSucceeds(rules: Rules, e: BrokerSpec.Engine, w: World, policy: Policy)
    requires AllWork(w.script, 5) && ValidPolicy(rules, policy)
    requires e.highWatermark < policy.revision && e.storeLoaded
    ensures var r := PrepareFresh(rules, e, w, policy);
            && (r.result.Ok? <==> w.now.image.backend.dataPlane.None?)
            && (r.result.Ok? ==> Stands(r.s, policy, SettledPhase(policy)) && r.s.e.lease == Some(policy))
  {
  }

  /** A first prepare succeeds exactly for a valid policy above every revision ever
      used, when the store holds no marker yet unread and no redirects are left over. */
  lemma PrepareSucceedsExactly(rules: Rules, e: BrokerSpec.Engine, w: World, policy: Policy)
    requires Inv(rules, e, w) && e.marker.None? && AllWork(w.script, 6)
    ensures var r := BrokerSpec.Prepare(rules, e, w, policy);
            && (r.result.Ok? <==>
                  && (e.storeLoaded || w.now.image.store.marker.None?)
                  && ValidPolicy(rules, policy) && policy.revision > Watermark(e, w)
                  && w.now.image.backend.dataPlane.None?)
            && (r.result.Ok? ==> Stands(r.s, policy, SettledPhase(policy)) && r.s.e.lease == Some(policy)
                                 && r.s.e.highWatermark == policy.revision)
  {
    var loaded := LoadStoreOnce(e, w);
    if loaded.1 && ValidPolicy(rules, policy) && policy.revision > Watermark(e, w) {
      PrepareFreshSucceeds(rules, loaded.0.e, loaded.0.w, policy);
    }
  }

  // ----- Commit --------------------------------------------------------------

  /** What the engine holds between two commands once a policy stands: the lease of
      its own policy and the guards labelled with its own digest. */
  predicate Holds(e: BrokerSpec.Engine, w: World) {
    && e.marker.Some? && e.lease == Some(e.marker.value.policy)
    && AreRulesOf(w.now.image.backend.guards, e.marker.value.policy, e.marker.value.digest)
  }

  /** What a commit is refused for without touching anything. */
  predicate MayCommit(e: BrokerSpec.Engine, revision: nat, digest: string, health: ForwardingHealth) {
    && MatchesCurrent(e, revision, digest) && HasProxyEntries(e.marker.value.policy)
    && e.phase == Blocking && CompleteFor(health, e.marker.value.policy) && e.lease.Some?
  }

  /** With nothing failing, a commit arms exactly a blocked proxy policy of the given
      revision and digest whose forwarding is healthy and whose backend attests to
      every required capability. Otherwise no redirect is left behind. */
  lemma CommitSucceedsExactly(rules: Rules, e: BrokerSpec.Engine, w: World, revision: nat, digest: string, health: ForwardingHealth)
    requires Inv(rules, e, w) && AllWork(w.script, 5)
    ensures var r := BrokerSpec.Commit(e, w, revision, digest, health);
            && (r.result.Ok? <==>
                  MayCommit(e, revision, digest, health) && RequiredCapabilities(e.marker.value.policy) <= w.script[1].capabilities)
            && (r.result.Ok? ==> Stands(r.s, e.marker.value.policy, Armed) && r.s.e.health == health)
            && (r.result.Err? && MayCommit(e, revision, digest, health) ==> Stands(r.s, e.marker.value.policy, Blocking))
            && (!MayCommit(e, revision, digest, health) ==> r.s == BrokerSpec.State(e, w))
  {
    if MayCommit(e, revision, digest, health) {
      BlockedHolds(rules, e, w);
      ArmSucceeds(e, InstallDataPlane(w, e.marker.value.policy, e.lease.value, e.marker.value.digest).0, health);
    }
  }

  lemma BlockedHolds(rules: Rules, e: BrokerSpec.Engine, w: World)
    requires Inv(rules, e, w) && e.phase == Blocking && e.lease.Some?
    ensures Holds(e, w)
  {
    assert RuleOk(rules, w.now.image.backend.guards.value);
  }

  lemma ArmSucceeds(e: BrokerSpec.Engine, w: World, health: ForwardingHealth)
    requires AllWork(w.script, 4) && Holds(e, w) && e.phase == Blocking && HasProxyEntries(e.marker.value.policy)
    requires AreRulesOf(w.now.image.backend.dataPlane, e.marker.value.policy, e.marker.value.digest) && e.marker.value.revision == e.marker.value.policy.revision
    ensures var r := Arm(e, w, e.marker.value, health);
            && (r.result.Ok? <==> RequiredCapabilities(e.marker.value.policy) <= w.script[0].capabilities)
            && (r.result.Ok? ==> Stands(r.s, e.marker.value.policy, Armed) && r.s.e.health == health)
            && (r.result.Err? ==> Stands(r.s, e.marker.value.policy, Blocking))
  {
    if !(RequiredCapabilities(e.marker.value.policy) <= w.script[0].capabilities) {
      RollbackSucceeds(e, TakeSnapshot(w).0);
    }
  }

  lemma RollbackSucceeds(e: BrokerSpec.Engine, w: World)
    requires AllWork(w.script, 3) && Holds(e, w) && e.marker.value.revision == e.marker.value.policy.revision
    ensures var r := RollbackRedirects(e, w, e.marker.value);
            r.1 && Stands(r.0, e.marker.value.policy, Blocking)
  {
  }

  // ----- Stopping ------------------------------------------------------------

  /** With nothing failing, forced blocking succeeds exactly for the live revision
      with its own guards installed, and always takes the redirects down. */
  lemma ForceBlockingSucceedsExactly(rules: Rules, e: BrokerSpec.Engine, w: World, revision: nat)
    requires Inv(rules, e, w) && AllWork(w.script, 3)
    ensures var r := BrokerSpec.ForceBlocking(e, w, revision);
            var live := e.marker.Some? && e.marker.value.revision == revision;
            && (r.result.Ok? <==> live && w.now.image.backend.guards.Some?
                                  && w.now.image.backend.guards.value.policy.revision == revision)
            && (live ==> r.s.w.now.image.backend.dataPlane == None
                         && r.s.w.now.image.backend.guards == w.now.image.backend.guards)
            && (r.result.Ok? ==> r.s.e.phase == SettledPhase(e.marker.value.policy)
                                 && r.s.w.now.image.store.marker == r.s.e.marker)
            && (!live ==> r.s == BrokerSpec.State(e, w))
  {
    if e.marker.Some? {
      GuardsOfTheLiveRevision(rules, e, w);
    }
  }

  /** Installed guards of the live revision are those of the live policy. */
  lemma GuardsOfTheLiveRevision(rules: Rules, e: BrokerSpec.Engine, w: World)
    requires Inv(rules, e, w) && e.marker.Some?
    ensures w.now.image.backend.guards.Some? && w.now.image.backend.guards.value.policy.revision == e.marker.value.revision ==>
      SameDigest(w.now.image.backend.guards.value.digest, e.marker.value.digest)
  {
    if w.now.image.backend.guards.Some? && w.now.image.backend.guards.value.policy.revision == e.marker.value.revision {
      assert w.now.image.backend.guards.value.policy == e.marker.value.policy;
    }
  }

  /** With nothing failing, a disable succeeds exactly for the live revision with no
      foreign guards installed, and then leaves nothing but the watermark. */
  lemma DisableSucceedsExactly(rules: Rules, e: BrokerSpec.Engine, w: World, revision: nat)
    requires Inv(rules, e, w) && AllWork(w.script, 6)
    ensures var r := BrokerSpec.Disable(e, w, revision);
            var live := e.marker.Some? && e.marker.value.revision == revision;
            var b := w.now.image.backend;
            && (r.result.Ok? <==> live && (b.guards.Some? ==> b.guards.value.policy.revision == revision))
            && (r.result.Ok? ==>
                  && r.s.w.now.image.backend.guards == None && r.s.w.now.image.backend.dataPlane == None
                  && r.s.w.now.image.store == Record(w.now.image.store.highWatermark, None)
                  && r.s.e == e.(marker := None, lease := None, phase := Disabled, health := NO_HEALTH))
            && (!live ==> r.s == BrokerSpec.State(e, w))
  {
    if e.marker.Some? && e.marker.value.revision == revision {
      GuardsOfTheLiveRevision(rules, e, w);
      var disabling := e.marker.value.WithPhase(Disabling, e.marker.value.filterGeneration);
      CompleteDisableOutcome(e.(marker := Some(disabling), phase := Recovering, health := NO_HEALTH), Persist(w, disabling).0, disabling);
    }
  }

  // ----- Migration -----------------------------------------------------------

  lemma SuccessorStands(rules: Rules, e: BrokerSpec.Engine, w: World, policy: Policy)
    requires AllWork(w.script, 4) && w.now.image.backend.dataPlane.None?
    ensures var r := InstallSuccessor(rules, e, w, policy);
            r.result.Ok? && Stands(r.s, policy, SettledPhase(policy)) && r.s.e.lease == Some(policy)
  {
  }

  /** With nothing failing, an identity migration succeeds exactly for a valid
      successor above the watermark while the live policy is guarded, and then the
      successor stands, blocked until it is committed. */
  lemma MigrationSucceedsExactly(rules: Rules, e: BrokerSpec.Engine, w: World, policy: Policy)
    requires Inv(rules, e, w) && e.marker.Some? && AllWork(w.script, 8)
    ensures var source := e.marker.value;
            var r := MigrateIdentity(rules, e, w, policy);
            && (r.result.Ok? <==>
                  && ValidMigration(rules, source.policy, policy) && source.phase != Disabling && policy.revision > e.highWatermark
                  && w.now.image.backend.guards.Some? && w.now.image.backend.guards.value.policy.revision == source.revision)
            && (r.result.Ok? ==> Stands(r.s, policy, SettledPhase(policy)) && r.s.e.lease == Some(policy))
  {
    var source := e.marker.value;
    if ValidMigration(rules, source.policy, policy) && source.phase != Disabling && policy.revision > e.highWatermark {
      var verified := Verify(w).0;
      assert Inv(rules, e, verified);
      ForceBlockingSucceedsExactly(rules, e, verified, source.revision);
      var blocked := BrokerSpec.ForceBlocking(e, verified, source.revision);
      if blocked.result.Ok? {
        SuccessorStands(rules, blocked.s.e, blocked.s.w, policy);
      }
    }
  }
}
