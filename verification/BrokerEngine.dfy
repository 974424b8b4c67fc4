/** The Broker engine as the source writes it: fields updated between fallible
    calls, proved against `BrokerSpec`. */
module BrokerEngineModule {
  import opened Wrappers
  import opened StrictContract
  import opened BrokerWorld
  import Spec = BrokerSpec
  import opened BrokerInvariant
  import opened BrokerSafety
  import BrokerRuns

  /** Nothing is forgotten, and at every instant since `from` the image is one of two. */
  predicate Atomically(from: World, to: World, before: Image, after: Image) {
    && from.trace <= to.trace && to.now.image in {before, after}
    && forall i :: |from.trace| <= i < |to.trace| ==> to.trace[i].image in {before, after}
  }

  /** Backend, store and verifier behind their trait contracts. A mutation that succeeds
      has happened; one that fails may have happened, but never in part. */
  class Host {
    var world: World

    constructor (world: World)
      ensures this.world == world
    {
      this.world := world;
    }

    method InstallGuards(policy: Policy, verifiedFor: Policy, digest: string) returns (ok: bool)
      modifies this
      ensures (world, ok) == BrokerWorld.InstallGuards(old(world), policy, verifiedFor, digest)
      ensures ok ==> world.now.image.backend.guards == Some(RuleSet(policy, digest, verifiedFor))
      ensures world.now.image.backend.guards in {old(world).now.image.backend.guards, Some(RuleSet(policy, digest, verifiedFor))}
      ensures world.now.image.backend.dataPlane == old(world).now.image.backend.dataPlane
      ensures world.now.image.store == old(world).now.image.store
      ensures world.now.installs == old(world).now.installs + [RuleSet(policy, digest, verifiedFor)]
      ensures Atomically(old(world), world, old(world).now.image, world.now.image)
    {
      var r := BrokerWorld.InstallGuards(world, policy, verifiedFor, digest);
      world, ok := r.0, r.1;
    }

    method InstallDataPlane(policy: Policy, verifiedFor: Policy, digest: string) returns (ok: bool)
      modifies this
      ensures (world, ok) == BrokerWorld.InstallDataPlane(old(world), policy, verifiedFor, digest)
      ensures ok ==> world.now.image.backend.dataPlane == Some(RuleSet(policy, digest, verifiedFor))
      ensures world.now.image.backend.dataPlane in {old(world).now.image.backend.dataPlane, Some(RuleSet(policy, digest, verifiedFor))}
      ensures world.now.image.backend.guards == old(world).now.image.backend.guards
      ensures world.now.image.store == old(world).now.image.store && world.now.installs == old(world).now.installs
      ensures Atomically(old(world), world, old(world).now.image, world.now.image)
    {
      var r := BrokerWorld.InstallDataPlane(world, policy, verifiedFor, digest);
      world, ok := r.0, r.1;
    }

    method RemoveDataPlane() returns (ok: bool)
      modifies this
      ensures (world, ok) == BrokerWorld.RemoveDataPlane(old(world))
      ensures ok ==> world.now.image.backend.dataPlane == None
      ensures world.now.image.backend.dataPlane in {old(world).now.image.backend.dataPlane, None}
      ensures world.now.image.backend.guards == old(world).now.image.backend.guards
      ensures world.now.image.store == old(world).now.image.store && world.now.installs == old(world).now.installs
      ensures Atomically(old(world), world, old(world).now.image, world.now.image)
    {
      var r := BrokerWorld.RemoveDataPlane(world);
      world, ok := r.0, r.1;
    }

    method RemoveGuards() returns (ok: bool)
      modifies this
      ensures (world, ok) == BrokerWorld.RemoveGuards(old(world))
      ensures ok ==> world.now.image.backend.guards == None
      ensures world.now.image.backend.guards in {old(world).now.image.backend.guards, None}
      ensures world.now.image.backend.dataPlane == old(world).now.image.backend.dataPlane
      ensures world.now.image.store == old(world).now.image.store && world.now.installs == old(world).now.installs
      ensures Atomically(old(world), world, old(world).now.image, world.now.image)
    {
      var r := BrokerWorld.RemoveGuards(world);
      world, ok := r.0, r.1;
    }

    method TakeSnapshot() returns (snapshot: Option<Snapshot>)
      modifies this
      ensures (world, snapshot) == BrokerWorld.TakeSnapshot(old(world))
      ensures world.now == old(world).now && world.trace == old(world).trace
      ensures snapshot.Some? ==>
                && (snapshot.value.guardsInstalled <==> world.now.image.backend.guards.Some?)
                && (snapshot.value.dataPlaneInstalled <==> world.now.image.backend.dataPlane.Some?)
                && snapshot.value.filterGeneration == world.now.image.backend.generation
                && (snapshot.value.revision.None? <==> !snapshot.value.guardsInstalled && !snapshot.value.dataPlaneInstalled)
                && (snapshot.value.guardsInstalled ==>
                      snapshot.value.revision == Some(world.now.image.backend.guards.value.policy.revision)
                      && snapshot.value.digest == Some(world.now.image.backend.guards.value.digest))
    {
      var r := BrokerWorld.TakeSnapshot(world);
      world, snapshot := r.0, r.1;
    }

    method Load() returns (record: Option<Record>)
      modifies this
      ensures (world, record) == BrokerWorld.Load(old(world))
      ensures world.now == old(world).now && world.trace == old(world).trace
      ensures record.Some? ==> record.value == world.now.image.store
    {
      var r := BrokerWorld.Load(world);
      world, record := r.0, r.1;
    }

    method Persist(marker: Marker) returns (ok: bool)
      modifies this
      ensures (world, ok) == BrokerWorld.Persist(old(world), marker)
      ensures world.now.image.store.highWatermark >= old(world).now.image.store.highWatermark
      ensures ok ==> world.now.image.store.marker == Some(marker) && world.now.image.store.highWatermark >= marker.revision
      ensures world.now.image.store == old(world).now.image.store || world.now.image.store.marker == Some(marker)
      ensures world.now.image.store.highWatermark in {old(world).now.image.store.highWatermark, marker.revision}
      ensures world.now.image.backend == old(world).now.image.backend && world.now.installs == old(world).now.installs
      ensures Atomically(old(world), world, old(world).now.image, world.now.image)
    {
      var r := BrokerWorld.Persist(world, marker);
      world, ok := r.0, r.1;
    }

    method ClearMarker() returns (ok: bool)
      modifies this
      ensures (world, ok) == BrokerWorld.ClearMarker(old(world))
      ensures ok ==> world.now.image.store.marker == None
      ensures world.now.image.store.marker in {old(world).now.image.store.marker, None}
      ensures world.now.image.store.highWatermark == old(world).now.image.store.highWatermark
      ensures world.now.image.backend == old(world).now.image.backend && world.now.installs == old(world).now.installs
      ensures Atomically(old(world), world, old(world).now.image, world.now.image)
    {
      var r := BrokerWorld.ClearMarker(world);
      world, ok := r.0, r.1;
    }

    method Verify() returns (ok: bool)
      modifies this
      ensures (world, ok) == BrokerWorld.Verify(old(world))
      ensures world.now == old(world).now && world.trace == old(world).trace
    {
      var r := BrokerWorld.Verify(world);
      world, ok := r.0, r.1;
    }
  }

  /** The guards of the live policy are installed. */
  predicate Guarded(e: Spec.Engine, w: World) {
    && e.marker.Some? && w.now.image.backend.guards.Some?
    && w.now.image.backend.guards.value.policy == e.marker.value.policy
  }

  /** A live marker is stored and nothing fails for as long as a recovery takes. */
  predicate Recoverable(w: World) {
    && w.now.image.store.marker.Some? && w.now.image.store.marker.value.phase != Disabling
    && BrokerRuns.AllWork(w.script, 8)
  }

  type EngineResult = Result<Spec.BrokerStatus>

  class BrokerEngine {
    const rules: Rules
    const host: Host
    var currentMarker: Option<Marker>
    var highWatermark: nat
    var storeLoaded: bool
    var phase: BrokerPhase
    var forwardingHealth: Spec.ForwardingHealth
    var verificationLease: Option<Policy>

    function View(): Spec.Engine
      reads this
    {
      Spec.Engine(currentMarker, highWatermark, storeLoaded, phase, forwardingHealth, verificationLease)
    }

    /** The crash invariant of the engine and everything it has done so far. */
    ghost predicate Safe()
      reads this, host
    {
      Inv(rules, View(), host.world)
    }

    /** The engine and its world together with what the caller was told. */
    function After(r: EngineResult): Spec.Reply
      reads this, host
    {
      Spec.Reply(Spec.State(View(), host.world), r)
    }

    constructor (rules: Rules, host: Host)
      ensures this.host == host && this.rules == rules
      ensures View() == Spec.NEW_ENGINE
      ensures TraceOk(rules, host.world) ==> Safe()
    {
      this.rules, this.host := rules, host;
      currentMarker, highWatermark, storeLoaded := None, 0, false;
      phase, forwardingHealth, verificationLease := Disabled, Spec.NO_HEALTH, None;
    }

    method Status() returns (r: EngineResult)
      modifies host
      ensures After(r) == Spec.Status(old(View()), old(host.world))
      ensures old(Safe()) ==> Keeps(rules, After(r))
    {
      if Safe() { StatusKeeps(rules, View(), host.world); }
      var snapshot := host.TakeSnapshot();
      if snapshot.None? { return Err; }
      return Ok(Spec.StatusOf(View(), snapshot.value));
    }

    method LoadStoreOnce() returns (ok: bool)
      modifies this, host
      ensures (Spec.State(View(), host.world), ok) == Spec.LoadStoreOnce(old(View()), old(host.world))
    {
      if storeLoaded { return true; }
      var record := host.Load();
      if record.None? || record.value.marker.Some? { return false; }
      highWatermark := record.value.highWatermark;
      storeLoaded := true;
      return true;
    }

    method Prepare(policy: Policy) returns (r: EngineResult)
      modifies this, host
      ensures After(r) == Spec.Prepare(rules, old(View()), old(host.world), policy)
      ensures old(Safe()) ==> Keeps(rules, After(r))
    {
      if Safe() { PrepareKeeps(rules, View(), host.world, policy); }
      var loaded := LoadStoreOnce();
      if !loaded { return Err; }
      if currentMarker.Some? {
        if currentMarker.value.policy == policy && currentMarker.value.phase != Disabling {
          r := Recover();
          return;
        }
        r := MigrateIdentity(policy);
        return;
      }
      r := PrepareFresh(policy);
    }

    /** A first preparation, once no marker is live. */
    method PrepareFresh(policy: Policy) returns (r: EngineResult)
      modifies this, host
      ensures After(r) == Spec.PrepareFresh(rules, old(View()), old(host.world), policy)
    {
      if !ValidPolicy(rules, policy) { return Err; }
      if |policy.entries| > MAX_STRICT_APPLICATIONS { return Err; }
      if policy.revision <= highWatermark { return Err; }
      var verified := host.Verify();
      if !verified { return Err; }
      var preparing := PreparingMarker(policy, rules.digest(policy));
      var persisted := host.Persist(preparing);
      if !persisted { return Err; }
      verificationLease := Some(policy);
      highWatermark := preparing.revision;
      currentMarker := Some(preparing);
      phase := Preparing;
      forwardingHealth := Spec.NO_HEALTH;
      var installed := host.InstallGuards(preparing.policy, verificationLease.value, preparing.digest);
      if !installed { return Err; }
      var snapshot := host.TakeSnapshot();
      if snapshot.None? || !Spec.SnapshotMatches(snapshot.value, preparing, true, false) { return Err; }
      var next := Spec.SettledPhase(preparing.policy);
      var settled := preparing.WithPhase(next, snapshot.value.filterGeneration);
      currentMarker := Some(settled);
      phase := next;
      var stored := host.Persist(settled);
      if !stored { return Err; }
      return Ok(Spec.StatusOf(View(), snapshot.value));
    }

    method MigrateIdentity(policy: Policy) returns (r: EngineResult)
      requires currentMarker.Some?
      modifies this, host
      ensures After(r) == Spec.MigrateIdentity(rules, old(View()), old(host.world), policy)
      ensures old(Safe()) ==> Keeps(rules, After(r))
      ensures Guarded(old(View()), old(host.world)) ==>
                BrokerRuns.CoveredSince(host.world, |old(host.world).trace|, old(currentMarker).value.policy)
    {
      if Guarded(View(), host.world) { BrokerRuns.MigrationNeverUncovers(rules, View(), host.world, policy); }
      if Safe() { MigrateKeeps(rules, View(), host.world, policy); }
      if !ValidPolicy(rules, policy) { return Err; }
      var source := currentMarker.value;
      if source.phase == Disabling || policy.revision <= highWatermark
         || |source.policy.entries| != |policy.entries| { return Err; }
      if !ValidMigration(rules, source.policy, policy) { return Err; }
      var verified := host.Verify();
      if !verified { return Err; }
      var blocked := ForceBlocking(source.revision);
      if blocked.Err? { return Err; }
      r := InstallSuccessor(policy);
    }

    /** The part of a migration after the old policy is blocked. */
    method InstallSuccessor(policy: Policy) returns (r: EngineResult)
      modifies this, host
      ensures After(r) == Spec.InstallSuccessor(rules, old(View()), old(host.world), policy)
    {
      var preparing := PreparingMarker(policy, rules.digest(policy));
      var persisted := host.Persist(preparing);
      if !persisted { return Err; }
      highWatermark := preparing.revision;
      currentMarker := Some(preparing);
      phase := Preparing;
      verificationLease := Some(policy);
      var installed := host.InstallGuards(preparing.policy, verificationLease.value, preparing.digest);
      if !installed { return Err; }
      var snapshot := host.TakeSnapshot();
      if snapshot.None? || !Spec.SnapshotMatches(snapshot.value, preparing, true, false) { return Err; }
      var settled := preparing.WithPhase(Spec.SettledPhase(preparing.policy), snapshot.value.filterGeneration);
      var stored := host.Persist(settled);
      if !stored { return Err; }
      currentMarker := Some(settled);
      phase := settled.phase;
      return Ok(Spec.StatusOf(View(), snapshot.value));
    }

    method Commit(revision: nat, digest: string, health: Spec.ForwardingHealth) returns (r: EngineResult)
      modifies this, host
      ensures After(r) == Spec.Commit(old(View()), old(host.world), revision, digest, health)
      ensures old(Safe()) ==> Keeps(rules, After(r))
    {
      if Safe() { CommitKeeps(rules, View(), host.world, revision, digest, health); }
      if !Spec.MatchesCurrent(View(), revision, digest) { return Err; }
      var marker := currentMarker.value;
      if !HasProxyEntries(marker.policy) { return Err; }
      if phase != Blocking { return Err; }
      if !Spec.CompleteFor(health, marker.policy) { return Err; }
      if verificationLease.None? { return Err; }
      var installed := host.InstallDataPlane(marker.policy, verificationLease.value, marker.digest);
      if !installed {
        var _ := RollbackRedirects(marker);
        return Err;
      }
      var snapshot := host.TakeSnapshot();
      if snapshot.None? { return Err; }
      if !Spec.SnapshotMatches(snapshot.value, marker, true, true) {
        var _ := RollbackRedirects(marker);
        return Err;
      }
      if !(RequiredCapabilities(marker.policy) <= snapshot.value.capabilities) {
        var _ := RollbackRedirects(marker);
        return Err;
      }
      var armed := marker.WithPhase(Armed, snapshot.value.filterGeneration);
      var stored := host.Persist(armed);
      if !stored {
        var _ := RollbackRedirects(marker);
        return Err;
      }
      currentMarker := Some(armed);
      phase := Armed;
      forwardingHealth := health;
      return Ok(Spec.StatusOf(View(), snapshot.value));
    }

    method RollbackRedirects(marker: Marker) returns (ok: bool)
      modifies this, host
      ensures (Spec.State(View(), host.world), ok) == Spec.RollbackRedirects(old(View()), old(host.world), marker)
    {
      phase := Blocking;
      forwardingHealth := Spec.NO_HEALTH;
      var removed := host.RemoveDataPlane();
      if !removed { return false; }
      var snapshot := host.TakeSnapshot();
      if snapshot.None? || !Spec.SnapshotMatches(snapshot.value, marker, true, false) { return false; }
      var blocking := marker.WithPhase(Blocking, snapshot.value.filterGeneration);
      var stored := host.Persist(blocking);
      if !stored { return false; }
      currentMarker := Some(blocking);
      return true;
    }

    method ForceBlocking(revision: nat) returns (r: EngineResult)
      modifies this, host
      ensures After(r) == Spec.ForceBlocking(old(View()), old(host.world), revision)
      ensures old(Safe()) ==> Keeps(rules, After(r))
    {
      if Safe() { ForceBlockingKeeps(rules, View(), host.world, revision); }
      if currentMarker.None? || currentMarker.value.revision != revision { return Err; }
      var marker := currentMarker.value;
      var removed := host.RemoveDataPlane();
      if !removed { return Err; }
      var snapshot := host.TakeSnapshot();
      if snapshot.None? || !Spec.SnapshotMatches(snapshot.value, marker, true, false) { return Err; }
      var next := Spec.SettledPhase(marker.policy);
      phase := next;
      forwardingHealth := Spec.NO_HEALTH;
      var settled := marker.WithPhase(next, snapshot.value.filterGeneration);
      var stored := host.Persist(settled);
      if !stored { return Err; }
      currentMarker := Some(settled);
      return Ok(Spec.StatusOf(View(), snapshot.value));
    }

    method ForceBlockingIfActive() returns (r: EngineResult)
      modifies this, host
      ensures After(r) == Spec.ForceBlockingIfActive(old(View()), old(host.world))
      ensures old(Safe()) ==> Keeps(rules, After(r))
    {
      if currentMarker.None? { r := Status(); } else { r := ForceBlocking(currentMarker.value.revision); }
    }

    method Disable(revision: nat) returns (r: EngineResult)
      modifies this, host
      ensures After(r) == Spec.Disable(old(View()), old(host.world), revision)
      ensures old(Safe()) ==> Keeps(rules, After(r))
    {
      if Safe() { DisableKeeps(rules, View(), host.world, revision); }
      if currentMarker.None? || currentMarker.value.revision != revision { return Err; }
      var disabling := currentMarker.value.WithPhase(Disabling, currentMarker.value.filterGeneration);
      var persisted := host.Persist(disabling);
      if !persisted { return Err; }
      currentMarker := Some(disabling);
      phase := Recovering;
      forwardingHealth := Spec.NO_HEALTH;
      r := CompleteDisable(disabling);
    }

    method CompleteDisable(marker: Marker) returns (r: EngineResult)
      modifies this, host
      ensures After(r) == Spec.CompleteDisable(old(View()), old(host.world), marker)
    {
      var removed := host.RemoveDataPlane();
      if !removed { return Err; }
      var snapshot := host.TakeSnapshot();
      if snapshot.None? || snapshot.value.dataPlaneInstalled { return Err; }
      if snapshot.value.guardsInstalled {
        if !Spec.SnapshotMatches(snapshot.value, marker, true, false) { return Err; }
        var gone := host.RemoveGuards();
        if !gone { return Err; }
        snapshot := host.TakeSnapshot();
        if snapshot.None? || snapshot.value.guardsInstalled || snapshot.value.dataPlaneInstalled { return Err; }
      }
      var cleared := host.ClearMarker();
      if !cleared { return Err; }
      currentMarker := None;
      verificationLease := None;
      phase := Disabled;
      forwardingHealth := Spec.NO_HEALTH;
      return Ok(Spec.StatusOf(View(), snapshot.value));
    }

    method Recover() returns (r: EngineResult)
      modifies this, host
      ensures After(r) == Spec.Recover(rules, old(View()), old(host.world))
      ensures old(Safe()) ==> Keeps(rules, After(r))
      ensures old(Safe() && Recoverable(host.world)) ==>
                BrokerRuns.RecoveredTo(Spec.State(View(), host.world), r, old(host.world).now.image.store.marker.value,
                                       old(host.world).now.image.store.highWatermark)
    {
      if Safe() && Recoverable(host.world) { BrokerRuns.RecoverConverges(rules, View(), host.world); }
      if Safe() { RecoverKeeps(rules, View(), host.world); }
      var record := host.Load();
      if record.None? { return Err; }
      storeLoaded := true;
      highWatermark := record.value.highWatermark;
      var snapshot := host.TakeSnapshot();
      if snapshot.None? { return Err; }
      if record.value.marker.None? {
        if Spec.Orphaned(snapshot.value) { return Err; }
        currentMarker := None;
        phase := Disabled;
        return Ok(Spec.StatusOf(View(), snapshot.value));
      }
      r := RecoverMarked(record.value, snapshot.value);
    }

    method RecoverMarked(record: Record, snapshot: Snapshot) returns (r: EngineResult)
      requires record.marker.Some?
      modifies this, host
      ensures After(r) == Spec.RecoverMarked(rules, old(View()), old(host.world), record, snapshot)
    {
      var marker := record.marker.value;
      if !ValidMarker(rules, marker) { return Err; }
      if record.highWatermark < marker.revision { return Err; }
      currentMarker := Some(marker);
      phase := Recovering;
      forwardingHealth := Spec.NO_HEALTH;
      if marker.phase == Disabling {
        r := CompleteDisable(marker);
        return;
      }
      var verified := host.Verify();
      if !verified { return Err; }
      verificationLease := Some(marker.policy);
      if snapshot.dataPlaneInstalled {
        var removed := host.RemoveDataPlane();
        if !removed { return Err; }
        var after := host.TakeSnapshot();
        if after.None? || after.value.dataPlaneInstalled { return Err; }
      }
      var installed := host.InstallGuards(marker.policy, verificationLease.value, marker.digest);
      if !installed { return Err; }
      var rebound := host.TakeSnapshot();
      if rebound.None? || !Spec.SnapshotMatches(rebound.value, marker, true, false) { return Err; }
      var recovered := marker.WithPhase(Spec.SettledPhase(marker.policy), rebound.value.filterGeneration);
      var stored := host.Persist(recovered);
      if !stored { return Err; }
      currentMarker := Some(recovered);
      phase := recovered.phase;
      return Ok(Spec.StatusOf(View(), rebound.value));
    }
  }
}
