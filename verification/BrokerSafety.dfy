/** Every engine operation keeps the crash invariant, whatever the world answers. */
module BrokerSafety {
  import opened Wrappers
  import opened StrictContract
  import opened BrokerWorld
  import opened BrokerSpec
  import opened BrokerInvariant

  lemma StatusKeeps(rules: Rules, e: Engine, w: World)
    requires Inv(rules, e, w)
    ensures Keeps(rules, Status(e, w))
  {
    StatusSound(rules, e, w.now, Inventory(w.now.image.backend, Head(w).capabilities));
  }

  /** Settling a marker the backend already enforces: persist it, then adopt it. */
  lemma SettleKeeps(rules: Rules, e: Engine, w: World, phase: BrokerPhase, generation: nat)
    requires Inv(rules, e, w) && e.marker.Some? && phase in {Blocking, Armed, Disabling}
    ensures var settled := e.marker.value.WithPhase(phase, generation);
            && Inv(rules, e, Persist(w, settled).0)
            && Inv(rules, e.(marker := Some(settled)), Persist(w, settled).0)
            && Persist(w, settled).0.now.image.backend == w.now.image.backend
  {
    PersistKeeps(rules, w, e.marker.value.WithPhase(phase, generation));
  }

  lemma ForceBlockingKeeps(rules: Rules, e: Engine, w: World, revision: nat)
    requires Inv(rules, e, w)
    ensures Keeps(rules, ForceBlocking(e, w, revision))
    ensures ForceBlocking(e, w, revision).result.Ok? ==>
              var e' := ForceBlocking(e, w, revision).s.e;
              e'.highWatermark == e.highWatermark && e'.phase == SettledPhase(e.marker.value.policy)
  {
    if e.marker.None? || e.marker.value.revision != revision { return; }
    var marker := e.marker.value;
    RemoveDataPlaneKeeps(rules, e, w);
    var (w1, removed) := RemoveDataPlane(w);
    if !removed { return; }
    var (w2, snapshot) := TakeSnapshot(w1);
    if snapshot.None? || !SnapshotMatches(snapshot.value, marker, true, false) { return; }
    MatchIdentifiesPolicy(rules, e, w1, false);
    var e2 := e.(phase := SettledPhase(marker.policy), health := NO_HEALTH);
    SettleKeeps(rules, e2, w2, SettledPhase(marker.policy), snapshot.value.filterGeneration);
    var settled := marker.WithPhase(SettledPhase(marker.policy), snapshot.value.filterGeneration);
    StatusSound(rules, e2.(marker := Some(settled)), Persist(w2, settled).0.now, snapshot.value);
  }

  lemma RollbackKeeps(rules: Rules, e: Engine, w: World)
    requires Inv(rules, e, w) && e.phase == Blocking
    ensures Keeps(rules, RollBack(e, w, e.marker.value))
  {
    var marker := e.marker.value;
    var e1 := e.(phase := Blocking, health := NO_HEALTH);
    RemoveDataPlaneKeeps(rules, e1, w);
    var (w1, removed) := RemoveDataPlane(w);
    if !removed { return; }
    var (w2, snapshot) := TakeSnapshot(w1);
    if snapshot.None? || !SnapshotMatches(snapshot.value, marker, true, false) { return; }
    SettleKeeps(rules, e1, w2, Blocking, snapshot.value.filterGeneration);
  }

  lemma CommitKeeps(rules: Rules, e: Engine, w: World, revision: nat, digest: string, health: ForwardingHealth)
    requires Inv(rules, e, w)
    ensures Keeps(rules, Commit(e, w, revision, digest, health))
  {
    if !MatchesCurrent(e, revision, digest) { return; }
    var marker := e.marker.value;
    if !HasProxyEntries(marker.policy) || e.phase != Blocking || !CompleteFor(health, marker.policy) || e.lease.None? { return; }
    InstallDataPlaneKeeps(rules, e, w);
    var (w1, installed) := InstallDataPlane(w, marker.policy, e.lease.value, marker.digest);
    if !installed { RollbackKeeps(rules, e, w1); return; }
    ArmKeeps(rules, e, w1, health);
  }

  lemma ArmKeeps(rules: Rules, e: Engine, w: World, health: ForwardingHealth)
    requires Inv(rules, e, w) && e.phase == Blocking && CompleteFor(health, e.marker.value.policy)
    ensures Keeps(rules, Arm(e, w, e.marker.value, health))
  {
    var marker := e.marker.value;
    var (w2, snapshot) := TakeSnapshot(w);
    if snapshot.None? { return; }
    if !SnapshotMatches(snapshot.value, marker, true, true)
       || !(RequiredCapabilities(marker.policy) <= snapshot.value.capabilities) {
      RollbackKeeps(rules, e, w2);
      return;
    }
    var armed := marker.WithPhase(Armed, snapshot.value.filterGeneration);
    SettleKeeps(rules, e, w2, Armed, snapshot.value.filterGeneration);
    var (w3, stored) := Persist(w2, armed);
    if !stored { RollbackKeeps(rules, e, w3); return; }
    StatusSound(rules, e.(marker := Some(armed), phase := Armed, health := health), w3.now, snapshot.value);
  }

  lemma FinishDisableKeeps(rules: Rules, e: Engine, w: World, snapshot: Snapshot)
    requires Inv(rules, e, w) && e.phase !in {Blocking, Armed}
    requires snapshot == Inventory(w.now.image.backend, snapshot.capabilities)
    requires !snapshot.guardsInstalled
    ensures Keeps(rules, FinishDisable(e, w, snapshot))
  {
    ClearKeeps(rules, w);
    var (w1, cleared) := ClearMarker(w);
    if cleared {
      StatusSound(rules, e.(marker := None, lease := None, phase := Disabled, health := NO_HEALTH), w1.now, snapshot);
    }
  }

  lemma CompleteDisableKeeps(rules: Rules, e: Engine, w: World, marker: Marker)
    requires Inv(rules, e, w) && e.phase == Recovering && e.marker == Some(marker)
    ensures Keeps(rules, CompleteDisable(e, w, marker))
  {
    RemoveDataPlaneKeeps(rules, e, w);
    var (w1, removed) := RemoveDataPlane(w);
    if !removed { return; }
    var (w2, snapshot) := TakeSnapshot(w1);
    if snapshot.None? || snapshot.value.dataPlaneInstalled { return; }
    if !snapshot.value.guardsInstalled { FinishDisableKeeps(rules, e, w2, snapshot.value); return; }
    if !SnapshotMatches(snapshot.value, marker, true, false) { return; }
    RemoveGuardsKeeps(rules, e, w2);
    var (w3, cleared) := RemoveGuards(w2);
    if !cleared { return; }
    var (w4, after) := TakeSnapshot(w3);
    if after.None? || after.value.guardsInstalled || after.value.dataPlaneInstalled { return; }
    FinishDisableKeeps(rules, e, w4, after.value);
  }

  lemma DisableKeeps(rules: Rules, e: Engine, w: World, revision: nat)
    requires Inv(rules, e, w)
    ensures Keeps(rules, Disable(e, w, revision))
  {
    if e.marker.None? || e.marker.value.revision != revision { return; }
    var disabling := e.marker.value.WithPhase(Disabling, e.marker.value.filterGeneration);
    SettleKeeps(rules, e, w, Disabling, e.marker.value.filterGeneration);
    var (w1, persisted) := Persist(w, disabling);
    if !persisted { return; }
    CompleteDisableKeeps(rules, e.(marker := Some(disabling), phase := Recovering, health := NO_HEALTH), w1, disabling);
  }

  /** The common tail of a first preparation and of a recovery. */
  lemma RebindKeeps(rules: Rules, e: Engine, w: World)
    requires Inv(rules, e, w) && e.phase !in {Blocking, Armed}
    requires e.marker.Some? && e.lease == Some(e.marker.value.policy)
    requires w.now.image.store.marker == e.marker
    ensures Keeps(rules, Rebind(e, w, e.marker.value))
  {
    var marker := e.marker.value;
    InstallGuardsKeeps(rules, e, w);
    var (w1, installed) := InstallGuards(w, marker.policy, e.lease.value, marker.digest);
    if !installed { return; }
    var (w2, snapshot) := TakeSnapshot(w1);
    if snapshot.None? || !SnapshotMatches(snapshot.value, marker, true, false) { return; }
    SettledKeeps(rules, e, w2, snapshot.value);
  }

  /** Once the marker's own guards are confirmed, persisting and adopting the
      settled phase keeps the invariant in either order. */
  lemma SettledKeeps(rules: Rules, e: Engine, w: World, snapshot: Snapshot)
    requires Inv(rules, e, w) && e.marker.Some? && Enforces(w.now.image.backend, e.marker.value.policy)
    requires snapshot == Inventory(w.now.image.backend, snapshot.capabilities) && !snapshot.dataPlaneInstalled
    ensures var settled := e.marker.value.WithPhase(SettledPhase(e.marker.value.policy), snapshot.filterGeneration);
            var adopted := e.(marker := Some(settled), phase := settled.phase);
            var w' := Persist(w, settled).0;
            && Inv(rules, e, w') && Inv(rules, adopted, w')
            && ProofSound(StatusOf(adopted, snapshot).proof, w'.now.image)
  {
    var settled := e.marker.value.WithPhase(SettledPhase(e.marker.value.policy), snapshot.filterGeneration);
    SettleKeeps(rules, e, w, settled.phase, snapshot.filterGeneration);
    StatusSound(rules, e.(marker := Some(settled), phase := settled.phase), Persist(w, settled).0.now, snapshot);
  }

  lemma RecoverKeeps(rules: Rules, e: Engine, w: World)
    requires Inv(rules, e, w)
    ensures Keeps(rules, Recover(rules, e, w))
  {
    var (w1, record) := Load(w);
    if record.None? { return; }
    var e1 := e.(storeLoaded := true, highWatermark := record.value.highWatermark);
    assert Inv(rules, e1, w1);
    var (w2, snapshot) := TakeSnapshot(w1);
    if snapshot.None? { return; }
    if record.value.marker.None? {
      if !Orphaned(snapshot.value) { StatusSound(rules, e1.(marker := None, phase := Disabled), w2.now, snapshot.value); }
      return;
    }
    RecoverMarkedKeeps(rules, e1, w2, snapshot.value);
  }

  lemma RecoverMarkedKeeps(rules: Rules, e: Engine, w: World, snapshot: Snapshot)
    requires Inv(rules, e, w) && e.storeLoaded && e.highWatermark == w.now.image.store.highWatermark
    requires w.now.image.store.marker.Some?
    ensures Keeps(rules, RecoverMarked(rules, e, w, w.now.image.store, snapshot))
  {
    var marker := w.now.image.store.marker.value;
    var e2 := e.(marker := Some(marker), phase := Recovering, health := NO_HEALTH);
    assert Inv(rules, e2, w);
    if marker.phase == Disabling { CompleteDisableKeeps(rules, e2, w, marker); return; }
    var (w3, verified) := Verify(w);
    if !verified { return; }
    var e3 := e2.(lease := Some(marker.policy));
    if !snapshot.dataPlaneInstalled { RebindKeeps(rules, e3, w3); return; }
    RemoveDataPlaneKeeps(rules, e3, w3);
    var (w4, removed) := RemoveDataPlane(w3);
    if !removed { return; }
    var (w5, after) := TakeSnapshot(w4);
    if after.None? || after.value.dataPlaneInstalled { return; }
    RebindKeeps(rules, e3, w5);
  }

  /** Persisting a marker for a never-used revision, then adopting it. */
  lemma BeginPreparingKeeps(rules: Rules, e: Engine, w: World, policy: Policy, health: ForwardingHealth)
    requires Inv(rules, e, w) && e.storeLoaded
    requires ValidPolicy(rules, policy) && policy.revision > e.highWatermark
    ensures var preparing := PreparingMarker(policy, rules.digest(policy));
            var (w', persisted) := Persist(w, preparing);
            && Inv(rules, e, w')
            && (persisted ==>
                  Inv(rules, e.(marker := Some(preparing), highWatermark := policy.revision, phase := Preparing,
                                lease := Some(policy), health := health), w'))
  {
    PersistKeeps(rules, w, PreparingMarker(policy, rules.digest(policy)));
  }

  lemma PrepareFreshKeeps(rules: Rules, e: Engine, w: World, policy: Policy)
    requires Inv(rules, e, w) && e.storeLoaded
    ensures Keeps(rules, PrepareFresh(rules, e, w, policy))
  {
    if !ValidPolicy(rules, policy) || policy.revision <= e.highWatermark { return; }
    var (w1, verified) := Verify(w);
    if !verified { return; }
    var preparing := PreparingMarker(policy, rules.digest(policy));
    BeginPreparingKeeps(rules, e, w1, policy, NO_HEALTH);
    var (w2, persisted) := Persist(w1, preparing);
    if !persisted { return; }
    var e2 := e.(lease := Some(policy), highWatermark := policy.revision, marker := Some(preparing),
                 phase := Preparing, health := NO_HEALTH);
    InstallFirstKeeps(rules, e2, w2);
  }

  lemma InstallFirstKeeps(rules: Rules, e2: Engine, w2: World)
    requires Inv(rules, e2, w2) && e2.phase == Preparing
    requires e2.marker.Some? && e2.lease == Some(e2.marker.value.policy)
    requires w2.now.image.store.marker == e2.marker
    ensures Keeps(rules, InstallFirst(e2, w2, e2.marker.value))
  {
    var preparing := e2.marker.value;
    InstallGuardsKeeps(rules, e2, w2);
    var (w3, installed) := InstallGuards(w2, preparing.policy, preparing.policy, preparing.digest);
    if !installed { return; }
    var (w4, snapshot) := TakeSnapshot(w3);
    if snapshot.None? || !SnapshotMatches(snapshot.value, preparing, true, false) { return; }
    SettledKeeps(rules, e2, w4, snapshot.value);
  }

  lemma MigrateKeeps(rules: Rules, e: Engine, w: World, policy: Policy)
    requires Inv(rules, e, w) && e.marker.Some?
    ensures Keeps(rules, MigrateIdentity(rules, e, w, policy))
  {
    var source := e.marker.value;
    if !ValidMigration(rules, source.policy, policy) || source.phase == Disabling || policy.revision <= e.highWatermark { return; }
    var (w1, verified) := Verify(w);
    if !verified { return; }
    ForceBlockingKeeps(rules, e, w1, source.revision);
    var blocked := ForceBlocking(e, w1, source.revision);
    if blocked.result.Err? { return; }
    InstallSuccessorKeeps(rules, blocked.s.e, blocked.s.w, policy);
  }

  lemma InstallSuccessorKeeps(rules: Rules, e2: Engine, w2: World, policy: Policy)
    requires Inv(rules, e2, w2) && e2.storeLoaded && ValidPolicy(rules, policy) && policy.revision > e2.highWatermark
    ensures Keeps(rules, InstallSuccessor(rules, e2, w2, policy))
  {
    var preparing := PreparingMarker(policy, rules.digest(policy));
    BeginPreparingKeeps(rules, e2, w2, policy, e2.health);
    var (w3, persisted) := Persist(w2, preparing);
    if !persisted { return; }
    var e3 := e2.(highWatermark := policy.revision, marker := Some(preparing), phase := Preparing, lease := Some(policy));
    InstallGuardsKeeps(rules, e3, w3);
    var (w4, installed) := InstallGuards(w3, policy, policy, preparing.digest);
    if !installed { return; }
    var (w5, snapshot) := TakeSnapshot(w4);
    if snapshot.None? || !SnapshotMatches(snapshot.value, preparing, true, false) { return; }
    SettledKeeps(rules, e3, w5, snapshot.value);
  }

  lemma PrepareKeeps(rules: Rules, e: Engine, w: World, policy: Policy)
    requires Inv(rules, e, w)
    ensures Keeps(rules, Prepare(rules, e, w, policy))
  {
    var (s, loaded) := LoadStoreOnce(e, w);
    assert Inv(rules, s.e, s.w);
    if !loaded { return; }
    if s.e.marker.None? { PrepareFreshKeeps(rules, s.e, s.w, policy); return; }
    if s.e.marker.value.policy == policy && s.e.marker.value.phase != Disabling { RecoverKeeps(rules, s.e, s.w); }
    else { MigrateKeeps(rules, s.e, s.w, policy); }
  }
}
