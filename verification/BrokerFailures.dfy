/** Where each engine operation stops when its n-th call is the first to fail, and what
    the engine then holds and has stored: what a retry or a recovery starts from. */
module BrokerFailures {
  import opened Wrappers
  import opened StrictContract
  import opened BrokerWorld
  import opened BrokerSpec
  import opened BrokerInvariant
  import BrokerRuns

  /** Exactly the first `n` calls work. */
  predicate FailsAt(w: World, n: nat) {
    BrokerRuns.AllWork(w.script, n) && (|w.script| <= n || !w.script[n].outcome.Works?)
  }

  function Stored(w: World): Option<Marker> {
    w.now.image.store.marker
  }

  function Guards(w: World): Option<RuleSet> {
    w.now.image.backend.guards
  }

  /** Verify, store, install, read back, store: a first preparation is remembered by the
      engine from the moment it is stored, and settles only once the filters are read back. */
  lemma PrepareStops(rules: Rules, e: Engine, w: World, policy: Policy, n: nat)
    requires FailsAt(w, n) && n < 5 && e.marker.None? && e.storeLoaded && w.now.image.backend.dataPlane.None?
    requires ValidPolicy(rules, policy) && policy.revision > e.highWatermark
    ensures var r := Prepare(rules, e, w, policy);
            var preparing := PreparingMarker(policy, rules.digest(policy));
            var held := Engine(Some(preparing), policy.revision, true, Preparing, NO_HEALTH, Some(policy));
            && r.result.Err?
            && (n == 0 ==> r.s.e == e && r.s.w.now == w.now)
            && (n == 1 ==> r.s.e == e && Guards(r.s.w) == Guards(w))
            && (n in {2, 3} ==> r.s.e == held && Stored(r.s.w) == Some(preparing))
            && (n == 4 ==>
                  var settled := preparing.WithPhase(SettledPhase(policy), w.script[2].generation);
                  r.s.e == held.(marker := Some(settled), phase := settled.phase) && Guards(r.s.w) == Some(RuleSet(policy, preparing.digest, policy)))
  {
    PrepareFreshStops(rules, e, w, policy, n);
  }

  lemma PrepareFreshStops(rules: Rules, e: Engine, w: World, policy: Policy, n: nat)
    requires FailsAt(w, n) && n < 5 && e.storeLoaded && w.now.image.backend.dataPlane.None?
    requires ValidPolicy(rules, policy) && policy.revision > e.highWatermark
    ensures var r := PrepareFresh(rules, e, w, policy);
            var preparing := PreparingMarker(policy, rules.digest(policy));
            var held := Engine(Some(preparing), policy.revision, true, Preparing, NO_HEALTH, Some(policy));
            && r.result.Err?
            && (n == 0 ==> r.s.e == e && r.s.w.now == w.now)
            && (n == 1 ==> r.s.e == e && Guards(r.s.w) == Guards(w))
            && (n in {2, 3} ==> r.s.e == held && Stored(r.s.w) == Some(preparing))
            && (n == 4 ==>
                  var settled := preparing.WithPhase(SettledPhase(policy), w.script[2].generation);
                  r.s.e == held.(marker := Some(settled), phase := settled.phase) && Guards(r.s.w) == Some(RuleSet(policy, preparing.digest, policy)))
  {
  }

  /** Remove, read back, store: the engine leaves the armed phase once the filters are
      read back, and adopts the marker only once it is stored. */
  lemma ForceBlockingStops(rules: Rules, e: Engine, w: World, n: nat)
    requires FailsAt(w, n) && n < 3 && Inv(rules, e, w) && e.marker.Some?
    requires Guards(w).Some? && Guards(w).value.policy == e.marker.value.policy
    ensures var marker := e.marker.value;
            var r := ForceBlocking(e, w, marker.revision);
            && r.result.Err? && Guards(r.s.w) == Guards(w)
            && (n < 2 ==> r.s.e == e && Stored(r.s.w) == Stored(w))
            && (n == 2 ==> r.s.e == e.(phase := SettledPhase(marker.policy), health := NO_HEALTH))
            && (n > 0 ==> r.s.w.now.image.backend.dataPlane == None)
  {
    assert RuleOk(rules, Guards(w).value);
  }

  /** Verify, the three calls of a forced blocking, then as in a first preparation: the old
      policy stays live until the new one is stored. */
  lemma MigrationStops(rules: Rules, e: Engine, w: World, policy: Policy, n: nat)
    requires FailsAt(w, n) && n < 8 && Inv(rules, e, w) && e.marker.Some?
    requires Guards(w).Some? && Guards(w).value.policy == e.marker.value.policy
    requires ValidMigration(rules, e.marker.value.policy, policy) && e.marker.value.phase != Disabling && policy.revision > e.highWatermark
    ensures var r := MigrateIdentity(rules, e, w, policy);
            var preparing := PreparingMarker(policy, rules.digest(policy));
            && r.result.Err?
            && (n == 0 ==> r.s.e == e && r.s.w.now == w.now)
            && (n <= 4 ==> r.s.e.marker.Some? && r.s.e.marker.value.policy == e.marker.value.policy
                           && r.s.e.highWatermark == e.highWatermark && r.s.e.lease == e.lease && Guards(r.s.w) == Guards(w))
            && (n in {3, 4} ==> r.s.e.phase == SettledPhase(e.marker.value.policy))
            && (n >= 5 ==> r.s.e.marker == Some(preparing) && r.s.e.highWatermark == policy.revision
                           && r.s.e.lease == Some(policy) && r.s.e.phase == Preparing)
            && (n in {5, 6} ==> Stored(r.s.w) == Some(preparing))
            && (n >= 6 ==> Guards(r.s.w) == Some(RuleSet(policy, preparing.digest, policy)))
  {
    var (w1, verified) := Verify(w);
    if n == 0 { return; }
    assert Inv(rules, e, w1);
    if n < 4 {
      ForceBlockingStops(rules, e, w1, n - 1);
    } else {
      BlockingGoesOn(rules, e, w1, n - 1);
      var blocked := ForceBlocking(e, w1, e.marker.value.revision);
      SuccessorStops(rules, blocked.s.e, blocked.s.w, policy, n - 4);
    }
  }

  lemma BlockingGoesOn(rules: Rules, e: Engine, w: World, n: nat)
    requires FailsAt(w, n) && n >= 3 && Inv(rules, e, w) && e.marker.Some?
    requires Guards(w).Some? && Guards(w).value.policy == e.marker.value.policy
    ensures var marker := e.marker.value;
            var r := ForceBlocking(e, w, marker.revision);
            var settled := marker.WithPhase(SettledPhase(marker.policy), w.script[0].generation);
            && r.result.Ok? && r.s.e == e.(marker := Some(settled), phase := settled.phase, health := NO_HEALTH)
            && Guards(r.s.w) == Guards(w) && r.s.w.now.image.backend.dataPlane == None && FailsAt(r.s.w, n - 3)
  {
    assert RuleOk(rules, Guards(w).value);
  }

  lemma SuccessorStops(rules: Rules, e: Engine, w: World, policy: Policy, n: nat)
    requires FailsAt(w, n) && n < 4 && w.now.image.backend.dataPlane.None?
    ensures var r := InstallSuccessor(rules, e, w, policy);
            var preparing := PreparingMarker(policy, rules.digest(policy));
            var held := e.(marker := Some(preparing), highWatermark := policy.revision, phase := Preparing, lease := Some(policy));
            && r.result.Err?
            && (n == 0 ==> r.s.e == e && Guards(r.s.w) == Guards(w))
            && (n > 0 ==> r.s.e == held)
            && (n in {1, 2} ==> Stored(r.s.w) == Some(preparing))
            && (n >= 2 ==> Guards(r.s.w) == Some(RuleSet(policy, preparing.digest, policy)))
  {
  }

  /** What a commit needs before it touches anything. */
  predicate MayCommit(e: Engine, health: ForwardingHealth) {
    && e.marker.Some? && HasProxyEntries(e.marker.value.policy) && e.phase == Blocking
    && CompleteFor(health, e.marker.value.policy) && e.lease.Some?
  }

  /** Install, read back, store: if reading back fails the redirects stay as they are and
      the engine stays blocking; if installing or storing fails they are rolled back. */
  lemma CommitStops(rules: Rules, e: Engine, w: World, health: ForwardingHealth, n: nat)
    requires FailsAt(w, n) && n < 3 && Inv(rules, e, w) && MayCommit(e, health)
    requires |w.script| > 1 ==> RequiredForProxy() <= w.script[1].capabilities
    ensures var marker := e.marker.value;
            var r := Commit(e, w, marker.revision, marker.digest, health);
            && r.result.Err? && Guards(r.s.w) == Guards(w) && r.s.e.phase == Blocking && r.s.e.lease == e.lease
            && (n == 1 ==> r.s.e == e && Stored(r.s.w) == Stored(w) && r.s.w.now.image.backend.dataPlane.Some?)
            && (n != 1 && RolledBack(w, n) ==>
                  r.s.w.now.image.backend.dataPlane == None && r.s.e.health == NO_HEALTH && Stored(r.s.w) == r.s.e.marker
                  && r.s.e.marker == Some(marker.WithPhase(Blocking, w.script[n + 1].generation)))
  {
    assert RuleOk(rules, Guards(w).value);
    var marker := e.marker.value;
    var (w1, installed) := InstallDataPlane(w, marker.policy, e.lease.value, marker.digest);
    if n == 0 {
      RollbackUndoes(e, w1, marker);
    } else if n == 2 {
      var (w2, snapshot) := TakeSnapshot(w1);
      RollbackUndoes(e, Persist(w2, marker.WithPhase(Armed, snapshot.value.filterGeneration)).0, marker);
    }
  }

  /** The three calls after the failed one work. */
  predicate RolledBack(w: World, n: nat) {
    |w.script| >= n + 4 && forall k :: n < k < n + 4 ==> w.script[k].outcome.Works?
  }

  /** A rollback blocks at once; with its calls working it also leaves no redirect. */
  lemma RollbackUndoes(e: Engine, w: World, marker: Marker)
    requires Guards(w).Some? && Guards(w).value.policy.revision == marker.revision && SameDigest(Guards(w).value.digest, marker.digest)
    ensures var r := RollBack(e, w, marker);
            && r.result.Err? && Guards(r.s.w) == Guards(w) && r.s.e.phase == Blocking && r.s.e.health == NO_HEALTH && r.s.e.lease == e.lease
            && (BrokerRuns.AllWork(w.script, 3) ==>
                  r.s.w.now.image.backend.dataPlane == None && Stored(r.s.w) == r.s.e.marker
                  && r.s.e.marker == Some(marker.WithPhase(Blocking, w.script[0].generation)))
  {
  }

  /** Store, then remove and read back, and only then clear: a disable is remembered from
      the moment it is stored until the store is cleared. */
  lemma DisableStops(rules: Rules, e: Engine, w: World, n: nat)
    requires FailsAt(w, n) && n < 6 && Inv(rules, e, w) && e.marker.Some?
    requires Guards(w).Some? && Guards(w).value.policy == e.marker.value.policy
    ensures var marker := e.marker.value;
            var disabling := marker.WithPhase(Disabling, marker.filterGeneration);
            var r := Disable(e, w, marker.revision);
            && r.result.Err?
            && (n == 0 ==> r.s.e == e && r.s.w.now.image.backend == w.now.image.backend)
            && (n > 0 ==> r.s.e == e.(marker := Some(disabling), phase := Recovering, health := NO_HEALTH))
            && (0 < n < 5 ==> Stored(r.s.w) == Some(disabling))
            && (n > 1 ==> r.s.w.now.image.backend.dataPlane == None)
            && (n < 3 ==> Guards(r.s.w) == Guards(w))
            && (n > 3 ==> Guards(r.s.w) == None)
  {
    assert RuleOk(rules, Guards(w).value);
    if n > 0 {
      var disabling := e.marker.value.WithPhase(Disabling, e.marker.value.filterGeneration);
      RemovalStops(e.(marker := Some(disabling), phase := Recovering, health := NO_HEALTH), Persist(w, disabling).0, disabling, n - 1);
    }
  }

  lemma RemovalStops(e: Engine, w: World, marker: Marker, n: nat)
    requires FailsAt(w, n) && n < 5 && Guards(w).Some?
    requires Guards(w).value.policy.revision == marker.revision && SameDigest(Guards(w).value.digest, marker.digest)
    ensures var r := CompleteDisable(e, w, marker);
            && r.result.Err? && r.s.e == e
            && (n < 4 ==> Stored(r.s.w) == Stored(w))
            && (n > 0 ==> r.s.w.now.image.backend.dataPlane == None)
            && (n < 2 ==> Guards(r.s.w) == Guards(w))
            && (n > 2 ==> Guards(r.s.w) == None)
  {
    if n > 1 {
      var (w2, snapshot) := TakeSnapshot(RemoveDataPlane(w).0);
      assert snapshot == Some(Inventory(w.now.image.backend.(dataPlane := None, generation := w.script[0].generation), w.script[1].capabilities));
      assert SnapshotMatches(snapshot.value, marker, true, false);
    }
  }

  /** Load, read, verify, install, read back, store: a recovery adopts the stored marker as
      soon as the filters can be read, and leaves Recovering only at the very end. */
  lemma RecoveryStops(rules: Rules, e: Engine, w: World, n: nat)
    requires FailsAt(w, n) && n < 6 && Inv(rules, e, w) && w.now.image.backend.dataPlane.None?
    requires Stored(w).Some? && Stored(w).value.phase != Disabling
    ensures var marker := Stored(w).value;
            var r := Recover(rules, e, w);
            var loaded := e.(storeLoaded := true, highWatermark := w.now.image.store.highWatermark);
            var held := loaded.(marker := Some(marker), phase := Recovering, health := NO_HEALTH);
            && r.result.Err?
            && (n == 0 ==> r.s.e == e)
            && (n == 1 ==> r.s.e == loaded)
            && (n == 2 ==> r.s.e == held)
            && (n > 2 ==> r.s.e == held.(lease := Some(marker.policy)))
            && (n < 3 ==> r.s.w.now == w.now)
            && (n < 5 ==> Stored(r.s.w) == Stored(w))
            && (n > 3 ==> Guards(r.s.w) == Some(RuleSet(marker.policy, marker.digest, marker.policy)))
  {
    var (w1, record) := Load(w);
    if n == 0 { return; }
    var loaded := e.(storeLoaded := true, highWatermark := record.value.highWatermark);
    var (w2, snapshot) := TakeSnapshot(w1);
    if n == 1 { return; }
    var marker := record.value.marker.value;
    assert Recover(rules, e, w) == RecoverMarked(rules, loaded, w2, record.value, snapshot.value);
    var held := loaded.(marker := Some(marker), phase := Recovering, health := NO_HEALTH);
    var (w3, verified) := Verify(w2);
    if n == 2 { return; }
    RebindStops(held.(lease := Some(marker.policy)), w3, marker, n - 3);
  }

  lemma RebindStops(e: Engine, w: World, marker: Marker, n: nat)
    requires FailsAt(w, n) && n < 3 && w.now.image.backend.dataPlane.None? && e.lease == Some(marker.policy)
    requires marker.revision == marker.policy.revision
    ensures var r := Rebind(e, w, marker);
            && r.result.Err? && r.s.e == e
            && (n < 2 ==> Stored(r.s.w) == Stored(w))
            && (n > 0 ==> Guards(r.s.w) == Some(RuleSet(marker.policy, marker.digest, marker.policy)))
  {
  }

  /** With redirects still standing, recovery first takes them down and reads back. */
  lemma RecoveryRemovesFirst(rules: Rules, e: Engine, w: World, n: nat)
    requires FailsAt(w, n) && n < 8 && Inv(rules, e, w) && w.now.image.backend.dataPlane.Some?
    requires Stored(w).Some? && Stored(w).value.phase != Disabling
    ensures var marker := Stored(w).value;
            var r := Recover(rules, e, w);
            && r.result.Err?
            && (n > 2 ==> r.s.e == Engine(Some(marker), w.now.image.store.highWatermark, true, Recovering, NO_HEALTH, Some(marker.policy)))
            && (n > 3 ==> r.s.w.now.image.backend.dataPlane == None)
            && (n < 5 ==> Guards(r.s.w) == Guards(w))
            && (n > 5 ==> Guards(r.s.w) == Some(RuleSet(marker.policy, marker.digest, marker.policy)))
  {
    var (w1, record) := Load(w);
    if n == 0 { return; }
    var loaded := e.(storeLoaded := true, highWatermark := record.value.highWatermark);
    var (w2, snapshot) := TakeSnapshot(w1);
    if n == 1 { return; }
    var marker := record.value.marker.value;
    assert Recover(rules, e, w) == RecoverMarked(rules, loaded, w2, record.value, snapshot.value);
    MarkedRemovesFirst(rules, loaded, w2, record.value, snapshot.value, n - 2);
  }

  lemma MarkedRemovesFirst(rules: Rules, e: Engine, w: World, record: Record, snapshot: Snapshot, n: nat)
    requires FailsAt(w, n) && n < 6 && record.marker.Some? && record.marker.value.phase != Disabling && snapshot.dataPlaneInstalled
    requires ValidMarker(rules, record.marker.value) && record.marker.value.revision <= record.highWatermark
    ensures var marker := record.marker.value;
            var r := RecoverMarked(rules, e, w, record, snapshot);
            && r.result.Err?
            && (n > 0 ==> r.s.e == e.(marker := Some(marker), phase := Recovering, health := NO_HEALTH, lease := Some(marker.policy)))
            && (n > 1 ==> r.s.w.now.image.backend.dataPlane == None)
            && (n < 3 ==> Guards(r.s.w) == Guards(w))
            && (n > 3 ==> Guards(r.s.w) == Some(RuleSet(marker.policy, marker.digest, marker.policy)))
  {
    var marker := record.marker.value;
    var leased := e.(marker := Some(marker), phase := Recovering, health := NO_HEALTH, lease := Some(marker.policy));
    var (w1, verified) := Verify(w);
    if n == 0 { return; }
    var (w2, removed) := RemoveDataPlane(w1);
    if n == 1 {
      assert RecoverMarked(rules, e, w, record, snapshot) == Refuse(leased, w2);
      return;
    }
    var (w3, after) := TakeSnapshot(w2);
    if n == 2 {
      assert RecoverMarked(rules, e, w, record, snapshot) == Refuse(leased, w3);
      return;
    }
    assert RecoverMarked(rules, e, w, record, snapshot) == Rebind(leased, w3, marker);
    RebindStops(leased, w3, marker, n - 3);
  }
}
