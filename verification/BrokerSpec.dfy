/** What each Broker engine operation does to the engine and to the world. */
module BrokerSpec {
  import opened Wrappers
  import opened StrictContract
  import opened BrokerWorld

  datatype ForwardingHealth = ForwardingHealth(core: bool, relay: bool, dns: bool, capabilities: set<Capability>)

  const NO_HEALTH: ForwardingHealth := ForwardingHealth(false, false, false, {})

  predicate CompleteFor(h: ForwardingHealth, policy: Policy) {
    h.core && h.relay && h.dns && RequiredCapabilities(policy) <= h.capabilities
  }

  datatype BrokerStatus = BrokerStatus(phase: BrokerPhase, proof: BrokerProof)

  datatype Engine = Engine(
    marker: Option<Marker>,
    highWatermark: nat,
    storeLoaded: bool,
    phase: BrokerPhase,
    health: ForwardingHealth,
    lease: Option<Policy>)

  const NEW_ENGINE: Engine := Engine(None, 0, false, Disabled, NO_HEALTH, None)

  datatype State = State(e: Engine, w: World)

  datatype Reply = Reply(s: State, result: Result<BrokerStatus>)

  function Refuse(e: Engine, w: World): Reply {
    Reply(State(e, w), Err)
  }

  function SettledPhase(policy: Policy): BrokerPhase {
    if HasProxyEntries(policy) then Blocking else Armed
  }

  predicate SnapshotMatches(snapshot: Snapshot, m: Marker, guards: bool, redirects: bool) {
    && snapshot.revision == Some(m.revision)
    && snapshot.digest.Some? && SameDigest(snapshot.digest.value, m.digest)
    && snapshot.guardsInstalled == guards
    && snapshot.dataPlaneInstalled == redirects
  }

  function StatusOf(e: Engine, snapshot: Snapshot): BrokerStatus {
    var revision := if e.marker.Some? then e.marker.value.revision
                    else if snapshot.revision.Some? then snapshot.revision.value else 0;
    var digest := if e.marker.Some? then e.marker.value.digest
                  else if snapshot.digest.Some? then snapshot.digest.value else ZeroDigest();
    var capabilities := snapshot.capabilities *
                        (if e.phase.Armed? && snapshot.dataPlaneInstalled then e.health.capabilities else RequiredForBlockOnly());
    BrokerStatus(e.phase,
                 BrokerProof(revision, digest, snapshot.filterGeneration, capabilities, snapshot.guardsInstalled,
                             e.marker.Some?, e.phase.Armed? && e.health.core, e.phase.Armed? && e.health.relay,
                             e.phase.Armed? && e.health.dns))
  }

  function Report(e: Engine, w: World, snapshot: Snapshot): Reply {
    Reply(State(e, w), Ok(StatusOf(e, snapshot)))
  }

  function Status(e: Engine, w: World): Reply {
    var (w, snapshot) := TakeSnapshot(w);
    if snapshot.None? then Refuse(e, w) else Report(e, w, snapshot.value)
  }

  // ----- Prepare and migrate -------------------------------------------------

  function LoadStoreOnce(e: Engine, w: World): (State, bool) {
    if e.storeLoaded then (State(e, w), true) else
    var (w, record) := Load(w);
    if record.None? || record.value.marker.Some? then (State(e, w), false) else
    (State(e.(highWatermark := record.value.highWatermark, storeLoaded := true), w), true)
  }

  function Prepare(rules: Rules, e: Engine, w: World, policy: Policy): Reply {
    var (s, loaded) := LoadStoreOnce(e, w);
    if !loaded then Refuse(s.e, s.w) else
    if s.e.marker.None? then PrepareFresh(rules, s.e, s.w, policy) else
    if s.e.marker.value.policy == policy && s.e.marker.value.phase != Disabling then Recover(rules, s.e, s.w)
    else MigrateIdentity(rules, s.e, s.w, policy)
  }

  function PrepareFresh(rules: Rules, e: Engine, w: World, policy: Policy): Reply {
    if !ValidPolicy(rules, policy) || |policy.entries| > MAX_STRICT_APPLICATIONS || policy.revision <= e.highWatermark
    then Refuse(e, w) else
    var (w, verified) := Verify(w);
    if !verified then Refuse(e, w) else
    var preparing := PreparingMarker(policy, rules.digest(policy));
    var (w, persisted) := Persist(w, preparing);
    if !persisted then Refuse(e, w) else
    var e := e.(lease := Some(policy), highWatermark := policy.revision, marker := Some(preparing),
                phase := Preparing, health := NO_HEALTH);
    InstallFirst(e, w, preparing)
  }

  function InstallFirst(e: Engine, w: World, preparing: Marker): Reply
    requires e.lease.Some?
  {
    var (w, installed) := InstallGuards(w, preparing.policy, e.lease.value, preparing.digest);
    if !installed then Refuse(e, w) else
    var (w, snapshot) := TakeSnapshot(w);
    if snapshot.None? || !SnapshotMatches(snapshot.value, preparing, true, false) then Refuse(e, w) else
    var settled := preparing.WithPhase(SettledPhase(preparing.policy), snapshot.value.filterGeneration);
    var e := e.(marker := Some(settled), phase := settled.phase);
    var (w, stored) := Persist(w, settled);
    if !stored then Refuse(e, w) else Report(e, w, snapshot.value)
  }

  function MigrateIdentity(rules: Rules, e: Engine, w: World, policy: Policy): Reply
    requires e.marker.Some?
  {
    var source := e.marker.value;
    if !ValidPolicy(rules, policy) || source.phase == Disabling || policy.revision <= e.highWatermark
       || |source.policy.entries| != |policy.entries| || !ValidMigration(rules, source.policy, policy)
    then Refuse(e, w) else
    var (w, verified) := Verify(w);
    if !verified then Refuse(e, w) else
    var blocked := ForceBlocking(e, w, source.revision);
    if blocked.result.Err? then blocked else InstallSuccessor(rules, blocked.s.e, blocked.s.w, policy)
  }

  function InstallSuccessor(rules: Rules, e: Engine, w: World, policy: Policy): Reply {
    var preparing := PreparingMarker(policy, rules.digest(policy));
    var (w, persisted) := Persist(w, preparing);
    if !persisted then Refuse(e, w) else
    var e := e.(highWatermark := policy.revision, marker := Some(preparing), phase := Preparing, lease := Some(policy));
    var (w, installed) := InstallGuards(w, policy, e.lease.value, preparing.digest);
    if !installed then Refuse(e, w) else
    var (w, snapshot) := TakeSnapshot(w);
    if snapshot.None? || !SnapshotMatches(snapshot.value, preparing, true, false) then Refuse(e, w) else
    var settled := preparing.WithPhase(SettledPhase(policy), snapshot.value.filterGeneration);
    var (w, stored) := Persist(w, settled);
    if !stored then Refuse(e, w) else
    Report(e.(marker := Some(settled), phase := settled.phase), w, snapshot.value)
  }

  // ----- Commit and rollback -------------------------------------------------

  predicate MatchesCurrent(e: Engine, revision: nat, digest: string) {
    e.marker.Some? && e.marker.value.revision == revision && SameDigest(e.marker.value.digest, digest)
  }

  function Commit(e: Engine, w: World, revision: nat, digest: string, health: ForwardingHealth): Reply {
    if !MatchesCurrent(e, revision, digest) then Refuse(e, w) else
    var marker := e.marker.value;
    if !HasProxyEntries(marker.policy) || e.phase != Blocking || !CompleteFor(health, marker.policy) || e.lease.None?
    then Refuse(e, w) else
    var (w, installed) := InstallDataPlane(w, marker.policy, e.lease.value, marker.digest);
    if !installed then RollBack(e, w, marker) else Arm(e, w, marker, health)
  }

  function Arm(e: Engine, w: World, marker: Marker, health: ForwardingHealth): Reply {
    var (w, snapshot) := TakeSnapshot(w);
    if snapshot.None? then Refuse(e, w) else
    if !SnapshotMatches(snapshot.value, marker, true, true)
       || !(RequiredCapabilities(marker.policy) <= snapshot.value.capabilities)
    then RollBack(e, w, marker) else
    var armed := marker.WithPhase(Armed, snapshot.value.filterGeneration);
    var (w, stored) := Persist(w, armed);
    if !stored then RollBack(e, w, marker) else
    Report(e.(marker := Some(armed), phase := Armed, health := health), w, snapshot.value)
  }

  /** A failed commit reports failure whether or not its rollback succeeds. */
  function RollBack(e: Engine, w: World, marker: Marker): Reply {
    var (s, _) := RollbackRedirects(e, w, marker);
    Refuse(s.e, s.w)
  }

  function RollbackRedirects(e: Engine, w: World, marker: Marker): (State, bool) {
    var e := e.(phase := Blocking, health := NO_HEALTH);
    var (w, removed) := RemoveDataPlane(w);
    if !removed then (State(e, w), false) else
    var (w, snapshot) := TakeSnapshot(w);
    if snapshot.None? || !SnapshotMatches(snapshot.value, marker, true, false) then (State(e, w), false) else
    var blocking := marker.WithPhase(Blocking, snapshot.value.filterGeneration);
    var (w, stored) := Persist(w, blocking);
    if !stored then (State(e, w), false) else (State(e.(marker := Some(blocking)), w), true)
  }

  // ----- Force blocking, disable and recover ---------------------------------

  function ForceBlocking(e: Engine, w: World, revision: nat): Reply {
    if e.marker.None? || e.marker.value.revision != revision then Refuse(e, w) else
    var marker := e.marker.value;
    var (w, removed) := RemoveDataPlane(w);
    if !removed then Refuse(e, w) else
    var (w, snapshot) := TakeSnapshot(w);
    if snapshot.None? || !SnapshotMatches(snapshot.value, marker, true, false) then Refuse(e, w) else
    var settled := marker.WithPhase(SettledPhase(marker.policy), snapshot.value.filterGeneration);
    var e := e.(phase := settled.phase, health := NO_HEALTH);
    var (w, stored) := Persist(w, settled);
    if !stored then Refuse(e, w) else Report(e.(marker := Some(settled)), w, snapshot.value)
  }

  function ForceBlockingIfActive(e: Engine, w: World): Reply {
    if e.marker.None? then Status(e, w) else ForceBlocking(e, w, e.marker.value.revision)
  }

  function Disable(e: Engine, w: World, revision: nat): Reply {
    if e.marker.None? || e.marker.value.revision != revision then Refuse(e, w) else
    var disabling := e.marker.value.WithPhase(Disabling, e.marker.value.filterGeneration);
    var (w, persisted) := Persist(w, disabling);
    if !persisted then Refuse(e, w) else
    CompleteDisable(e.(marker := Some(disabling), phase := Recovering, health := NO_HEALTH), w, disabling)
  }

  function CompleteDisable(e: Engine, w: World, marker: Marker): Reply {
    var (w, removed) := RemoveDataPlane(w);
    if !removed then Refuse(e, w) else
    var (w, snapshot) := TakeSnapshot(w);
    if snapshot.None? || snapshot.value.dataPlaneInstalled then Refuse(e, w) else
    if !snapshot.value.guardsInstalled then FinishDisable(e, w, snapshot.value) else
    if !SnapshotMatches(snapshot.value, marker, true, false) then Refuse(e, w) else
    var (w, cleared) := RemoveGuards(w);
    if !cleared then Refuse(e, w) else
    var (w, after) := TakeSnapshot(w);
    if after.None? || after.value.guardsInstalled || after.value.dataPlaneInstalled then Refuse(e, w)
    else FinishDisable(e, w, after.value)
  }

  function FinishDisable(e: Engine, w: World, snapshot: Snapshot): Reply {
    var (w, cleared) := ClearMarker(w);
    if !cleared then Refuse(e, w) else
    Report(e.(marker := None, lease := None, phase := Disabled, health := NO_HEALTH), w, snapshot)
  }

  predicate Orphaned(snapshot: Snapshot) {
    snapshot.guardsInstalled || snapshot.dataPlaneInstalled || snapshot.revision.Some? || snapshot.digest.Some?
  }

  function Recover(rules: Rules, e: Engine, w: World): Reply {
    var (w, record) := Load(w);
    if record.None? then Refuse(e, w) else
    var e := e.(storeLoaded := true, highWatermark := record.value.highWatermark);
    var (w, snapshot) := TakeSnapshot(w);
    if snapshot.None? then Refuse(e, w) else
    if record.value.marker.None? then
      if Orphaned(snapshot.value) then Refuse(e, w)
      else Report(e.(marker := None, phase := Disabled), w, snapshot.value)
    else
    RecoverMarked(rules, e, w, record.value, snapshot.value)
  }

  function RecoverMarked(rules: Rules, e: Engine, w: World, record: Record, snapshot: Snapshot): Reply
    requires record.marker.Some?
  {
    var marker := record.marker.value;
    if !ValidMarker(rules, marker) || record.highWatermark < marker.revision then Refuse(e, w) else
    var e := e.(marker := Some(marker), phase := Recovering, health := NO_HEALTH);
    if marker.phase == Disabling then CompleteDisable(e, w, marker) else
    var (w, verified) := Verify(w);
    if !verified then Refuse(e, w) else
    var e := e.(lease := Some(marker.policy));
    if !snapshot.dataPlaneInstalled then Rebind(e, w, marker) else
    var (w, removed) := RemoveDataPlane(w);
    if !removed then Refuse(e, w) else
    var (w, after) := TakeSnapshot(w);
    if after.None? || after.value.dataPlaneInstalled then Refuse(e, w) else Rebind(e, w, marker)
  }

  /** Replaces the guards with freshly verified ones and settles the marker. */
  function Rebind(e: Engine, w: World, marker: Marker): Reply
    requires e.lease.Some?
  {
    var (w, installed) := InstallGuards(w, marker.policy, e.lease.value, marker.digest);
    if !installed then Refuse(e, w) else
    var (w, snapshot) := TakeSnapshot(w);
    if snapshot.None? || !SnapshotMatches(snapshot.value, marker, true, false) then Refuse(e, w) else
    var settled := marker.WithPhase(SettledPhase(marker.policy), snapshot.value.filterGeneration);
    var (w, stored) := Persist(w, settled);
    if !stored then Refuse(e, w) else
    Report(e.(marker := Some(settled), phase := settled.phase), w, snapshot.value)
  }
}
