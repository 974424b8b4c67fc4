/** The engine's crash invariant and its preservation by every operation. */
module BrokerInvariant {
  import opened Wrappers
  import opened StrictContract
  import opened BrokerWorld
  import opened BrokerSpec

  // ----- Durable state -------------------------------------------------------

  predicate RuleOk(rules: Rules, rs: RuleSet) {
    && ValidPolicy(rules, rs.policy)
    && SameDigest(rules.digest(rs.policy), rs.digest)
    && rs.verifiedFor == rs.policy
  }

  /** A revision that was installed before names the same policy. */
  predicate AgreesWith(installs: seq<RuleSet>, policy: Policy) {
    forall rs :: rs in installs && rs.policy.revision == policy.revision ==> rs.policy == policy
  }

  predicate InstallsOk(rules: Rules, m: Moment) {
    && (forall rs :: rs in m.installs ==> RuleOk(rules, rs) && rs.policy.revision <= m.image.store.highWatermark)
    && (forall rs :: rs in m.installs ==> AgreesWith(m.installs, rs.policy))
  }

  predicate StoreOk(rules: Rules, m: Moment) {
    m.image.store.marker.Some? ==>
      && ValidMarker(rules, m.image.store.marker.value)
      && m.image.store.marker.value.revision <= m.image.store.highWatermark
      && AgreesWith(m.installs, m.image.store.marker.value.policy)
  }

  predicate FiltersOk(rules: Rules, m: Moment) {
    var b := m.image.backend;
    && (b.dataPlane.Some? ==> b.guards.Some?)
    && (b.guards.Some? ==> m.image.store.marker.Some? && b.guards.value in m.installs)
    && (b.dataPlane.Some? ==> RuleOk(rules, b.dataPlane.value))
  }

  predicate MomentOk(rules: Rules, m: Moment) {
    InstallsOk(rules, m) && StoreOk(rules, m) && FiltersOk(rules, m)
  }

  /** Later moments keep every earlier installation and never lower the watermark. */
  predicate Follows(earlier: Moment, later: Moment) {
    && earlier.image.store.highWatermark <= later.image.store.highWatermark
    && earlier.installs <= later.installs
  }

  predicate TraceOk(rules: Rules, w: World) {
    && MomentOk(rules, w.now)
    && (forall i :: 0 <= i < |w.trace| ==> MomentOk(rules, w.trace[i]) && Follows(w.trace[i], w.now))
    && (forall i, j :: 0 <= i < j < |w.trace| ==> Follows(w.trace[i], w.trace[j]))
  }

  // ----- Engine state --------------------------------------------------------

  predicate WatermarkOk(e: Engine, m: Moment) {
    && e.highWatermark <= m.image.store.highWatermark
    && (e.storeLoaded ==> forall rs :: rs in m.installs ==> rs.policy.revision <= e.highWatermark)
  }

  predicate CurrentOk(rules: Rules, e: Engine, m: Moment) {
    e.marker.Some? ==>
      && e.storeLoaded
      && ValidMarker(rules, e.marker.value)
      && e.marker.value.revision <= e.highWatermark
      && AgreesWith(m.installs, e.marker.value.policy)
  }

  /** The backend enforces exactly `policy`, perhaps without its redirects. */
  predicate Enforces(b: Backend, policy: Policy) {
    && b.guards.Some? && b.guards.value.policy == policy
    && (b.dataPlane.Some? ==> b.dataPlane.value.policy == policy)
  }

  predicate PhaseOk(e: Engine, m: Moment) {
    e.phase in {Blocking, Armed} ==>
      && e.marker.Some?
      && Enforces(m.image.backend, e.marker.value.policy)
      && (e.phase.Armed? && HasProxyEntries(e.marker.value.policy) ==> CompleteFor(e.health, e.marker.value.policy))
  }

  /** A retained identity lease belongs to the policy whose guards are installed. */
  predicate LeaseOk(e: Engine, m: Moment, marker: Option<Marker>) {
    e.lease.Some? && marker.Some? && m.image.backend.guards.Some?
    && m.image.backend.guards.value.policy == marker.value.policy ==>
      e.lease.value == marker.value.policy
  }

  predicate EngineOk(rules: Rules, e: Engine, m: Moment) {
    && WatermarkOk(e, m) && CurrentOk(rules, e, m) && PhaseOk(e, m)
    && LeaseOk(e, m, e.marker) && LeaseOk(e, m, m.image.store.marker)
  }

  predicate Inv(rules: Rules, e: Engine, w: World) {
    TraceOk(rules, w) && EngineOk(rules, e, w.now)
  }

  /** What every operation guarantees about the state and the reply it leaves. */
  predicate Keeps(rules: Rules, r: Reply) {
    && Inv(rules, r.s.e, r.s.w)
    && (r.result.Ok? ==> ProofSound(r.result.value.proof, r.s.w.now.image))
  }

  /** A proof carrying the full proxy capability set attests to installed guards
      and redirects for its own revision and digest, under a stored marker. */
  predicate ProofSound(proof: BrokerProof, image: Image) {
    RequiredForProxy() <= proof.capabilities ==>
      && image.backend.guards.Some? && image.backend.dataPlane.Some?
      && image.backend.guards.value.policy.revision == proof.revision
      && image.backend.dataPlane.value.policy.revision == proof.revision
      && SameDigest(image.backend.guards.value.digest, proof.policyDigest)
      && SameDigest(image.backend.dataPlane.value.digest, proof.policyDigest)
      && image.store.marker.Some?
  }

  // ----- Single calls --------------------------------------------------------

  lemma StepTrace(rules: Rules, w: World, next: Moment)
    requires TraceOk(rules, w) && MomentOk(rules, next) && Follows(w.now, next)
    ensures TraceOk(rules, Become(w, next))
  {
    var t := Become(w, next).trace;
    forall i, j | 0 <= i < j < |t| ensures Follows(t[i], t[j]) {
      assert i < |w.trace|;
      assert Follows(w.trace[i], w.now);
      if j < |w.trace| { assert Follows(w.trace[i], w.trace[j]); }
    }
  }

  lemma PersistKeeps(rules: Rules, w: World, marker: Marker)
    requires TraceOk(rules, w)
    requires ValidMarker(rules, marker) && AgreesWith(w.now.installs, marker.policy)
    ensures TraceOk(rules, Persist(w, marker).0)
  {
    var w' := Persist(w, marker).0;
    if w'.now != w.now {
      assert MomentOk(rules, w'.now);
      StepTrace(rules, Pop(w), w'.now);
    }
  }

  lemma ClearKeeps(rules: Rules, w: World)
    requires TraceOk(rules, w) && w.now.image.backend.guards.None?
    ensures TraceOk(rules, ClearMarker(w).0)
  {
    var w' := ClearMarker(w).0;
    if w'.now != w.now { StepTrace(rules, Pop(w), w'.now); }
  }

  lemma RemoveDataPlaneKeeps(rules: Rules, e: Engine, w: World)
    requires Inv(rules, e, w)
    ensures Inv(rules, e, RemoveDataPlane(w).0)
  {
    var w' := RemoveDataPlane(w).0;
    if w'.now != w.now { StepTrace(rules, Pop(w), w'.now); }
  }

  lemma RemoveGuardsKeeps(rules: Rules, e: Engine, w: World)
    requires Inv(rules, e, w) && e.phase !in {Blocking, Armed} && w.now.image.backend.dataPlane.None?
    ensures Inv(rules, e, RemoveGuards(w).0)
  {
    var w' := RemoveGuards(w).0;
    if w'.now != w.now { StepTrace(rules, Pop(w), w'.now); }
  }

  lemma InstallDataPlaneKeeps(rules: Rules, e: Engine, w: World)
    requires Inv(rules, e, w) && e.phase == Blocking && e.lease.Some?
    ensures var m := e.marker.value;
            Inv(rules, e, InstallDataPlane(w, m.policy, e.lease.value, m.digest).0)
  {
    var m := e.marker.value;
    var w' := InstallDataPlane(w, m.policy, e.lease.value, m.digest).0;
    if w'.now != w.now { StepTrace(rules, Pop(w), w'.now); }
  }

  /** Installing the guards of the current, persisted marker under its own lease. */
  lemma InstallGuardsKeeps(rules: Rules, e: Engine, w: World)
    requires Inv(rules, e, w) && e.phase !in {Blocking, Armed}
    requires e.marker.Some? && e.lease == Some(e.marker.value.policy)
    requires w.now.image.store.marker == e.marker
    ensures var m := e.marker.value;
            var r := InstallGuards(w, m.policy, m.policy, m.digest);
            && Inv(rules, e, r.0)
            && (r.1 ==> r.0.now.image.backend.guards == Some(RuleSet(m.policy, m.digest, m.policy)))
  {
    var m := e.marker.value;
    var asked := Become(w, w.now.(installs := w.now.installs + [RuleSet(m.policy, m.digest, m.policy)]));
    AskedIsOk(rules, e, w, RuleSet(m.policy, m.digest, m.policy));
    StepTrace(rules, w, asked.now);
    var w' := InstallGuards(w, m.policy, m.policy, m.digest).0;
    if w'.now != asked.now { StepTrace(rules, Pop(asked), w'.now); }
  }

  /** Recording one more attempt for the current marker's policy upsets nothing. */
  lemma AskedIsOk(rules: Rules, e: Engine, w: World, rs: RuleSet)
    requires MomentOk(rules, w.now) && EngineOk(rules, e, w.now)
    requires e.marker.Some? && RuleOk(rules, rs) && rs.policy == e.marker.value.policy && w.now.image.store.marker == e.marker
    ensures MomentOk(rules, w.now.(installs := w.now.installs + [rs]))
  {
  }

  /** A matching inventory identifies the installed policy, not just its revision. */
  lemma MatchIdentifiesPolicy(rules: Rules, e: Engine, w: World, redirects: bool)
    requires Inv(rules, e, w) && e.marker.Some?
    requires SnapshotMatches(Inventory(w.now.image.backend, Head(w).capabilities), e.marker.value, true, redirects)
    ensures w.now.image.backend.guards.Some? && w.now.image.backend.guards.value.policy == e.marker.value.policy
    ensures w.now.image.backend.dataPlane.Some? == redirects
  {
  }

  /** A status read while nothing changes is sound. */
  lemma StatusSound(rules: Rules, e: Engine, m: Moment, snapshot: Snapshot)
    requires MomentOk(rules, m) && EngineOk(rules, e, m)
    requires snapshot == Inventory(m.image.backend, snapshot.capabilities)
    ensures ProofSound(StatusOf(e, snapshot).proof, m.image)
  {
    var proof := StatusOf(e, snapshot).proof;
    if RequiredForProxy() <= proof.capabilities {
      assert Tcp4Redirect in proof.capabilities;
      assert e.phase.Armed? && snapshot.dataPlaneInstalled;
    }
  }
}
