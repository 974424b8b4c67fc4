/** Whole runs of the Broker: any commands, any failures, any crashes. */
module BrokerRuns {
  import opened Wrappers
  import opened StrictContract
  import opened BrokerWorld
  import Spec = BrokerSpec
  import opened BrokerInvariant
  import opened BrokerSafety

  type Engine = Spec.Engine
  type State = Spec.State

  datatype Command =
    | Prepare(policy: Policy)
    | Commit(revision: nat, digest: string, health: Spec.ForwardingHealth)
    | ForceBlocking(revision: nat)
    | ForceBlockingIfActive
    | Disable(revision: nat)
    | Recover
    | Status

  /** `Call` runs one command against a fresh script; a script that runs out
      half-way is a crash in the middle of the command. `Restart` loses the engine. */
  datatype Event = Call(command: Command, script: seq<Answer>) | Restart

  function Execute(rules: Rules, e: Engine, w: World, command: Command): Spec.Reply {
    match command
    case Prepare(policy) => Spec.Prepare(rules, e, w, policy)
    case Commit(revision, digest, health) => Spec.Commit(e, w, revision, digest, health)
    case ForceBlocking(revision) => Spec.ForceBlocking(e, w, revision)
    case ForceBlockingIfActive => Spec.ForceBlockingIfActive(e, w)
    case Disable(revision) => Spec.Disable(e, w, revision)
    case Recover => Spec.Recover(rules, e, w)
    case Status => Spec.Status(e, w)
  }

  function Step(rules: Rules, s: State, event: Event): State {
    match event
    case Call(command, script) => Execute(rules, s.e, s.w.(script := script), command).s
    case Restart => s.(e := Spec.NEW_ENGINE)
  }

  const BLANK: Moment := Moment(Image(Backend(None, None, 0), Record(0, None)), [])

  const START: State := Spec.State(Spec.NEW_ENGINE, World(BLANK, [], [BLANK]))

  function Run(rules: Rules, events: seq<Event>): State {
    if events == [] then START else Step(rules, Run(rules, events[..|events| - 1]), events[|events| - 1])
  }

  lemma ExecuteKeeps(rules: Rules, e: Engine, w: World, command: Command)
    requires Inv(rules, e, w)
    ensures Keeps(rules, Execute(rules, e, w, command))
  {
    match command
    case Prepare(policy) => PrepareKeeps(rules, e, w, policy);
    case Commit(revision, digest, health) => CommitKeeps(rules, e, w, revision, digest, health);
    case ForceBlocking(revision) => ForceBlockingKeeps(rules, e, w, revision);
    case ForceBlockingIfActive =>
      if e.marker.None? { StatusKeeps(rules, e, w); } else { ForceBlockingKeeps(rules, e, w, e.marker.value.revision); }
    case Disable(revision) => DisableKeeps(rules, e, w, revision);
    case Recover => RecoverKeeps(rules, e, w);
    case Status => StatusKeeps(rules, e, w);
  }

  lemma StepKeeps(rules: Rules, s: State, event: Event)
    requires Inv(rules, s.e, s.w)
    ensures Inv(rules, Step(rules, s, event).e, Step(rules, s, event).w)
  {
    if event.Call? { ExecuteKeeps(rules, s.e, s.w.(script := event.script), event.command); }
  }

  lemma {:induction false} RunKeeps(rules: Rules, events: seq<Event>)
    ensures Inv(rules, Run(rules, events).e, Run(rules, events).w)
  {
    if events != [] {
      RunKeeps(rules, events[..|events| - 1]);
      StepKeeps(rules, Run(rules, events[..|events| - 1]), events[|events| - 1]);
    }
  }

  // ----- Crash safety --------------------------------------------------------

  /** At every instant of every run, redirects never stand without guards and
      no filter stands without a stored marker to recover it from. */
  lemma CrashSafety(rules: Rules, events: seq<Event>, i: nat)
    requires i < |Run(rules, events).w.trace|
    ensures var image := Run(rules, events).w.trace[i].image;
            && (image.backend.dataPlane.Some? ==> image.backend.guards.Some?)
            && (image.backend.guards.Some? || image.backend.dataPlane.Some? ==> image.store.marker.Some?)
            && (image.store.marker.Some? ==> ValidMarker(rules, image.store.marker.value))
  {
    RunKeeps(rules, events);
  }

  /** Filters are only ever bound to executables verified for their own policy. */
  lemma FiltersAreVerified(rules: Rules, events: seq<Event>, i: nat)
    requires i < |Run(rules, events).w.trace|
    ensures var b := Run(rules, events).w.trace[i].image.backend;
            && (b.guards.Some? ==> b.guards.value.verifiedFor == b.guards.value.policy)
            && (b.dataPlane.Some? ==> b.dataPlane.value.verifiedFor == b.dataPlane.value.policy)
  {
    RunKeeps(rules, events);
  }

  /** A crash image without a marker holds nothing that recovery would refuse. */
  lemma RecoveryNeverOrphaned(rules: Rules, events: seq<Event>, i: nat, capabilities: set<Capability>)
    requires i < |Run(rules, events).w.trace|
    requires Run(rules, events).w.trace[i].image.store.marker.None?
    ensures !Spec.Orphaned(Inventory(Run(rules, events).w.trace[i].image.backend, capabilities))
  {
    RunKeeps(rules, events);
  }

  // ----- Revision uniqueness -------------------------------------------------

  /** The stored watermark never drops, bounds the stored marker and every
      revision ever installed, and no revision is installed for two policies. */
  lemma RevisionsAreUnique(rules: Rules, events: seq<Event>, i: nat, j: nat)
    requires i < j < |Run(rules, events).w.trace|
    ensures var earlier, later := Run(rules, events).w.trace[i], Run(rules, events).w.trace[j];
            && earlier.image.store.highWatermark <= later.image.store.highWatermark
            && (later.image.store.marker.Some? ==> later.image.store.marker.value.revision <= later.image.store.highWatermark)
            && earlier.installs <= later.installs
            && (forall a, b :: 0 <= a < |later.installs| && 0 <= b < |later.installs|
                               && later.installs[a].policy.revision == later.installs[b].policy.revision ==>
                                 later.installs[a].policy == later.installs[b].policy)
            && (forall a :: 0 <= a < |later.installs| ==> later.installs[a].policy.revision <= later.image.store.highWatermark)
  {
    RunKeeps(rules, events);
    assert Follows(Run(rules, events).w.trace[i], Run(rules, events).w.trace[j]);
    var installs := Run(rules, events).w.trace[j].installs;
    forall a, b | 0 <= a < |installs| && 0 <= b < |installs| && installs[a].policy.revision == installs[b].policy.revision
      ensures installs[a].policy == installs[b].policy
    {
      assert installs[a] in installs && installs[b] in installs;
      assert AgreesWith(installs, installs[a].policy);
    }
  }

  // ----- Recovery convergence ------------------------------------------------

  predicate AllWork(script: seq<Answer>, calls: nat) {
    |script| >= calls && forall k :: 0 <= k < calls ==> script[k].outcome == Works
  }

  /** So many calls work, every later one fails. */
  function Working(calls: nat): (r: seq<Answer>)
    ensures |r| == calls && forall i :: 0 <= i < calls ==> r[i].outcome.Works?
  {
    seq(calls, i => Answer(Works, 1, RequiredForProxy()))
  }

  predicate RecoveredTo(s: State, r: Result<Spec.BrokerStatus>, marker: Marker, highWatermark: nat) {
    var settled := marker.WithPhase(Spec.SettledPhase(marker.policy), s.w.now.image.backend.generation);
    && r.Ok? && r.value.phase == settled.phase
    && s.e.phase == settled.phase
    && s.e.marker == Some(settled)
    && s.e.highWatermark == highWatermark && s.e.storeLoaded
    && s.e.lease == Some(marker.policy) && s.e.health == Spec.NO_HEALTH
    && s.w.now.image.store == Record(highWatermark, Some(settled))
    && s.w.now.image.backend.guards == Some(RuleSet(marker.policy, marker.digest, marker.policy))
    && s.w.now.image.backend.dataPlane == None
  }

  lemma RecoverConverges(rules: Rules, e: Engine, w: World)
    requires MomentOk(rules, w.now) && AllWork(w.script, 8)
    requires w.now.image.store.marker.Some? && w.now.image.store.marker.value.phase != Disabling
    ensures var r := Spec.Recover(rules, e, w);
            RecoveredTo(r.s, r.result, w.now.image.store.marker.value, w.now.image.store.highWatermark)
  {
    var (w1, record) := Load(w);
    var (w2, snapshot) := TakeSnapshot(w1);
    var marker := record.value.marker.value;
    var (w3, verified) := Verify(w2);
    if w.now.image.backend.dataPlane.Some? {
      var (w4, removed) := RemoveDataPlane(w3);
      var (w5, after) := TakeSnapshot(w4);
      RebindConverges(e.(storeLoaded := true, highWatermark := record.value.highWatermark, marker := Some(marker),
                         phase := Recovering, health := Spec.NO_HEALTH, lease := Some(marker.policy)), w5, marker);
    } else {
      RebindConverges(e.(storeLoaded := true, highWatermark := record.value.highWatermark, marker := Some(marker),
                         phase := Recovering, health := Spec.NO_HEALTH, lease := Some(marker.policy)), w3, marker);
    }
  }

  lemma RebindConverges(e: Engine, w: World, marker: Marker)
    requires AllWork(w.script, 3) && w.now.image.backend.dataPlane.None?
    requires w.now.image.store.marker == Some(marker) && marker.revision == marker.policy.revision
    requires marker.revision <= w.now.image.store.highWatermark == e.highWatermark
    requires e.lease == Some(marker.policy) && e.storeLoaded && e.health == Spec.NO_HEALTH
    ensures var r := Spec.Rebind(e, w, marker);
            RecoveredTo(r.s, r.result, marker, w.now.image.store.highWatermark)
  {
  }

  /** From any crash image of any run, a failure-free recovery by a new engine
      ends fail-closed for exactly the stored policy. */
  lemma RecoveryConverges(rules: Rules, events: seq<Event>, i: nat, script: seq<Answer>)
    requires i < |Run(rules, events).w.trace| && AllWork(script, 8)
    requires var store := Run(rules, events).w.trace[i].image.store;
             store.marker.Some? && store.marker.value.phase != Disabling
    ensures var crash := Run(rules, events).w.trace[i];
            var r := Spec.Recover(rules, Spec.NEW_ENGINE, World(crash, script, []));
            RecoveredTo(r.s, r.result, crash.image.store.marker.value, crash.image.store.highWatermark)
  {
    RunKeeps(rules, events);
    RecoverConverges(rules, Spec.NEW_ENGINE, World(Run(rules, events).w.trace[i], script, []));
  }

  function WithoutGeneration(m: Option<Marker>): Option<Marker> {
    if m.None? then None else Some(m.value.(filterGeneration := 0))
  }

  /** Equal in everything but the filter generation. */
  predicate SameButGeneration(a: State, b: State) {
    && a.e.(marker := None) == b.e.(marker := None)
    && WithoutGeneration(a.e.marker) == WithoutGeneration(b.e.marker)
    && a.w.now.image.backend.(generation := 0) == b.w.now.image.backend.(generation := 0)
    && a.w.now.image.store.highWatermark == b.w.now.image.store.highWatermark
    && WithoutGeneration(a.w.now.image.store.marker) == WithoutGeneration(b.w.now.image.store.marker)
  }

  lemma SecondRecoveryChangesNothing(rules: Rules, events: seq<Event>, i: nat, script: seq<Answer>, again: seq<Answer>)
    requires i < |Run(rules, events).w.trace| && AllWork(script, 8) && AllWork(again, 8)
    requires var store := Run(rules, events).w.trace[i].image.store;
             store.marker.Some? && store.marker.value.phase != Disabling
    ensures var first := Spec.Recover(rules, Spec.NEW_ENGINE, World(Run(rules, events).w.trace[i], script, []));
            var second := Spec.Recover(rules, first.s.e, first.s.w.(script := again));
            second.result.Ok? && SameButGeneration(first.s, second.s)
  {
    RunKeeps(rules, events);
    var w := World(Run(rules, events).w.trace[i], script, []);
    RecoverConverges(rules, Spec.NEW_ENGINE, w);
    assert Inv(rules, Spec.NEW_ENGINE, w);
    RecoverKeeps(rules, Spec.NEW_ENGINE, w);
    var first := Spec.Recover(rules, Spec.NEW_ENGINE, w);
    RecoverConverges(rules, first.s.e, first.s.w.(script := again));
  }

  /** With a disabling marker, recovery finishes the removal exactly when the
      guards are absent or carry the marker's revision; otherwise it refuses and
      leaves the guards alone. */
  lemma DisablingRecovery(rules: Rules, events: seq<Event>, i: nat, script: seq<Answer>)
    requires i < |Run(rules, events).w.trace| && AllWork(script, 8)
    requires var store := Run(rules, events).w.trace[i].image.store;
             store.marker.Some? && store.marker.value.phase == Disabling
    ensures var image := Run(rules, events).w.trace[i].image;
            var r := Spec.Recover(rules, Spec.NEW_ENGINE, World(Run(rules, events).w.trace[i], script, []));
            var after := r.s.w.now.image;
            && after.backend.dataPlane == None
            && after.store.highWatermark == image.store.highWatermark
            && (r.result.Ok? <==> image.backend.guards.Some? ==>
                                    image.backend.guards.value.policy.revision == image.store.marker.value.revision)
            && (r.result.Ok? ==> r.s.e.phase == Disabled && r.s.e.marker == None
                                 && after.backend.guards == None && after.store.marker == None)
            && (r.result.Err? ==> after.backend.guards == image.backend.guards && after.store == image.store)
  {
    RunKeeps(rules, events);
    var m := Run(rules, events).w.trace[i];
    var w := World(m, script, []);
    var marker := m.image.store.marker.value;
    assert MomentOk(rules, m);
    if m.image.backend.guards.Some? && m.image.backend.guards.value.policy.revision == marker.revision {
      assert AgreesWith(m.installs, marker.policy);
      assert SameDigest(m.image.backend.guards.value.digest, marker.digest);
    }
    var e := Spec.NEW_ENGINE.(storeLoaded := true, highWatermark := m.image.store.highWatermark, marker := Some(marker), phase := Recovering);
    CompleteDisableOutcome(e, Pop(Pop(w)), marker);
  }

  lemma CompleteDisableOutcome(e: Engine, w: World, marker: Marker)
    requires AllWork(w.script, 5) && (w.now.image.backend.dataPlane.Some? ==> w.now.image.backend.guards.Some?)
    ensures var b := w.now.image.backend;
            var r := Spec.CompleteDisable(e, w, marker);
            var after := r.s.w.now.image;
            && after.backend.dataPlane == None
            && after.store.highWatermark == w.now.image.store.highWatermark
            && (r.result.Ok? <==> b.guards.Some? ==> b.guards.value.policy.revision == marker.revision && SameDigest(b.guards.value.digest, marker.digest))
            && (r.result.Ok? ==> r.s.e.phase == Disabled && r.s.e.marker == None
                                 && after.backend.guards == None && after.store.marker == None)
            && (r.result.Err? ==> after.backend.guards == b.guards && after.store == w.now.image.store)
  {
    var (w1, removed) := RemoveDataPlane(w);
    var (w2, snapshot) := TakeSnapshot(w1);
    if snapshot.value.guardsInstalled && Spec.SnapshotMatches(snapshot.value, marker, true, false) {
      var (w3, cleared) := RemoveGuards(w2);
      var (w4, after) := TakeSnapshot(w3);
    }
  }

  // ----- Migration never uncovers an executable ------------------------------

  predicate GuardsCover(m: Moment, policy: Policy) {
    m.image.backend.guards.Some? && Covers(m.image.backend.guards.value.policy, policy)
  }

  predicate CoveredSince(w: World, from: nat, policy: Policy) {
    GuardsCover(w.now, policy) && forall i :: from <= i < |w.trace| ==> GuardsCover(w.trace[i], policy)
  }

  lemma CoversItself(policy: Policy)
    ensures Covers(policy, policy)
  {
    forall i, k | 0 <= i < |policy.entries| && 0 <= k < |Executables(policy.entries[i].identity)|
      ensures exists j :: 0 <= j < |policy.entries| && Retains(policy.entries[j].identity, Executables(policy.entries[i].identity)[k])
    {
      assert SameExecutable(Executables(policy.entries[i].identity)[k], Executables(policy.entries[i].identity)[k]);
      assert Retains(policy.entries[i].identity, Executables(policy.entries[i].identity)[k]);
    }
  }

  lemma ForceBlockingCovers(e: Engine, w: World, revision: nat, from: nat, policy: Policy)
    requires CoveredSince(w, from, policy)
    ensures CoveredSince(Spec.ForceBlocking(e, w, revision).s.w, from, policy)
  {
    if e.marker.None? || e.marker.value.revision != revision { return; }
    var (w1, removed) := RemoveDataPlane(w);
    assert CoveredSince(w1, from, policy);
  }

  lemma SuccessorCovers(rules: Rules, e: Engine, w: World, from: nat, successor: Policy, policy: Policy)
    requires CoveredSince(w, from, policy) && Covers(successor, policy)
    ensures CoveredSince(Spec.InstallSuccessor(rules, e, w, successor).s.w, from, policy)
  {
    var preparing := PreparingMarker(successor, rules.digest(successor));
    PersistCovers(w, preparing, from, policy);
    var (w1, persisted) := Persist(w, preparing);
    if !persisted { return; }
    GuardsCoverSince(w1, successor, preparing.digest, from, policy);
    var (w2, installed) := InstallGuards(w1, successor, successor, preparing.digest);
    if !installed { return; }
    PersistCovers(TakeSnapshot(w2).0, preparing.WithPhase(Spec.SettledPhase(successor), w2.now.image.backend.generation), from, policy);
  }

  lemma PersistCovers(w: World, marker: Marker, from: nat, policy: Policy)
    requires CoveredSince(w, from, policy)
    ensures CoveredSince(Persist(w, marker).0, from, policy)
  {
  }

  lemma GuardsCoverSince(w: World, successor: Policy, digest: string, from: nat, policy: Policy)
    requires CoveredSince(w, from, policy) && Covers(successor, policy)
    ensures CoveredSince(InstallGuards(w, successor, successor, digest).0, from, policy)
  {
  }

  /** While an identity migration runs, whatever fails and wherever it crashes,
      every executable guarded before stays guarded. */
  lemma MigrationNeverUncovers(rules: Rules, e: Engine, w: World, policy: Policy)
    requires e.marker.Some? && w.now.image.backend.guards.Some?
    requires w.now.image.backend.guards.value.policy == e.marker.value.policy
    ensures CoveredSince(Spec.MigrateIdentity(rules, e, w, policy).s.w, |w.trace|, e.marker.value.policy)
  {
    var source := e.marker.value;
    CoversItself(source.policy);
    if !ValidMigration(rules, source.policy, policy) || source.phase == Disabling || policy.revision <= e.highWatermark { return; }
    MigrationCovers(rules, source.policy, policy);
    var (w1, verified) := Verify(w);
    if !verified { return; }
    ForceBlockingCovers(e, w1, source.revision, |w.trace|, source.policy);
    var blocked := Spec.ForceBlocking(e, w1, source.revision);
    if blocked.result.Err? { return; }
    SuccessorCovers(rules, blocked.s.e, blocked.s.w, |w.trace|, policy, source.policy);
  }
}
