/** What the Broker engine does not own: the filter backend, the recovery store
    and the identity verifier, driven by a script of answers.

    Every call consumes one answer. A call works, fails without effect, or takes
    effect and still reports failure. An exhausted script makes every later call
    fail without effect, which is what a crash looks like from outside. */
module BrokerWorld {
  import opened Wrappers
  import opened StrictContract

  datatype BrokerPhase = Disabled | Preparing | Blocking | Armed | Recovering | Disabling

  datatype Marker = Marker(
    protocol: nat,
    revision: nat,
    digest: string,
    filterGeneration: nat,
    phase: BrokerPhase,
    policy: Policy)
  {
    function WithPhase(next: BrokerPhase, generation: nat): Marker {
      this.(phase := next, filterGeneration := generation)
    }
  }

  function PreparingMarker(policy: Policy, digest: string): Marker {
    Marker(STRICT_PROTOCOL_VERSION, policy.revision, digest, 0, Preparing, policy)
  }

  predicate ValidMarker(rules: Rules, m: Marker) {
    && m.protocol == STRICT_PROTOCOL_VERSION
    && m.phase != Disabled
    && ValidPolicy(rules, m.policy)
    && m.policy.revision == m.revision
    && SameDigest(rules.digest(m.policy), m.digest)
  }

  datatype Record = Record(highWatermark: nat, marker: Option<Marker>)

  /** A filter set as the backend holds it: the policy it enforces, the digest
      it was labelled with, and the policy whose executables were verified. */
  datatype RuleSet = RuleSet(policy: Policy, digest: string, verifiedFor: Policy)

  datatype Backend = Backend(guards: Option<RuleSet>, dataPlane: Option<RuleSet>, generation: nat)

  datatype Image = Image(backend: Backend, store: Record)

  /** Durable state at one instant, with every guard installation asked for so far. */
  datatype Moment = Moment(image: Image, installs: seq<RuleSet>)

  datatype Snapshot = Snapshot(
    revision: Option<nat>,
    digest: Option<string>,
    filterGeneration: nat,
    guardsInstalled: bool,
    dataPlaneInstalled: bool,
    capabilities: set<Capability>)

  datatype Outcome = Works | Fails | FailsAfterEffect

  datatype Answer = Answer(outcome: Outcome, generation: nat, capabilities: set<Capability>)

  datatype World = World(now: Moment, script: seq<Answer>, trace: seq<Moment>)

  const DEAD: Answer := Answer(Fails, 0, {})

  function Head(w: World): Answer {
    if w.script == [] then DEAD else w.script[0]
  }

  function Pop(w: World): World {
    if w.script == [] then w else w.(script := w.script[1..])
  }

  /** Moves to `next` and records the new moment. */
  function Become(w: World, next: Moment): World {
    w.(now := next, trace := w.trace + [next])
  }

  /** One atomic mutation: all of `next` or nothing, whatever is reported. */
  function Mutate(w: World, next: Moment): (World, bool) {
    match Head(w).outcome
    case Works => (Become(Pop(w), next), true)
    case Fails => (Pop(w), false)
    case FailsAfterEffect => (Become(Pop(w), next), false)
  }

  function Ask<T>(w: World, reply: T): (World, Option<T>) {
    (Pop(w), if Head(w).outcome.Works? then Some(reply) else None)
  }

  // ----- Filter backend ------------------------------------------------------

  function WithBackend(m: Moment, b: Backend): Moment {
    m.(image := m.image.(backend := b))
  }

  /** The attempt is recorded whether or not the backend performs it. */
  function InstallGuards(w: World, policy: Policy, verifiedFor: Policy, digest: string): (World, bool) {
    var rules := RuleSet(policy, digest, verifiedFor);
    var asked := Become(w, w.now.(installs := w.now.installs + [rules]));
    Mutate(asked, WithBackend(asked.now, asked.now.image.backend.(guards := Some(rules), generation := Head(w).generation)))
  }

  function InstallDataPlane(w: World, policy: Policy, verifiedFor: Policy, digest: string): (World, bool) {
    var rules := RuleSet(policy, digest, verifiedFor);
    Mutate(w, WithBackend(w.now, w.now.image.backend.(dataPlane := Some(rules), generation := Head(w).generation)))
  }

  function RemoveDataPlane(w: World): (World, bool) {
    Mutate(w, WithBackend(w.now, w.now.image.backend.(dataPlane := None, generation := Head(w).generation)))
  }

  function RemoveGuards(w: World): (World, bool) {
    Mutate(w, WithBackend(w.now, w.now.image.backend.(guards := None, generation := Head(w).generation)))
  }

  /** An honest inventory; only the capability attestation is the backend's word. */
  function Inventory(b: Backend, capabilities: set<Capability>): Snapshot {
    var held := if b.guards.Some? then b.guards else b.dataPlane;
    Snapshot(
      if held.Some? then Some(held.value.policy.revision) else None,
      if held.Some? then Some(held.value.digest) else None,
      b.generation, b.guards.Some?, b.dataPlane.Some?, capabilities)
  }

  function TakeSnapshot(w: World): (World, Option<Snapshot>) {
    Ask(w, Inventory(w.now.image.backend, Head(w).capabilities))
  }

  // ----- Recovery store ------------------------------------------------------

  function Load(w: World): (World, Option<Record>) {
    Ask(w, w.now.image.store)
  }

  function WithStore(m: Moment, r: Record): Moment {
    m.(image := m.image.(store := r))
  }

  function Persist(w: World, marker: Marker): (World, bool) {
    var store := w.now.image.store;
    var highest := if store.highWatermark < marker.revision then marker.revision else store.highWatermark;
    Mutate(w, WithStore(w.now, Record(highest, Some(marker))))
  }

  function ClearMarker(w: World): (World, bool) {
    Mutate(w, WithStore(w.now, w.now.image.store.(marker := None)))
  }

  // ----- Identity verifier ---------------------------------------------------

  function Verify(w: World): (World, bool) {
    (Pop(w), Head(w).outcome.Works?)
  }
}
