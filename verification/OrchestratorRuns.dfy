/** Every sequence of calls on the orchestrator, with the history it leaves. */
module OrchestratorRuns {
  import opened Wrappers
  import opened StrictContract
  import opened TargetGroups
  import Ingress = CoreIngress
  import Control = StrictControllerModule
  import opened StrictProtocol
  import opened OrchestratorSpec

  datatype Call =
    | DoBegin(policy: Policy)
    | DoRestoreDisable(policy: Policy)
    | DoBeginMigration(policy: Policy)
    | DoAcceptProof(proof: BrokerProof, draw: Ingress.Draw)
    | DoAcceptCore(response: Ingress.CoreResponse)
    | DoForceBlocking
    | DoDisable
    | DoBrokerLost(revision: nat)
    | DoRecover(policy: Policy, draw: Ingress.Draw)
    | DoRetryCoreRevoke(draw: Ingress.Draw)

  /** `BrokerLost` hands out no action. */
  function Perform(rules: Rules, o: Orchestrator, call: Call): Outcome {
    match call
    case DoBegin(policy) => Begin(rules, o, policy)
    case DoRestoreDisable(policy) => RestoreDisable(rules, o, policy)
    case DoBeginMigration(policy) => BeginMigration(rules, o, policy)
    case DoAcceptProof(proof, draw) => AcceptProof(rules, o, proof, draw)
    case DoAcceptCore(response) => AcceptCore(rules, o, response)
    case DoForceBlocking => ForceBlockingNow(o)
    case DoDisable => Disable(o)
    case DoBrokerLost(revision) => (BrokerLost(o, revision), Err)
    case DoRecover(policy, draw) => Recover(rules, o, policy, draw)
    case DoRetryCoreRevoke(draw) => RetryCoreRevoke(o, draw)
  }

  /** What callers check first: a migration starts only with a policy that can
      begin, and a lost Broker is reported only for the live policy. */
  predicate Permitted(rules: Rules, o: Orchestrator, call: Call) {
    match call
    case DoBeginMigration(policy) => Replaceable(o) ==> BeginMigration(rules, o, policy).1.Ok?
    case DoBrokerLost(revision) => !o.phase.Idle? && o.controller.desired.Some? && o.controller.desired.value.revision == revision
    case _ => true
  }

  // ----- Phase and controller agree ------------------------------------------

  predicate IntentOk(i: Control.Intent) {
    i.required == if i.proxies == 0 then RequiredForBlockOnly() else RequiredForProxy()
  }

  predicate Disabling(phase: Phase) {
    phase.AwaitDisable? || phase.AwaitDisableRevoke?
  }

  predicate Agrees(o: Orchestrator) {
    && (o.controller.disabling <==> Disabling(o.phase))
    && (o.controller.desired.None? ==> o.phase.Idle?)
    && (o.controller.desired.Some? ==> IntentOk(o.controller.desired.value))
    && (o.controller.state.Armed? && o.controller.desired.Some? && o.controller.desired.value.proxies > 0 ==> o.phase.Active?)
  }

  lemma BeginAgrees(rules: Rules, o: Orchestrator, policy: Policy)
    requires Agrees(o)
    ensures Agrees(Begin(rules, o, policy).0)
    ensures Begin(rules, o, policy).1.Ok? ==>
              Begin(rules, o, policy).0.phase.AwaitPrepare? && Begin(rules, o, policy).0.controller.desired.Some?
  {
  }

  /** Only the full proxy set arms a proxy intent, and it proves the guards too. */
  lemma ArmedProvesGuard(c: Control.Controller, proof: BrokerProof)
    requires c.desired.Some? && IntentOk(c.desired.value)
    requires Control.ApplyProof(c, proof).1 && Control.ApplyProof(c, proof).0.state.Armed?
    ensures ProvesGuard(proof)
    ensures c.desired.value.proxies > 0 ==> proof.coreHealthy && RequiredForProxy() <= proof.capabilities
  {
    assert RequiredForBlockOnly() <= RequiredForProxy();
  }

  lemma AcceptProofAgrees(rules: Rules, o: Orchestrator, proof: BrokerProof, draw: Ingress.Draw)
    requires Agrees(o)
    ensures Agrees(AcceptProof(rules, o, proof, draw).0)
    ensures AcceptProof(rules, o, proof, draw).0.phase.Idle? ==> o.phase.Idle?
  {
    if o.phase.AwaitPrepare? { AcceptPreparedAgrees(rules, o, proof, draw); }
  }

  lemma AcceptPreparedAgrees(rules: Rules, o: Orchestrator, proof: BrokerProof, draw: Ingress.Draw)
    requires Agrees(o) && o.phase.AwaitPrepare?
    ensures Agrees(AcceptProof(rules, o, proof, draw).0)
    ensures !AcceptProof(rules, o, proof, draw).0.phase.Idle?
  {
    var (c, ok) := Control.ApplyProof(o.controller, proof);
    if ok && c.state.Armed? { ArmedProvesGuard(o.controller, proof); }
  }

  lemma StepAgrees(rules: Rules, o: Orchestrator, call: Call)
    requires Agrees(o) && Permitted(rules, o, call)
    ensures Agrees(Perform(rules, o, call).0)
  {
    match call
    case DoBegin(policy) => BeginAgrees(rules, o, policy);
    case DoRestoreDisable(policy) => BeginAgrees(rules, o, policy);
    case DoBeginMigration(policy) => if Replaceable(o) { MigrationAgrees(rules, o, policy); }
    case DoAcceptProof(proof, draw) => AcceptProofAgrees(rules, o, proof, draw);
    case DoRecover(policy, draw) => if o.phase.Blocked? { BeginAgrees(rules, o.(phase := Idle), policy); }
    case _ =>
  }

  lemma MigrationAgrees(rules: Rules, o: Orchestrator, policy: Policy)
    requires Agrees(o) && Replaceable(o) && BeginMigration(rules, o, policy).1.Ok?
    ensures Agrees(BeginMigration(rules, o, policy).0)
  {
  }

  /** No proof and no Core response, however wrong, ends in Idle, except the
      Core response that completes a requested disable. */
  lemma OnlyDisableReachesIdle(rules: Rules, o: Orchestrator, proof: BrokerProof, draw: Ingress.Draw, response: Ingress.CoreResponse)
    requires Agrees(o) && !o.phase.Idle?
    ensures !AcceptProof(rules, o, proof, draw).0.phase.Idle?
    ensures var (o', r) := AcceptCore(rules, o, response);
            o'.phase.Idle? ==> o.phase.AwaitDisableRevoke? && o'.controller == Control.NEW_CONTROLLER && r.Ok?
  {
    AcceptProofAgrees(rules, o, proof, draw);
  }

  /** A migration leaves the orchestrator idle exactly when the new policy cannot begin. */
  lemma MigrationStrandsExactlyWhenRefused(rules: Rules, o: Orchestrator, policy: Policy)
    requires Agrees(o) && Replaceable(o)
    ensures BeginMigration(rules, o, policy).0.phase.Idle? <==>
              (!ValidPolicy(rules, policy) || IntentFor(rules, policy).Err?
               || !Control.MayBegin(o.controller, IntentFor(rules, policy).value))
  {
  }

  // ----- Histories -----------------------------------------------------------

  datatype Event =
    | Accepted(proof: BrokerProof, armed: bool)
    | Issued(action: Action)
    | Blocking

  function EventsOf(call: Call, outcome: Outcome): seq<Event> {
    var (o, r) := outcome;
    (if call.DoAcceptProof? && r.Ok? then [Accepted(call.proof, o.controller.state.Armed?)] else [])
    + (if r.Ok? then [Issued(r.value)] else [])
    + (if o.phase.AwaitBlocking? then [Blocking] else [])
  }

  datatype Run = Run(o: Orchestrator, history: seq<Event>)

  function After(rules: Rules, calls: seq<Call>): Run {
    if calls == [] then Run(NEW_ORCHESTRATOR, [])
    else
      var before := After(rules, calls[..|calls| - 1]);
      var call := calls[|calls| - 1];
      var outcome := Perform(rules, before.o, call);
      Run(outcome.0, before.history + EventsOf(call, outcome))
  }

  predicate AllPermitted(rules: Rules, calls: seq<Call>) {
    calls != [] ==>
      && AllPermitted(rules, calls[..|calls| - 1])
      && Permitted(rules, After(rules, calls[..|calls| - 1]).o, calls[|calls| - 1])
  }

  lemma {:induction false} RunAgrees(rules: Rules, calls: seq<Call>)
    requires AllPermitted(rules, calls)
    ensures Agrees(After(rules, calls).o)
  {
    if calls != [] {
      RunAgrees(rules, calls[..|calls| - 1]);
      StepAgrees(rules, After(rules, calls[..|calls| - 1]).o, calls[|calls| - 1]);
    }
  }

  /** Over all permitted runs: an armed proxy policy is active, and the disabling
      flag is up exactly in the two disable phases. */
  lemma PhaseAndControllerAgree(rules: Rules, calls: seq<Call>)
    requires AllPermitted(rules, calls)
    ensures var o := After(rules, calls).o;
            && (o.controller.disabling <==> o.phase.AwaitDisable? || o.phase.AwaitDisableRevoke?)
            && (o.controller.state.Armed? && o.controller.desired.Some? && o.controller.desired.value.proxies > 0 ==>
                  o.phase.Active?)
  {
    RunAgrees(rules, calls);
  }

  /** Block a policy's applications, then migrate to an older policy. */
  function StrandingRun(rules: Rules, p: Policy, older: Policy, draw: Ingress.Draw): seq<Call> {
    var proof := BrokerProof(p.revision, rules.digest(p), 1, RequiredForBlockOnly(), true, true, false, false, false);
    [DoBegin(p), DoAcceptProof(proof, draw), DoBeginMigration(older)]
  }

  lemma AfterThree(rules: Rules, a: Call, b: Call, c: Call)
    ensures var first := Perform(rules, NEW_ORCHESTRATOR, a).0;
            After(rules, [a, b, c]).o == Perform(rules, Perform(rules, first, b).0, c).0
  {
    assert [a, b, c][..2] == [a, b] && [a, b][..1] == [a] && [a][..0] == [];
    assert After(rules, [a]).o == Perform(rules, After(rules, []).o, a).0;
    assert After(rules, [a, b]).o == Perform(rules, After(rules, [a]).o, b).0;
  }

  /** A refused migration strands the orchestrator: the phase is idle while the
      controller is still armed for the policy that stands. */
  lemma MigrationStrands(rules: Rules, p: Policy, older: Policy, draw: Ingress.Draw)
    requires ValidPolicy(rules, p) && !HasProxyEntries(p) && IntentFor(rules, p).Ok? && older.revision < p.revision
    ensures var o := After(rules, StrandingRun(rules, p, older, draw)).o;
            && o.phase.Idle? && o.controller.state.Armed? && o.controller.desired == Some(IntentFor(rules, p).value)
  {
    var calls := StrandingRun(rules, p, older, draw);
    AfterThree(rules, calls[0], calls[1], calls[2]);
    LowerTwice(rules.digest(p));
    NoProxyGroups(p.entries);
    var begun := Begin(rules, NEW_ORCHESTRATOR, p).0;
    var active := AcceptProof(rules, begun, calls[1].proof, draw).0;
    assert active.phase == Active(p.revision) && active.controller.state.Armed?;
  }
}
