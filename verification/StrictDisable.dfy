/** Disabling a strict policy from end to end: exactly which proof confirms it to the
    Agent, what the Broker answers, and that the three components finish it together. */
module StrictDisable {
  import opened Wrappers
  import opened StrictContract
  import opened StrictProtocol
  import opened BrokerWorld
  import Engine = BrokerSpec
  import opened BrokerInvariant
  import BrokerRuns
  import BrokerReplies
  import Success = BrokerSuccess
  import Dispatcher = BrokerDispatch
  import Ingress = CoreIngress
  import Core = CoreSide
  import Control = StrictControllerModule
  import opened OrchestratorSpec
  import opened OrchestratorRuns

  // ----- The Agent's side ----------------------------------------------------

  /** While a disable is awaited, a proof confirms it exactly if each of its nine fields
      is zero, empty or false and one more empty Core generation can be drawn. The Agent
      then asks the Core for nothing, and waits. Any other proof changes nothing. */
  lemma EmptyProofConfirmsExactly(rules: Rules, o: Orchestrator, proof: BrokerProof, draw: Ingress.Draw)
    requires o.phase.AwaitDisable?
    ensures var (o', r) := AcceptProof(rules, o, proof, draw);
            var empty := && proof.revision == 0 && proof.policyDigest == ZeroDigest() && proof.filterGeneration == 0
                         && proof.capabilities == {} && !proof.guardsInstalled && !proof.markerPresent
                         && !proof.coreHealthy && !proof.relayHealthy && !proof.dnsHealthy;
            var request := Ingress.CoreAction(o.ingress.generation + 1, []);
            && (r.Ok? <==> empty && o.ingress.generation < U64_MAX && draw.fits)
            && (r.Ok? ==>
                  && r.value == Action.Core(request)
                  && o'.phase == AwaitDisableRevoke && o'.controller == o.controller
                  && o'.ingress == Ingress.Coordinator(o.ingress.generation + 1, Some(request), o.ingress.active))
            && (!empty ==> o' == o)
  {
  }

  const DISABLED: Control.StrictStatus := Control.StrictStatus(Control.Disabled, Control.NoReason, None, None)

  /** The Agent has forgotten the policy and serves no ingress. */
  predicate Forgotten(o: Orchestrator, settled: Result<Action>) {
    && o.phase.Idle? && o.controller == Control.Controller(None, Control.Disabled, Control.NoReason, None, false)
    && o.ingress.pending.None? && o.ingress.active.None?
    && settled == Ok(Settled(DISABLED))
  }

  /** An answer to the empty request settles the disable exactly if it correlates with it. */
  lemma RevokeSettlesExactly(rules: Rules, o: Orchestrator, response: Ingress.CoreResponse)
    requires Agrees(o) && o.phase.AwaitDisableRevoke? && o.ingress.pending.Some? && o.ingress.pending.value.entries == []
    ensures var (o', r) := AcceptCore(rules, o, response);
            && (r.Ok? <==> Ingress.Correlates(o.ingress.pending.value, response))
            && (r.Ok? ==> Forgotten(o', r))
            && (r.Err? ==> o'.phase.AwaitDisableRevoke? && o'.controller == o.controller)
  {
  }

  lemma AwaitedSettles(rules: Rules, o: Orchestrator, proof: BrokerProof, draw: Ingress.Draw, response: Ingress.CoreResponse)
    requires Agrees(o) && o.phase.AwaitDisable? && o.ingress.generation < U64_MAX && draw.fits
    requires proof == BrokerProof(0, ZeroDigest(), 0, {}, false, false, false, false, false)
    requires Ingress.Correlates(Ingress.CoreAction(o.ingress.generation + 1, []), response)
    ensures var (confirmed, request) := AcceptProof(rules, o, proof, draw);
            var (end, settled) := AcceptCore(rules, confirmed, response);
            request.Ok? && Forgotten(end, settled)
  {
    EmptyProofConfirmsExactly(rules, o, proof, draw);
    AcceptProofAgrees(rules, o, proof, draw);
    RevokeSettlesExactly(rules, AcceptProof(rules, o, proof, draw).0, response);
  }

  /** After any permitted run that awaits the end of a disable, the empty proof and a
      correlated answer to the Core request it leads to settle it: two pairs in all. */
  lemma DisableSettles(rules: Rules, calls: seq<Call>, o: Orchestrator, proof: BrokerProof, draw: Ingress.Draw, response: Ingress.CoreResponse)
    requires AllPermitted(rules, calls) && o == After(rules, calls).o && o.phase.AwaitDisable?
    requires o.ingress.generation < U64_MAX && draw.fits
    requires proof == BrokerProof(0, ZeroDigest(), 0, {}, false, false, false, false, false)
    requires Ingress.Correlates(Ingress.CoreAction(o.ingress.generation + 1, []), response)
    ensures var (confirmed, request) := AcceptProof(rules, o, proof, draw);
            var (end, settled) := AcceptCore(rules, confirmed, response);
            request.Ok? && Forgotten(end, settled)
  {
    RunAgrees(rules, calls);
    AwaitedSettles(rules, o, proof, draw, response);
  }

  // ----- The Broker's side ---------------------------------------------------

  /** The revision is live and no guards of another one are installed. */
  predicate MayDisable(e: Engine.Engine, w: World, revision: nat) {
    && e.marker.Some? && e.marker.value.revision == revision
    && (w.now.image.backend.guards.Some? ==> w.now.image.backend.guards.value.policy.revision == revision)
  }

  /** Which answer the last removal takes: there are guards to remove, or only redirects. */
  function LastRemoval(w: World): nat {
    if w.now.image.backend.guards.Some? then 3 else 1
  }

  /** After the last removal the backend reports no generation and attests to nothing. */
  predicate ReportsClean(w: World) {
    && |w.script| >= 5
    && w.script[LastRemoval(w)].generation == 0
    && RequiredForBlockOnly() !! w.script[LastRemoval(w) + 1].capabilities
  }

  lemma DisableReport(rules: Rules, e: Engine.Engine, w: World, revision: nat)
    requires Inv(rules, e, w) && BrokerRuns.AllWork(w.script, 6) && Engine.Disable(e, w, revision).result.Ok?
    ensures var proof := Engine.Disable(e, w, revision).result.value.proof;
            && proof.filterGeneration == w.script[LastRemoval(w)].generation
            && proof.capabilities == w.script[LastRemoval(w) + 1].capabilities * RequiredForBlockOnly()
  {
    var disabling := e.marker.value.WithPhase(Disabling, e.marker.value.filterGeneration);
    CompletionReport(e.(marker := Some(disabling), phase := Recovering, health := Engine.NO_HEALTH), Persist(w, disabling).0, disabling);
  }

  lemma CompletionReport(e: Engine.Engine, w: World, marker: Marker)
    requires BrokerRuns.AllWork(w.script, 5) && Engine.CompleteDisable(e, w, marker).result.Ok?
    ensures var proof := Engine.CompleteDisable(e, w, marker).result.value.proof;
            var last := if w.now.image.backend.guards.Some? then 2 else 0;
            && proof.filterGeneration == w.script[last].generation
            && proof.capabilities == w.script[last + 1].capabilities * RequiredForBlockOnly()
  {
  }

  /** With nothing failing, the Broker answers a disable with a proof exactly if it may
      disable that revision and the backend reports clean; the proof is then the empty
      one, nothing is left, and forwarding is off. */
  lemma DisableAnswersExactly(rules: Rules, n: Dispatcher.Node, revision: nat)
    requires Inv(rules, n.e, n.w) && BrokerRuns.AllWork(n.w.script, 6) && Dispatcher.NextAnswer(n.probe).outcome.Works?
    ensures var (n', response) := Dispatcher.Dispatch(rules, n, DisablePolicy(revision));
            && (response.Proven? <==> MayDisable(n.e, n.w, revision) && ReportsClean(n.w))
            && (response.Proven? ==> response.proof == BrokerProof(0, ZeroDigest(), 0, {}, false, false, false, false, false))
            && !n'.probe.forwarding
            && (MayDisable(n.e, n.w, revision) ==> NothingLeft(n'))
  {
    Success.DisableSucceedsExactly(rules, n.e, n.w, revision);
    var r := Engine.Disable(n.e, n.w, revision);
    if r.result.Ok? {
      BrokerReplies.DisableProvesNothingLeft(rules, n.e, n.w, revision);
      DisableReport(rules, n.e, n.w, revision);
      SharesNothing(n.w.script[LastRemoval(n.w) + 1].capabilities);
      ZeroIsSha256();
    }
  }

  lemma SharesNothing(capabilities: set<Capability>)
    ensures capabilities * RequiredForBlockOnly() == {} <==> RequiredForBlockOnly() !! capabilities
  {
    var shared := capabilities * RequiredForBlockOnly();
    if shared == {} {
      forall c | c in RequiredForBlockOnly() ensures c !in capabilities { assert c !in shared; }
    } else {
      var c :| c in shared;
      assert c in RequiredForBlockOnly() && c in capabilities;
    }
  }

  lemma ZeroIsSha256()
    ensures IsSha256(ZeroDigest())
  {
  }

  predicate NothingLeft(n: Dispatcher.Node) {
    && n.e.phase == BrokerPhase.Disabled && n.e.marker.None?
    && n.w.now.image.backend.guards.None? && n.w.now.image.backend.dataPlane.None? && n.w.now.image.store.marker.None?
  }

  /** If only the answer to a disable was lost, a status confirms it just as well. */
  lemma StatusConfirmsExactly(rules: Rules, n: Dispatcher.Node)
    requires NothingLeft(n)
    ensures var (n', response) := Dispatcher.Dispatch(rules, n, Command.Status);
            && n'.e == n.e && n'.w.now == n.w.now
            && (response.Proven? <==>
                  && BrokerRuns.AllWork(n.w.script, 1) && n.w.now.image.backend.generation == 0
                  && RequiredForBlockOnly() !! n.w.script[0].capabilities)
            && (response.Proven? ==> response.proof == BrokerProof(0, ZeroDigest(), 0, {}, false, false, false, false, false))
  {
    ZeroIsSha256();
    if BrokerRuns.AllWork(n.w.script, 1) { SharesNothing(n.w.script[0].capabilities); }
  }

  // ----- All three together --------------------------------------------------

  /** After any permitted run that left a policy active or blocked, and any state of a
      Broker that may disable it, and whatever the Core serves: the Agent's disable, the
      Broker's own answer and the Core's own answer end with all three empty. */
  lemma DisableCompletes(rules: Rules, calls: seq<Call>, n: Dispatcher.Node, session: Option<Core.Session>, at: Core.Surroundings,
                         draw: Ingress.Draw)
    requires AllPermitted(rules, calls) && Replaceable(After(rules, calls).o)
    requires After(rules, calls).o.ingress.generation < U64_MAX && draw.fits && at.authenticated
    requires Inv(rules, n.e, n.w) && BrokerRuns.AllWork(n.w.script, 6) && Dispatcher.NextAnswer(n.probe).outcome.Works?
    requires MayDisable(n.e, n.w, After(rules, calls).o.phase.revision) && ReportsClean(n.w)
    ensures var o := After(rules, calls).o;
            var (asked, action) := Disable(o);
            && action == Ok(Action.Broker(DisablePolicy(o.phase.revision)))
            && var (n', response) := Dispatcher.Dispatch(rules, n, action.value.command);
            && response.Proven? && NothingLeft(n') && !n'.probe.forwarding
            && var (confirmed, request) := AcceptProof(rules, asked, response.proof, draw);
            && request.Ok? && request.value.Core?
            && var (left, answer) := Core.Configure(rules, session, request.value.action, at);
            && answer.Ok? && left.None?
            && var (end, settled) := AcceptCore(rules, confirmed, Core.AsResponse(answer.value));
            Forgotten(end, settled)
  {
    var o := After(rules, calls).o;
    RunAgrees(rules, calls);
    StepAgrees(rules, o, DoDisable);
    var (asked, action) := Disable(o);
    DisableAnswersExactly(rules, n, o.phase.revision);
    var proof := BrokerProof(0, ZeroDigest(), 0, {}, false, false, false, false, false);
    EmptyProofConfirmsExactly(rules, asked, proof, draw);
    AcceptProofAgrees(rules, asked, proof, draw);
    var confirmed := AcceptProof(rules, asked, proof, draw).0;
    var request := Ingress.CoreAction(asked.ingress.generation + 1, []);
    RevokeSettlesExactly(rules, confirmed, Core.AsResponse(Core.Configure(rules, session, request, at).1.value));
  }
}
