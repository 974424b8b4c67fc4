/** Agent and Broker together: the Agent is armed for a proxy policy only on the
    word of a proof the Broker took while it enforced that very policy. */
module ArmedSoundness {
  import opened Wrappers
  import opened StrictContract
  import World = BrokerWorld
  import Engine = BrokerSpec
  import Invariant = BrokerInvariant
  import Broker = BrokerRuns
  import Control = StrictControllerModule
  import Agent = OrchestratorSpec
  import AgentRuns = OrchestratorRuns
  import Ingress = CoreIngress

  /** A proof together with the durable state at the instant it was sent. */
  datatype Sent = Sent(proof: BrokerProof, moment: World.Moment)

  /** `armedBy` names the sent proof whose acceptance last left the Agent armed. */
  datatype System = System(broker: Broker.State, agent: Agent.Orchestrator, sent: seq<Sent>, armedBy: Option<nat>)

  /** The Broker runs commands and crashes; any proof it ever sent may reach the
      Agent at any later time, repeatedly, or never; the Agent's other calls come
      in any order. */
  datatype Event =
    | AtBroker(event: Broker.Event)
    | Deliver(index: nat, draw: Ingress.Draw)
    | AtAgent(call: AgentRuns.Call)

  function Step(rules: Rules, s: System, event: Event): System {
    match event
    case AtBroker(Restart) => s.(broker := Broker.Step(rules, s.broker, Broker.Restart))
    case AtBroker(Call(command, script)) =>
      var r := Broker.Execute(rules, s.broker.e, s.broker.w.(script := script), command);
      s.(broker := r.s, sent := if r.result.Ok? then s.sent + [Sent(r.result.value.proof, r.s.w.now)] else s.sent)
    case Deliver(index, draw) =>
      if index >= |s.sent| then s else
      var (o, r) := Agent.AcceptProof(rules, s.agent, s.sent[index].proof, draw);
      s.(agent := o, armedBy := if r.Ok? && o.controller.state.Armed? then Some(index) else s.armedBy)
    case AtAgent(call) =>
      if call.DoAcceptProof? then s else s.(agent := AgentRuns.Perform(rules, s.agent, call).0)
  }

  const START: System := System(Broker.START, Agent.NEW_ORCHESTRATOR, [], None)

  function Run(rules: Rules, events: seq<Event>): System {
    if events == [] then START else Step(rules, Run(rules, events[..|events| - 1]), events[|events| - 1])
  }

  predicate ArmedForProxy(c: Control.Controller) {
    c.state.Armed? && c.desired.Some? && c.desired.value.proxies > 0
  }

  /** At the instant of sending, guards and redirects stood for this revision and
      digest, and a recovery marker was stored. */
  predicate EnforcedWhenSent(sent: Sent, desired: Control.Intent) {
    var image := sent.moment.image;
    && image.backend.guards.Some? && image.backend.dataPlane.Some?
    && image.backend.guards.value.policy.revision == desired.revision
    && image.backend.dataPlane.value.policy.revision == desired.revision
    && SameDigest(image.backend.guards.value.digest, desired.digest)
    && SameDigest(image.backend.dataPlane.value.digest, desired.digest)
    && image.store.marker.Some?
  }

  predicate SystemOk(rules: Rules, s: System) {
    && Invariant.Inv(rules, s.broker.e, s.broker.w)
    && (forall k :: 0 <= k < |s.sent| ==> Invariant.ProofSound(s.sent[k].proof, s.sent[k].moment.image))
    && (s.agent.controller.desired.Some? ==> AgentRuns.IntentOk(s.agent.controller.desired.value))
    && (AgentRuns.Disabling(s.agent.phase) ==> !ArmedForProxy(s.agent.controller))
    && (ArmedForProxy(s.agent.controller) ==>
          s.armedBy.Some? && s.armedBy.value < |s.sent|
          && EnforcedWhenSent(s.sent[s.armedBy.value], s.agent.controller.desired.value))
  }

  /** A proof that arms a proxy intent was sound when sent. */
  lemma ArmingProofIsEnforced(c: Control.Controller, sent: Sent)
    requires c.desired.Some? && AgentRuns.IntentOk(c.desired.value)
    requires Invariant.ProofSound(sent.proof, sent.moment.image)
    requires Control.ApplyProof(c, sent.proof).1 && ArmedForProxy(Control.ApplyProof(c, sent.proof).0)
    ensures EnforcedWhenSent(sent, c.desired.value)
  {
    AgentRuns.ArmedProvesGuard(c, sent.proof);
  }

  lemma DeliverKeeps(rules: Rules, s: System, index: nat, draw: Ingress.Draw)
    requires SystemOk(rules, s) && index < |s.sent|
    ensures SystemOk(rules, Step(rules, s, Deliver(index, draw)))
  {
    var proof := s.sent[index].proof;
    var (c, ok) := Control.ApplyProof(s.agent.controller, proof);
    var o := Agent.AcceptProof(rules, s.agent, proof, draw).0;
    if ok && ArmedForProxy(c) {
      ArmingProofIsEnforced(s.agent.controller, s.sent[index]);
      AgentRuns.ArmedProvesGuard(s.agent.controller, proof);
    }
    DeliverEffect(rules, s.agent, proof, draw);
  }

  /** Accepting a proof leaves the controller alone, or unarmed, or armed by it. */
  lemma DeliverEffect(rules: Rules, o: Agent.Orchestrator, proof: BrokerProof, draw: Ingress.Draw)
    requires o.controller.desired.Some? ==> AgentRuns.IntentOk(o.controller.desired.value)
    ensures var (o', r) := Agent.AcceptProof(rules, o, proof, draw); RightEffect(o, o', r.Ok?, proof)
  {
    if o.phase.AwaitPrepare? {
      PreparedEffect(rules, o, proof, draw);
    } else if o.phase.Active? {
      ActiveEffect(rules, o, proof, draw);
    }
  }

  lemma ActiveEffect(rules: Rules, o: Agent.Orchestrator, proof: BrokerProof, draw: Ingress.Draw)
    requires o.controller.desired.Some? ==> AgentRuns.IntentOk(o.controller.desired.value)
    requires o.phase.Active?
    ensures var (o', r) := Agent.AcceptProof(rules, o, proof, draw); RightEffect(o, o', r.Ok?, proof)
  {
  }

  /** Whether accepting a proof ends as it must: see DeliverEffect. */
  predicate RightEffect(o: Agent.Orchestrator, o': Agent.Orchestrator, accepted: bool, proof: BrokerProof) {
    var (c, ok) := Control.ApplyProof(o.controller, proof);
    && o'.controller.desired == o.controller.desired
    && (ArmedForProxy(o'.controller) ==> o'.controller == o.controller || (accepted && ok && ArmedForProxy(c)))
    && (AgentRuns.Disabling(o'.phase) ==> AgentRuns.Disabling(o.phase) && o'.controller == o.controller)
    && (ArmedForProxy(o'.controller) && accepted && !(ok && ArmedForProxy(c)) ==> o.phase.AwaitDisable?)
  }

  lemma PreparedEffect(rules: Rules, o: Agent.Orchestrator, proof: BrokerProof, draw: Ingress.Draw)
    requires o.controller.desired.Some? ==> AgentRuns.IntentOk(o.controller.desired.value)
    requires o.phase.AwaitPrepare?
    ensures var (o', r) := Agent.AcceptProof(rules, o, proof, draw); RightEffect(o, o', r.Ok?, proof)
  {
    var (c, ok) := Control.ApplyProof(o.controller, proof);
    if ok && c.state.Armed? {
      AgentRuns.ArmedProvesGuard(o.controller, proof);
    }
  }

  lemma AgentKeeps(rules: Rules, s: System, call: AgentRuns.Call)
    requires SystemOk(rules, s)
    ensures SystemOk(rules, Step(rules, s, AtAgent(call)))
  {
    if !call.DoAcceptProof? { OtherCallsNeverArm(rules, s.agent, call); }
  }

  /** No call but an accepted proof can leave the Agent newly armed. */
  lemma OtherCallsNeverArm(rules: Rules, o: Agent.Orchestrator, call: AgentRuns.Call)
    requires !call.DoAcceptProof?
    requires o.controller.desired.Some? ==> AgentRuns.IntentOk(o.controller.desired.value)
    requires AgentRuns.Disabling(o.phase) ==> !ArmedForProxy(o.controller)
    ensures var o' := AgentRuns.Perform(rules, o, call).0;
            && (ArmedForProxy(o'.controller) ==> o'.controller == o.controller && !AgentRuns.Disabling(o'.phase))
            && (o'.controller.desired.Some? ==> AgentRuns.IntentOk(o'.controller.desired.value))
  {
  }

  lemma BrokerKeeps(rules: Rules, s: System, event: Broker.Event)
    requires SystemOk(rules, s)
    ensures SystemOk(rules, Step(rules, s, AtBroker(event)))
  {
    match event
    case Restart => Broker.StepKeeps(rules, s.broker, event);
    case Call(command, script) => Broker.ExecuteKeeps(rules, s.broker.e, s.broker.w.(script := script), command);
  }

  lemma {:induction false} RunKeeps(rules: Rules, events: seq<Event>)
    ensures SystemOk(rules, Run(rules, events))
  {
    if events != [] {
      RunKeeps(rules, events[..|events| - 1]);
      var s := Run(rules, events[..|events| - 1]);
      match events[|events| - 1]
      case AtBroker(event) => BrokerKeeps(rules, s, event);
      case Deliver(index, draw) => if index < |s.sent| { DeliverKeeps(rules, s, index, draw); }
      case AtAgent(call) => AgentKeeps(rules, s, call);
    }
  }

  /** Whenever the Agent is armed for a policy with proxy entries, the proof that
      armed it was sent while the backend held both guards and data plane for the
      same revision and digest, under a stored marker. */
  lemma ArmedIsSound(rules: Rules, events: seq<Event>)
    requires ArmedForProxy(Run(rules, events).agent.controller)
    ensures var s := Run(rules, events);
            && s.armedBy.Some? && s.armedBy.value < |s.sent|
            && EnforcedWhenSent(s.sent[s.armedBy.value], s.agent.controller.desired.value)
  {
    RunKeeps(rules, events);
  }
}
