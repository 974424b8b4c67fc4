/** How the Agent carries out what the orchestrator asks for: Broker requests are
    answered and followed up at once, a Core request is sent and left to the Core,
    and every failure on the way is reported as a lost Broker. */
module DriveAction {
  import opened Wrappers
  import opened StrictContract
  import Ingress = CoreIngress
  import Control = StrictControllerModule
  import opened StrictProtocol
  import opened OrchestratorSpec
  import opened OrchestratorRuns
  import opened StrictPolicyOrchestratorModule

  /** A proof as it arrives, with the randomness the orchestrator may draw for it. */
  datatype Arrival = Arrival(proof: BrokerProof, draw: Ingress.Draw)

  /** One step of the outside world: the Broker's answer, what it says when asked for
      its status after a failed disable, or whether the Core took a line. */
  datatype Reply =
    | FromBroker(answer: Option<Arrival>, status: Option<Arrival>)
    | FromCore(taken: bool)

  function AnswerTo(command: Command, reply: Reply): Option<Arrival> {
    if !reply.FromBroker? then None
    else if reply.answer.Some? then reply.answer
    else if command.DisablePolicy? && reply.status.Some? && reply.status.value.proof.revision == 0 then reply.status
    else None
  }

  /** The action the drive ended with, or none if it failed. */
  function Drive(rules: Rules, o: Orchestrator, revision: nat, action: Action, script: seq<Reply>): (Orchestrator, Option<Action>)
    decreases |script|
  {
    match action
    case Settled(_) => (o, Some(action))
    case Core(_) =>
      if script != [] && script[0].FromCore? && script[0].taken then (o, Some(action)) else (BrokerLost(o, revision), None)
    case Broker(command) =>
      if script == [] || AnswerTo(command, script[0]).None? then (BrokerLost(o, revision), None)
      else
        var arrival := AnswerTo(command, script[0]).value;
        var (accepted, next) := AcceptProof(rules, o, arrival.proof, arrival.draw);
        if next.Err? then (BrokerLost(accepted, revision), None)
        else Drive(rules, accepted, revision, next.value, script[1..])
  }

  /** The policy being driven is the live one. */
  predicate Driving(o: Orchestrator, revision: nat) {
    Agrees(o) && !o.phase.Idle? && o.controller.desired.Some? && o.controller.desired.value.revision == revision
  }

  lemma LostIsBlocked(rules: Rules, o: Orchestrator, revision: nat)
    requires Driving(o, revision)
    ensures Driving(BrokerLost(o, revision), revision) && BrokerLost(o, revision).controller.state.Blocking?
  {
    StepAgrees(rules, o, DoBrokerLost(revision));
  }

  lemma AcceptedIsDriving(rules: Rules, o: Orchestrator, revision: nat, proof: BrokerProof, draw: Ingress.Draw)
    requires Driving(o, revision)
    ensures Driving(AcceptProof(rules, o, proof, draw).0, revision)
    ensures
      var (accepted, next) := AcceptProof(rules, o, proof, draw);
      next.Ok? && next.value.Core? ==> accepted.ingress.pending == Some(next.value.action)
  {
    AcceptProofAgrees(rules, o, proof, draw);
  }

  /** However the drive ends, phase and controller still agree on the same live
      policy. If it failed, the Agent is blocking; if not, nothing is left for the
      Broker, and a Core request is the one the coordinator waits for. */
  lemma {:induction false} DriveEndsSafely(rules: Rules, o: Orchestrator, revision: nat, action: Action, script: seq<Reply>)
    requires Driving(o, revision)
    requires action.Core? ==> o.ingress.pending == Some(action.action)
    ensures
      var (after, done) := Drive(rules, o, revision, action, script);
      && Driving(after, revision)
      && (done.None? ==> after.controller.state.Blocking?)
      && (done.Some? ==> !done.value.Broker?)
      && (done.Some? && done.value.Core? ==> after.ingress.pending == Some(done.value.action))
    decreases |script|
  {
    match action
    case Settled(_) =>
    case Core(_) => LostIsBlocked(rules, o, revision);
    case Broker(command) =>
      LostIsBlocked(rules, o, revision);
      if script != [] && AnswerTo(command, script[0]).Some? {
        var arrival := AnswerTo(command, script[0]).value;
        AcceptedIsDriving(rules, o, revision, arrival.proof, arrival.draw);
        var (accepted, next) := AcceptProof(rules, o, arrival.proof, arrival.draw);
        LostIsBlocked(rules, accepted, revision);
        if next.Ok? {
          DriveEndsSafely(rules, accepted, revision, next.value, script[1..]);
        }
      }
  }

  /** A drive that fails before an acceptable answer can always be resumed: recovery
      has an action for the phase it is left in. */
  lemma FailedDriveIsRecoverable(rules: Rules, o: Orchestrator, revision: nat, action: Action, script: seq<Reply>,
                                 policy: Policy, draw: Ingress.Draw)
    requires Driving(o, revision) && (action.Core? ==> o.ingress.pending == Some(action.action))
    requires Drive(rules, o, revision, action, script).1.None?
    requires draw.fits
    ensures
      var after := Drive(rules, o, revision, action, script).0;
      && (after.phase.AwaitPrepare? || after.phase.AwaitDisable? || after.phase.AwaitDisableRevoke? || after.phase == AwaitBlocking(revision))
      && (after.ingress.generation < U64_MAX ==> Recover(rules, after, policy, draw).1.Ok?)
    decreases |script|
  {
    if action.Broker? && script != [] && AnswerTo(action.command, script[0]).Some? {
      var arrival := AnswerTo(action.command, script[0]).value;
      var (accepted, next) := AcceptProof(rules, o, arrival.proof, arrival.draw);
      AcceptedIsDriving(rules, o, revision, arrival.proof, arrival.draw);
      if next.Ok? {
        FailedDriveIsRecoverable(rules, accepted, revision, next.value, script[1..], policy, draw);
      }
    }
  }

  // ----- Where a drive ends --------------------------------------------------

  /** The Broker's word for a command: its answer, or after a disable it did not answer,
      a status that knows no policy. */
  ghost predicate Says(command: Command, reply: Reply, arrival: Arrival) {
    && reply.FromBroker?
    && (reply.answer == Some(arrival)
        || (reply.answer == None && command.DisablePolicy? && reply.status == Some(arrival) && arrival.proof.revision == 0))
  }

  /** The Broker's word was accepted and led to the next action. */
  ghost predicate Leads(rules: Rules, o: Orchestrator, action: Action, reply: Reply, next: Orchestrator, following: Action) {
    && action.Broker?
    && exists arrival :: Says(action.command, reply, arrival)
                         && AcceptProof(rules, o, arrival.proof, arrival.draw) == (next, Ok(following))
  }

  /** States and actions, each led to by the reply at its place in the script. */
  ghost predicate Path(rules: Rules, os: seq<Orchestrator>, actions: seq<Action>, script: seq<Reply>) {
    && 0 < |os| == |actions| <= |script| + 1
    && forall i :: 0 <= i < |os| - 1 ==> Leads(rules, os[i], actions[i], script[i], os[i + 1], actions[i + 1])
  }

  /** What is left when the last action of a path goes no further. */
  ghost predicate EndsWith(rules: Rules, o: Orchestrator, revision: nat, action: Action, reply: Option<Reply>, end: (Orchestrator, Option<Action>)) {
    match action
    case Settled(_) => end == (o, Some(action))
    case Core(_) => end == if reply == Some(FromCore(true)) then (o, Some(action)) else (BrokerLost(o, revision), None)
    case Broker(command) =>
      || (end == (BrokerLost(o, revision), None) && (reply.None? || forall arrival :: !Says(command, reply.value, arrival)))
      || (reply.Some? && exists arrival :: Says(command, reply.value, arrival)
                                           && AcceptProof(rules, o, arrival.proof, arrival.draw).1.Err?
                                           && end == (BrokerLost(AcceptProof(rules, o, arrival.proof, arrival.draw).0, revision), None))
  }

  lemma SaysIsAnswer(command: Command, reply: Reply)
    ensures if AnswerTo(command, reply).Some? then Says(command, reply, AnswerTo(command, reply).value)
            else forall arrival :: !Says(command, reply, arrival)
    ensures forall arrival :: Says(command, reply, arrival) ==> AnswerTo(command, reply) == Some(arrival)
  {
  }

  lemma LongerPath(rules: Rules, o: Orchestrator, action: Action, os: seq<Orchestrator>, actions: seq<Action>, script: seq<Reply>)
    requires script != [] && Path(rules, os, actions, script[1..]) && Leads(rules, o, action, script[0], os[0], actions[0])
    ensures Path(rules, [o] + os, [action] + actions, script)
  {
    var longer, steps := [o] + os, [action] + actions;
    forall i | 0 <= i < |longer| - 1 ensures Leads(rules, longer[i], steps[i], script[i], longer[i + 1], steps[i + 1]) {
      if i > 0 { assert Leads(rules, os[i - 1], actions[i - 1], script[1..][i - 1], os[i], actions[i]); }
    }
  }

  /** Every drive follows accepted answers as far as they go: it ends where the Broker's
      word is missing or refused, with what is settled, or with a Core request, which
      counts as sent exactly if the Core took it. Every failure reports a lost Broker. */
  lemma {:induction false} DriveFollowsAnswers(rules: Rules, o: Orchestrator, revision: nat, action: Action, script: seq<Reply>)
      returns (os: seq<Orchestrator>, actions: seq<Action>)
    ensures Path(rules, os, actions, script) && os[0] == o && actions[0] == action
    ensures var n := |os| - 1;
            EndsWith(rules, os[n], revision, actions[n], if n < |script| then Some(script[n]) else None,
                     Drive(rules, o, revision, action, script))
    decreases |script|
  {
    os, actions := [o], [action];
    if action.Broker? && script != [] {
      SaysIsAnswer(action.command, script[0]);
      if AnswerTo(action.command, script[0]).Some? {
        var arrival := AnswerTo(action.command, script[0]).value;
        var (accepted, next) := AcceptProof(rules, o, arrival.proof, arrival.draw);
        if next.Ok? {
          assert Leads(rules, o, action, script[0], accepted, next.value);
          var later, following := DriveFollowsAnswers(rules, accepted, revision, next.value, script[1..]);
          os, actions := [o] + later, [action] + following;
          LongerPath(rules, o, action, later, following, script);
        }
      }
    }
  }

  /** The drive as the Agent's runtime performs it. */
  method DriveStrictAction(orchestrator: StrictPolicyOrchestrator, revision: nat, action: Action, script: seq<Reply>)
    returns (done: Option<Action>)
    modifies orchestrator, orchestrator.controller, orchestrator.ingress
    ensures (orchestrator.View(), done) == Drive(orchestrator.rules, old(orchestrator.View()), revision, action, script)
    decreases |script|
  {
    match action {
      case Settled(_) => return Some(action);
      case Core(_) =>
        if script == [] || !script[0].FromCore? || !script[0].taken {
          orchestrator.BrokerLost(revision);
          return None;
        }
        return Some(action);
      case Broker(command) =>
        if script == [] || AnswerTo(command, script[0]).None? {
          orchestrator.BrokerLost(revision);
          return None;
        }
        var arrival := AnswerTo(command, script[0]).value;
        var next := orchestrator.AcceptBrokerProof(arrival.proof, arrival.draw);
        if next.Err? {
          orchestrator.BrokerLost(revision);
          return None;
        }
        done := DriveStrictAction(orchestrator, revision, next.value, script[1..]);
    }
  }
}
