/** The orchestrator object, proved against `OrchestratorSpec`. */
module StrictPolicyOrchestratorModule {
  import opened Wrappers
  import opened StrictContract
  import opened TargetGroups
  import Ingress = CoreIngress
  import Control = StrictControllerModule
  import opened StrictProtocol
  import Spec = OrchestratorSpec
  import Runs = OrchestratorRuns

  type StepResult = Result<Spec.Action>

  class StrictPolicyOrchestrator {
    const rules: Rules
    const controller: Control.StrictController
    const ingress: Ingress.StrictIngressCoordinator
    var phase: Spec.Phase

    function View(): Spec.Orchestrator
      reads this, controller, ingress
    {
      Spec.Orchestrator(controller.View(), ingress.View(), phase)
    }

    constructor (rules: Rules)
      ensures fresh(controller) && fresh(ingress) && this.rules == rules
      ensures View() == Spec.NEW_ORCHESTRATOR
    {
      this.rules := rules;
      controller := new Control.StrictController();
      ingress := new Ingress.StrictIngressCoordinator();
      phase := Spec.Idle;
    }

    method Begin(policy: Policy) returns (r: StepResult)
      modifies this, controller
      ensures (View(), r) == Spec.Begin(rules, old(View()), policy)
      ensures Runs.Agrees(old(View())) ==> Runs.Agrees(View())
    {
      if Runs.Agrees(View()) { Runs.StepAgrees(rules, View(), Runs.DoBegin(policy)); }
      if !phase.Idle? { return Err; }
      if !ValidPolicy(rules, policy) { return Err; }
      var digest := rules.digest(policy);
      var proxies := Spec.ProxyCount(policy.entries);
      var intent := Control.NewIntent(policy.revision, digest, proxies, |policy.entries| - proxies);
      if intent.Err? { return Err; }
      var ok := controller.BeginIntent(intent.value);
      if !ok { return Err; }
      phase := Spec.AwaitPrepare(policy, digest, OrderedSet(ProxyGroups(policy.entries)));
      return Ok(Spec.Broker(PreparePolicy(policy)));
    }

    method RestoreDisable(policy: Policy) returns (r: StepResult)
      modifies this, controller
      ensures (View(), r) == Spec.RestoreDisable(rules, old(View()), policy)
      ensures Runs.Agrees(old(View())) ==> Runs.Agrees(View())
    {
      if Runs.Agrees(View()) { Runs.StepAgrees(rules, View(), Runs.DoRestoreDisable(policy)); }
      r := Begin(policy);
      if r.Err? { return; }
      controller.AskDisable();
      phase := Spec.AwaitDisable;
      return Ok(Spec.Broker(DisablePolicy(policy.revision)));
    }

    method BeginMigration(policy: Policy) returns (r: StepResult)
      modifies this, controller
      ensures (View(), r) == Spec.BeginMigration(rules, old(View()), policy)
      ensures Runs.Agrees(old(View())) && old(Spec.Replaceable(View())) ==>
                (r.Err? <==> phase.Idle?) && (r.Ok? ==> Runs.Agrees(View()))
    {
      if Runs.Agrees(View()) && Spec.Replaceable(View()) && Spec.BeginMigration(rules, View(), policy).1.Ok? {
        Runs.MigrationAgrees(rules, View(), policy);
      }
      if !phase.Active? && !phase.Blocked? { return Err; }
      phase := Spec.Idle;
      r := Begin(policy);
    }

    method AcceptBrokerProof(proof: BrokerProof, draw: Ingress.Draw) returns (r: StepResult)
      modifies this, controller, ingress
      ensures (View(), r) == Spec.AcceptProof(rules, old(View()), proof, draw)
      ensures Runs.Agrees(old(View())) ==> Runs.Agrees(View())
    {
      if Runs.Agrees(View()) { Runs.StepAgrees(rules, View(), Runs.DoAcceptProof(proof, draw)); }
      match phase {
        case AwaitPrepare(policy, digest, groups) =>
          r := AcceptPrepared(policy, digest, groups, proof, draw);
        case AwaitCommit(revision) =>
          var ok := controller.ApplyBrokerProof(proof);
          if !ok || controller.state != Control.Armed {
            phase := Spec.AwaitBlocking(revision);
            return Err;
          }
          phase := Spec.Active(revision);
          return Ok(Spec.Settled(Control.StatusOf(controller.View())));
        case Active(revision) =>
          r := AcceptWhileActive(revision, proof);
        case AwaitBlocking(revision) =>
          var ok := controller.ApplyBrokerProof(proof);
          if !ok { return Err; }
          if !Spec.ProvesGuard(proof) || proof.coreHealthy || proof.relayHealthy || proof.dnsHealthy {
            controller.LoseBackend(Control.BackendUnavailable);
            return Err;
          }
          var revoke := ingress.Revoke(draw);
          if revoke.Err? { return Err; }
          phase := Spec.AwaitBlockingRevoke(revision);
          return Ok(Spec.Core(revoke.value));
        case AwaitDisable =>
          if !Spec.ProvesEmpty(proof) { return Err; }
          var revoke := ingress.Revoke(draw);
          if revoke.Err? { return Err; }
          phase := Spec.AwaitDisableRevoke;
          return Ok(Spec.Core(revoke.value));
        case _ =>
          return Err;
      }
    }

    method AcceptPrepared(policy: Policy, digest: string, groups: seq<Group>, proof: BrokerProof, draw: Ingress.Draw)
      returns (r: StepResult)
      modifies this, controller, ingress
      ensures (View(), r) == Spec.AcceptPrepared(rules, old(View()), policy, digest, groups, proof, draw)
    {
      var ok := controller.ApplyBrokerProof(proof);
      if !ok { return Err; }
      if !Spec.ProvesGuard(proof) {
        phase := Spec.AwaitBlocking(policy.revision);
        return Err;
      }
      if groups == [] {
        if controller.state != Control.Armed {
          phase := Spec.AwaitBlocking(policy.revision);
          return Err;
        }
        phase := Spec.Active(policy.revision);
        return Ok(Spec.Settled(Control.StatusOf(controller.View())));
      }
      if controller.state != Control.Blocking {
        controller.LoseBackend(Control.BackendUnavailable);
        phase := Spec.AwaitBlocking(policy.revision);
        return Err;
      }
      var change := ingress.BeginTransition(rules, groups, draw);
      if change.Err? {
        phase := Spec.AwaitBlocking(policy.revision);
        return Err;
      }
      match change.value {
        case Request(action) =>
          phase := Spec.AwaitIngress(policy.revision, digest);
          return Ok(Spec.Core(action));
        case Unchanged =>
          var current := Spec.CurrentIngressSet(rules, ingress.View());
          if current.Err? {
            phase := Spec.AwaitBlocking(policy.revision);
            return Err;
          }
          phase := Spec.AwaitCommit(policy.revision);
          return Ok(Spec.Broker(CommitPolicy(policy.revision, digest, current.value)));
      }
    }

    method AcceptWhileActive(revision: nat, proof: BrokerProof) returns (r: StepResult)
      requires phase == Spec.Active(revision)
      modifies this, controller
      ensures (View(), r) == Spec.AcceptWhileActive(rules, old(View()), revision, proof)
    {
      var ok := controller.ApplyBrokerProof(proof);
      if !ok { return Err; }
      if controller.state == Control.Armed { return Ok(Spec.Settled(Control.StatusOf(controller.View()))); }
      if !Spec.ProvesGuard(proof) || proof.coreHealthy || proof.relayHealthy || proof.dnsHealthy {
        controller.LoseBackend(Control.BackendUnavailable);
        phase := Spec.AwaitBlocking(revision);
        return Err;
      }
      var current := Spec.CurrentIngressSet(rules, ingress.View());
      if current.Err? {
        controller.LoseBackend(Control.BackendUnavailable);
        phase := Spec.AwaitBlocking(revision);
        return Err;
      }
      controller.StartRecovery();
      phase := Spec.AwaitCommit(revision);
      return Ok(Spec.Broker(CommitPolicy(revision, proof.policyDigest, current.value)));
    }

    method AcceptCoreResponse(response: Ingress.CoreResponse) returns (r: StepResult)
      modifies this, controller, ingress
      ensures (View(), r) == Spec.AcceptCore(rules, old(View()), response)
      ensures Runs.Agrees(old(View())) ==> Runs.Agrees(View())
    {
      if Runs.Agrees(View()) { Runs.StepAgrees(rules, View(), Runs.DoAcceptCore(response)); }
      match phase {
        case AwaitIngress(revision, digest) =>
          var done := ingress.Accept(response);
          if done.Err? || done.value.None? {
            phase := Spec.AwaitBlocking(revision);
            return Err;
          }
          var current := Ingress.BrokerIngressSet(rules, done.value.value);
          if current.Err? {
            phase := Spec.AwaitBlocking(revision);
            return Err;
          }
          phase := Spec.AwaitCommit(revision);
          return Ok(Spec.Broker(CommitPolicy(revision, digest, current.value)));
        case AwaitBlockingRevoke(revision) =>
          var done := ingress.Accept(response);
          if done.Err? { return Err; }
          phase := Spec.Blocked(revision);
          return Ok(Spec.Settled(Control.StatusOf(controller.View())));
        case AwaitDisableRevoke =>
          var done := ingress.Accept(response);
          if done.Err? { return Err; }
          var confirmed := controller.Confirm(false, false);
          if !confirmed {
            phase := Spec.AwaitDisable;
            return Err;
          }
          phase := Spec.Idle;
          return Ok(Spec.Settled(Control.StatusOf(controller.View())));
        case _ =>
          return Err;
      }
    }

    method ForceBlockingNow() returns (r: StepResult)
      modifies this, controller
      ensures (View(), r) == Spec.ForceBlockingNow(old(View()))
      ensures Runs.Agrees(old(View())) ==> Runs.Agrees(View())
    {
      if Runs.Agrees(View()) { Runs.StepAgrees(rules, View(), Runs.DoForceBlocking); }
      var revision := Spec.Blockable(phase);
      if revision.None? { return Err; }
      controller.LoseBackend(Control.BackendUnavailable);
      phase := Spec.AwaitBlocking(revision.value);
      return Ok(Spec.Broker(ForceBlocking(revision.value)));
    }

    method Disable() returns (r: StepResult)
      modifies this, controller
      ensures (View(), r) == Spec.Disable(old(View()))
      ensures Runs.Agrees(old(View())) ==> Runs.Agrees(View())
    {
      if Runs.Agrees(View()) { Runs.StepAgrees(rules, View(), Runs.DoDisable); }
      if !phase.Active? && !phase.Blocked? { return Err; }
      var revision := phase.revision;
      controller.AskDisable();
      phase := Spec.AwaitDisable;
      return Ok(Spec.Broker(DisablePolicy(revision)));
    }

    method BrokerLost(revision: nat)
      modifies this, controller
      ensures View() == Spec.BrokerLost(old(View()), revision)
    {
      controller.LoseBackend(Control.BackendUnavailable);
      if !phase.AwaitPrepare? && !phase.AwaitDisable? && !phase.AwaitDisableRevoke? {
        phase := Spec.AwaitBlocking(revision);
      }
    }

    method Recover(policy: Policy, draw: Ingress.Draw) returns (r: StepResult)
      modifies this, controller, ingress
      ensures (View(), r) == Spec.Recover(rules, old(View()), policy, draw)
      ensures Runs.Agrees(old(View())) ==> Runs.Agrees(View())
    {
      if Runs.Agrees(View()) { Runs.StepAgrees(rules, View(), Runs.DoRecover(policy, draw)); }
      match phase {
        case AwaitPrepare(_, _, _) => return Ok(Spec.Broker(PreparePolicy(policy)));
        case AwaitDisable => return Ok(Spec.Broker(DisablePolicy(policy.revision)));
        case AwaitDisableRevoke => r := RetryCoreRevoke(draw);
        case Blocked(_) =>
          phase := Spec.Idle;
          r := Begin(policy);
        case AwaitBlocking(_) => r := ForceBlockingNow();
        case AwaitIngress(_, _) => r := ForceBlockingNow();
        case AwaitCommit(_) => r := ForceBlockingNow();
        case AwaitBlockingRevoke(_) => r := RetryCoreRevoke(draw);
        case _ => return Err;
      }
    }

    method RetryCoreRevoke(draw: Ingress.Draw) returns (r: StepResult)
      modifies ingress
      ensures (View(), r) == Spec.RetryCoreRevoke(old(View()), draw)
      ensures Runs.Agrees(old(View())) ==> Runs.Agrees(View())
    {
      if Runs.Agrees(View()) { Runs.StepAgrees(rules, View(), Runs.DoRetryCoreRevoke(draw)); }
      if !phase.AwaitBlockingRevoke? && !phase.AwaitDisableRevoke? { return Err; }
      var revoke := ingress.Revoke(draw);
      if revoke.Err? { return Err; }
      return Ok(Spec.Core(revoke.value));
    }
  }
}
