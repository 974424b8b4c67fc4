/** Forwarding admission over whole runs of the dispatcher: which requests leave
    forwarding admitted although the engine is no longer armed, and what ends it. */
module ForwardingRuns {
  import opened Wrappers
  import opened StrictContract
  import opened BrokerWorld
  import Spec = BrokerSpec
  import BrokerRuns
  import BrokerSuccess
  import CoreSide
  import opened BrokerInvariant
  import opened BrokerSafety
  import opened BrokerDispatch
  import opened CoreIngress
  import opened StrictProtocol
  import opened TargetGroups

  /** A fail-closed event is session teardown or failed supervision: deactivate,
      then force blocking. A restart loses both engine and probe. */
  datatype Event =
    | Served(command: Command, answers: seq<Answer>, probed: seq<ProbeAnswer>)
    | FailClosed(answers: seq<Answer>, probed: seq<ProbeAnswer>)
    | Restart(answers: seq<Answer>)

  function Close(n: Node): Node {
    var r := Spec.ForceBlockingIfActive(n.e, n.w);
    Node(r.s.e, r.s.w, Deactivate(n.probe).0)
  }

  function Step(rules: Rules, n: Node, event: Event): Node {
    match event
    case Served(command, answers, probed) => Dispatch(rules, Facing(n, answers, probed), command).0
    case FailClosed(answers, probed) => Close(Facing(n, answers, probed))
    case Restart(answers) =>
      var r := Spec.Recover(rules, Spec.NEW_ENGINE, n.w.(script := answers));
      Node(r.s.e, r.s.w, Probe(false, []))
  }

  function Run(rules: Rules, w: World, events: seq<Event>): Node {
    if events == [] then Node(Spec.NEW_ENGINE, w, Probe(false, []))
    else Step(rules, Run(rules, w, events[..|events| - 1]), events[|events| - 1])
  }

  predicate ArmedForProxy(e: Spec.Engine) {
    e.phase == Armed && e.marker.Some? && HasProxyEntries(e.marker.value.policy)
  }

  predicate ForwardingOk(n: Node) {
    n.probe.forwarding ==> ArmedForProxy(n.e)
  }

  // ----- Leaks and what ends them --------------------------------------------

  predicate Live(e: Spec.Engine, revision: nat) {
    e.marker.Some? && e.marker.value.revision == revision
  }

  /** How the deactivation that a command asks for is answered, if it asks for one. */
  function DeactivationOf(rules: Rules, n: Node, command: Command): Option<Outcome> {
    match command
    case Status => None
    case CommitPolicy(revision, digest, ingress) =>
      if !AcceptsIngress(rules, n.e, revision, digest, ingress) then None else
      var (measured, health) := Measure(n.probe);
      if health.Some? && Spec.Commit(n.e, n.w, revision, digest, health.value).result.Ok? then None
      else Some(NextAnswer(measured).outcome)
    case _ => Some(NextAnswer(n.probe).outcome)
  }

  /** Forwarding is admitted and the engine does not stay armed: a forced blocking took
      the redirects down and read the filters, a disable stored its marker, or a
      measurement took effect for a commit that did not arm. */
  predicate Exposed(n: Node, command: Command) {
    match command
    case CommitPolicy(_, _, _) => !NextAnswer(n.probe).outcome.Fails?
    case ForceBlocking(revision) => n.probe.forwarding && Live(n.e, revision) && BrokerRuns.AllWork(n.w.script, 2)
    case DisablePolicy(revision) => n.probe.forwarding && Live(n.e, revision) && BrokerRuns.AllWork(n.w.script, 1)
    case _ => false
  }

  /** A deactivation without effect while the engine leaves the armed phase. */
  predicate LeaksOn(rules: Rules, n: Node, command: Command) {
    DeactivationOf(rules, n, command) == Some(Fails) && Exposed(n, command)
  }

  predicate Leaks(rules: Rules, n: Node, event: Event) {
    match event
    case Served(command, answers, probed) => LeaksOn(rules, Facing(n, answers, probed), command)
    case FailClosed(answers, probed) =>
      n.e.marker.Some? && LeaksOn(rules, Facing(n, answers, probed), ForceBlocking(n.e.marker.value.revision))
    case Restart(_) => false
  }

  /** A deactivation that takes effect, or a commit that arms the engine again. */
  predicate EndsOn(rules: Rules, n: Node, command: Command) {
    var answer := DeactivationOf(rules, n, command);
    if answer.Some? then !answer.value.Fails?
    else command.CommitPolicy? && AcceptsIngress(rules, n.e, command.revision, command.digest, command.ingress)
  }

  predicate Ends(rules: Rules, n: Node, event: Event) {
    match event
    case Served(command, answers, probed) => EndsOn(rules, Facing(n, answers, probed), command)
    case FailClosed(answers, probed) => !NextAnswer(n.probe.(script := probed)).outcome.Fails?
    case Restart(_) => true
  }

  // ----- One request ---------------------------------------------------------

  lemma RollBackOutcome(e: Spec.Engine, w: World, marker: Marker)
    ensures var r := Spec.RollBack(e, w, marker); r.result.Err? && r.s.e.phase == Blocking
  {
  }

  lemma CommitOutcome(e: Spec.Engine, w: World, revision: nat, digest: string, health: Spec.ForwardingHealth)
    requires e.phase == Blocking
    ensures var r := Spec.Commit(e, w, revision, digest, health);
            if r.result.Ok? then ArmedForProxy(r.s.e) else r.s.e.phase == Blocking
  {
    if !Spec.MatchesCurrent(e, revision, digest) { return; }
    var marker := e.marker.value;
    if !HasProxyEntries(marker.policy) || !Spec.CompleteFor(health, marker.policy) || e.lease.None? { return; }
    var (w1, installed) := InstallDataPlane(w, marker.policy, e.lease.value, marker.digest);
    if installed { ArmOutcome(e, w1, marker, health); } else { RollBackOutcome(e, w1, marker); }
  }

  lemma ArmOutcome(e: Spec.Engine, w: World, marker: Marker, health: Spec.ForwardingHealth)
    requires e.phase == Blocking && HasProxyEntries(marker.policy)
    ensures var r := Spec.Arm(e, w, marker, health);
            if r.result.Ok? then ArmedForProxy(r.s.e) else r.s.e.phase == Blocking
  {
    var (w1, snapshot) := TakeSnapshot(w);
    RollBackOutcome(e, w1, marker);
    if snapshot.Some? { RollBackOutcome(e, Persist(w1, marker.WithPhase(Armed, snapshot.value.filterGeneration)).0, marker); }
  }

  lemma CommitForwards(rules: Rules, n: Node, revision: nat, digest: string, ingress: IngressSet)
    requires Inv(rules, n.e, n.w)
    ensures var command := CommitPolicy(revision, digest, ingress);
            var (n', response) := Dispatch(rules, n, command);
            && Inv(rules, n'.e, n'.w)
            && (ForwardingOk(n') <==> if ForwardingOk(n) then !LeaksOn(rules, n, command) else EndsOn(rules, n, command))
            && (LeaksOn(rules, n, command) ==> response.Refused?)
  {
    if AcceptsIngress(rules, n.e, revision, digest, ingress) {
      var health := Measure(n.probe).1;
      if health.Some? {
        CommitKeeps(rules, n.e, n.w, revision, digest, health.value);
        CommitOutcome(n.e, n.w, revision, digest, health.value);
      }
    }
  }

  /** Forced blocking disarms a proxy policy exactly when it is the live one, its
      redirects go and the filters can be read; it never arms one. */
  lemma ForceBlockingDisarms(rules: Rules, e: Spec.Engine, w: World, revision: nat)
    requires Inv(rules, e, w)
    ensures ArmedForProxy(Spec.ForceBlocking(e, w, revision).s.e) <==>
              ArmedForProxy(e) && !(Live(e, revision) && BrokerRuns.AllWork(w.script, 2))
  {
    if ArmedForProxy(e) && Live(e, revision) && BrokerRuns.AllWork(w.script, 2) {
      assert RuleOk(rules, w.now.image.backend.guards.value);
    }
  }

  lemma CompleteDisableStaysUnarmed(e: Spec.Engine, w: World, marker: Marker)
    requires e.phase == Recovering
    ensures Spec.CompleteDisable(e, w, marker).s.e.phase in {Recovering, Disabled}
  {
  }

  lemma DisableDisarms(e: Spec.Engine, w: World, revision: nat)
    ensures ArmedForProxy(Spec.Disable(e, w, revision).s.e) <==>
              ArmedForProxy(e) && !(Live(e, revision) && BrokerRuns.AllWork(w.script, 1))
  {
    if Live(e, revision) {
      var disabling := e.marker.value.WithPhase(Disabling, e.marker.value.filterGeneration);
      CompleteDisableStaysUnarmed(e.(marker := Some(disabling), phase := Recovering, health := Spec.NO_HEALTH),
                                  Persist(w, disabling).0, disabling);
    }
  }

  lemma StopForwards(rules: Rules, n: Node, command: Command)
    requires Inv(rules, n.e, n.w) && (command.ForceBlocking? || command.DisablePolicy?)
    ensures var (n', response) := Dispatch(rules, n, command);
            && Inv(rules, n'.e, n'.w)
            && (ForwardingOk(n') <==> if ForwardingOk(n) then !LeaksOn(rules, n, command) else EndsOn(rules, n, command))
            && (LeaksOn(rules, n, command) ==> response.Refused?)
  {
    if command.ForceBlocking? {
      ForceBlockingKeeps(rules, n.e, n.w, command.revision);
      ForceBlockingDisarms(rules, n.e, n.w, command.revision);
    } else {
      DisableKeeps(rules, n.e, n.w, command.revision);
      DisableDisarms(n.e, n.w, command.revision);
    }
  }

  /** What a request does to forwarding, as its probe and engine answers decide. */
  lemma RequestForwards(rules: Rules, n: Node, command: Command)
    requires Inv(rules, n.e, n.w)
    ensures var (n', response) := Dispatch(rules, n, command);
            && Inv(rules, n'.e, n'.w)
            && (ForwardingOk(n') <==> if ForwardingOk(n) then !LeaksOn(rules, n, command) else EndsOn(rules, n, command))
            && (LeaksOn(rules, n, command) ==> response.Refused?)
  {
    match command
    case Status => StatusKeeps(rules, n.e, n.w);
    case PreparePolicy(policy) => PrepareKeeps(rules, n.e, n.w, policy);
    case CommitPolicy(revision, digest, ingress) => CommitForwards(rules, n, revision, digest, ingress);
    case _ => StopForwards(rules, n, command);
  }

  lemma CloseForwards(rules: Rules, n: Node)
    requires Inv(rules, n.e, n.w)
    ensures Inv(rules, Close(n).e, Close(n).w)
    ensures ForwardingOk(Close(n)) <==>
              if ForwardingOk(n) then !(n.e.marker.Some? && LeaksOn(rules, n, ForceBlocking(n.e.marker.value.revision)))
              else !NextAnswer(n.probe).outcome.Fails?
  {
    if n.e.marker.None? { StatusKeeps(rules, n.e, n.w); return; }
    ForceBlockingKeeps(rules, n.e, n.w, n.e.marker.value.revision);
    ForceBlockingDisarms(rules, n.e, n.w, n.e.marker.value.revision);
  }

  /** One event, for every answer of probe and engine: forwarding comes to be admitted
      without an armed proxy policy exactly through a leak, and what a leak left
      behind stays exactly until an event that ends it. A leaking request is refused. */
  lemma StepForwards(rules: Rules, n: Node, event: Event)
    requires Inv(rules, n.e, n.w)
    ensures var n' := Step(rules, n, event);
            && Inv(rules, n'.e, n'.w)
            && (ForwardingOk(n') <==> if ForwardingOk(n) then !Leaks(rules, n, event) else Ends(rules, n, event))
    ensures event.Served? && Leaks(rules, n, event) ==>
              Dispatch(rules, Facing(n, event.answers, event.probed), event.command).1.Refused?
  {
    match event
    case Served(command, answers, probed) => RequestForwards(rules, Facing(n, answers, probed), command);
    case FailClosed(answers, probed) => CloseForwards(rules, Facing(n, answers, probed));
    case Restart(answers) => RecoverKeeps(rules, Spec.NEW_ENGINE, n.w.(script := answers));
  }

  /** An effective deactivation ends forwarding, whatever the engine does. */
  lemma DeactivationEnds(rules: Rules, n: Node, command: Command)
    requires DeactivationOf(rules, n, command).Some? && !DeactivationOf(rules, n, command).value.Fails?
    ensures !Dispatch(rules, n, command).0.probe.forwarding
  {
  }

  // ----- Whole runs ----------------------------------------------------------

  /** Event `i` leaked, and no event after it ended that. */
  predicate LeakedAt(rules: Rules, w: World, events: seq<Event>, i: nat)
    requires i < |events|
  {
    && ForwardingOk(Run(rules, w, events[..i])) && Leaks(rules, Run(rules, w, events[..i]), events[i])
    && forall j :: i < j < |events| ==> !Ends(rules, Run(rules, w, events[..j]), events[j])
  }

  /** A leak outlives one more event exactly if that event does not end it. */
  lemma LeakOutlives(rules: Rules, w: World, events: seq<Event>, event: Event, i: nat)
    requires i < |events|
    ensures LeakedAt(rules, w, events + [event], i) <==>
              LeakedAt(rules, w, events, i) && !Ends(rules, Run(rules, w, events), event)
  {
    var longer := events + [event];
    assert forall j :: 0 <= j <= |events| ==> longer[..j] == events[..j];
    assert longer[..|events|] == events && longer[|events|] == event;
  }

  lemma LeakBegins(rules: Rules, w: World, events: seq<Event>, event: Event)
    ensures LeakedAt(rules, w, events + [event], |events|) <==>
              ForwardingOk(Run(rules, w, events)) && Leaks(rules, Run(rules, w, events), event)
  {
    var longer := events + [event];
    assert longer[..|events|] == events && longer[|events|] == event;
  }

  lemma {:induction false} RunKeeps(rules: Rules, w: World, events: seq<Event>)
    requires TraceOk(rules, w)
    ensures Inv(rules, Run(rules, w, events).e, Run(rules, w, events).w)
  {
    if events != [] {
      RunKeeps(rules, w, events[..|events| - 1]);
      StepForwards(rules, Run(rules, w, events[..|events| - 1]), events[|events| - 1]);
    }
  }

  lemma LastEventForwards(rules: Rules, w: World, events: seq<Event>, event: Event)
    requires TraceOk(rules, w)
    ensures var n := Run(rules, w, events);
            ForwardingOk(Run(rules, w, events + [event])) <==>
              if ForwardingOk(n) then !Leaks(rules, n, event) else Ends(rules, n, event)
  {
    RunKeeps(rules, w, events);
    StepForwards(rules, Run(rules, w, events), event);
    assert (events + [event])[..|events|] == events;
  }

  lemma {:induction false} LeakRemains(rules: Rules, w: World, events: seq<Event>, i: nat)
    requires TraceOk(rules, w) && i < |events| && LeakedAt(rules, w, events, i)
    ensures !ForwardingOk(Run(rules, w, events))
  {
    var before, event := events[..|events| - 1], events[|events| - 1];
    assert events == before + [event];
    LastEventForwards(rules, w, before, event);
    if i < |before| {
      LeakOutlives(rules, w, before, event, i);
      LeakRemains(rules, w, before, i);
    } else {
      LeakBegins(rules, w, before, event);
    }
  }

  lemma {:induction false} LeakHappened(rules: Rules, w: World, events: seq<Event>) returns (i: nat)
    requires TraceOk(rules, w) && !ForwardingOk(Run(rules, w, events))
    ensures i < |events| && LeakedAt(rules, w, events, i)
  {
    var before, event := events[..|events| - 1], events[|events| - 1];
    assert events == before + [event];
    LastEventForwards(rules, w, before, event);
    if ForwardingOk(Run(rules, w, before)) {
      LeakBegins(rules, w, before, event);
      i := |before|;
    } else {
      i := LeakHappened(rules, w, before);
      LeakOutlives(rules, w, before, event, i);
    }
  }

  /** Over every run, whatever probe and engine answer: forwarding is admitted without
      an armed proxy policy if and only if some request or teardown leaked and no later
      event ended that. */
  lemma ForwardingOnlyWhileArmed(rules: Rules, w: World, events: seq<Event>)
    requires TraceOk(rules, w)
    ensures Inv(rules, Run(rules, w, events).e, Run(rules, w, events).w)
    ensures ForwardingOk(Run(rules, w, events)) <==>
              forall i :: 0 <= i < |events| ==> !LeakedAt(rules, w, events, i)
  {
    RunKeeps(rules, w, events);
    if i :| 0 <= i < |events| && LeakedAt(rules, w, events, i) { LeakRemains(rules, w, events, i); }
    if !ForwardingOk(Run(rules, w, events)) { var i := LeakHappened(rules, w, events); }
  }

  // ----- A run that leaks ----------------------------------------------------

  function Asking(command: Command, outcome: Outcome): Event {
    Served(command, BrokerRuns.Working(8), ProbeReply(outcome))
  }

  function ProbeReply(outcome: Outcome): seq<ProbeAnswer> {
    [ProbeAnswer(outcome, Spec.ForwardingHealth(true, true, true, RequiredForProxy()))]
  }

  /** Arm a proxy policy, then force blocking with a deactivation that fails. */
  function LeakingRun(rules: Rules, policy: Policy, ingress: IngressSet): seq<Event> {
    [Asking(PreparePolicy(policy), Works),
     Asking(CommitPolicy(policy.revision, rules.digest(policy), ingress), Works),
     Asking(ForceBlocking(policy.revision), Fails)]
  }

  lemma Prepares(rules: Rules, policy: Policy)
    requires ValidPolicy(rules, policy) && HasProxyEntries(policy)
    ensures var n := Step(rules, Node(Spec.NEW_ENGINE, BrokerRuns.START.w, Probe(false, [])),
                          Asking(PreparePolicy(policy), Works));
            && BrokerSuccess.Stands(Spec.State(n.e, n.w), policy, Blocking) && n.e.lease == Some(policy)
            && !n.probe.forwarding
  {
    BrokerSuccess.PrepareSucceedsExactly(rules, Spec.NEW_ENGINE, BrokerRuns.START.w.(script := BrokerRuns.Working(8)), policy);
  }

  lemma Commits(rules: Rules, n: Node, policy: Policy, ingress: IngressSet)
    requires Inv(rules, n.e, n.w) && BrokerSuccess.Stands(Spec.State(n.e, n.w), policy, Blocking) && n.e.lease == Some(policy)
    requires HasProxyEntries(policy) && ValidIngressSet(rules, ingress)
    requires CoreSide.EntryGroups(ingress.entries) == OrderedSet(ProxyGroups(policy.entries))
    ensures var n' := Step(rules, n, Asking(CommitPolicy(policy.revision, rules.digest(policy), ingress), Works));
            BrokerSuccess.Stands(Spec.State(n'.e, n'.w), policy, Armed) && n'.probe.forwarding
  {
    BrokerSuccess.CommitSucceedsExactly(rules, n.e, n.w.(script := BrokerRuns.Working(8)), policy.revision, rules.digest(policy),
                                        ProbeReply(Works)[0].health);
  }

  /** The run up to the forced blocking arms the policy. */
  lemma ArmingRun(rules: Rules, policy: Policy, ingress: IngressSet, a: Event, b: Event)
    requires ValidPolicy(rules, policy) && HasProxyEntries(policy) && ValidIngressSet(rules, ingress)
    requires CoreSide.EntryGroups(ingress.entries) == OrderedSet(ProxyGroups(policy.entries))
    requires a == Asking(PreparePolicy(policy), Works)
    requires b == Asking(CommitPolicy(policy.revision, rules.digest(policy), ingress), Works)
    ensures var n := Step(rules, Step(rules, Run(rules, BrokerRuns.START.w, []), a), b);
            BrokerSuccess.Stands(Spec.State(n.e, n.w), policy, Armed) && n.probe.forwarding
            && Inv(rules, n.e, n.w)
  {
    var start := Run(rules, BrokerRuns.START.w, []);
    Prepares(rules, policy);
    StepForwards(rules, start, a);
    Commits(rules, Step(rules, start, a), policy, ingress);
    StepForwards(rules, Step(rules, start, a), b);
  }

  /** Any proxy policy can be armed and then blocked while forwarding stays admitted. */
  lemma LeakHappens(rules: Rules, policy: Policy, ingress: IngressSet)
    requires ValidPolicy(rules, policy) && HasProxyEntries(policy) && ValidIngressSet(rules, ingress)
    requires CoreSide.EntryGroups(ingress.entries) == OrderedSet(ProxyGroups(policy.entries))
    ensures var events := LeakingRun(rules, policy, ingress);
            var n := Run(rules, BrokerRuns.START.w, events);
            && LeakedAt(rules, BrokerRuns.START.w, events, 2)
            && n.probe.forwarding && n.e.phase == Blocking && n.w.now.image.backend.dataPlane == None
  {
    var w, events := BrokerRuns.START.w, LeakingRun(rules, policy, ingress);
    RunOfThree(rules, w, events[0], events[1], events[2]);
    ArmingRun(rules, policy, ingress, events[0], events[1]);
    Blocks(rules, Run(rules, w, [events[0], events[1]]), policy);
  }

  lemma RunOfThree(rules: Rules, w: World, a: Event, b: Event, c: Event)
    ensures Run(rules, w, [a]) == Step(rules, Run(rules, w, []), a)
    ensures Run(rules, w, [a, b]) == Step(rules, Run(rules, w, [a]), b)
    ensures Run(rules, w, [a, b, c]) == Step(rules, Run(rules, w, [a, b]), c)
    ensures LeakedAt(rules, w, [a, b, c], 2) <==>
              ForwardingOk(Run(rules, w, [a, b])) && Leaks(rules, Run(rules, w, [a, b]), c)
  {
    assert [a, b, c] == [a, b] + [c];
    assert [a, b][..1] == [a] && [a, b, c][..2] == [a, b];
    LeakBegins(rules, w, [a, b], c);
  }

  lemma Blocks(rules: Rules, n: Node, policy: Policy)
    requires BrokerSuccess.Stands(Spec.State(n.e, n.w), policy, Armed) && n.probe.forwarding && HasProxyEntries(policy)
    requires Inv(rules, n.e, n.w)
    ensures var event := Asking(ForceBlocking(policy.revision), Fails);
            var n' := Step(rules, n, event);
            && ForwardingOk(n) && Leaks(rules, n, event)
            && n'.probe.forwarding && n'.e.phase == Blocking && n'.w.now.image.backend.dataPlane == None
  {
  }
}
