/** Without faults, recovery ends with the policy active and armed, after at
    most five request/reply pairs. */
module OrchestratorConvergence {
  import opened Wrappers
  import opened StrictContract
  import opened TargetGroups
  import Ingress = CoreIngress
  import Control = StrictControllerModule
  import CoreSide
  import opened StrictProtocol
  import opened OrchestratorSpec
  import opened OrchestratorRuns
  import History = OrchestratorHistory

  // ----- The ingress state every run keeps -----------------------------------

  predicate PastIngress(phase: Phase) {
    phase.Idle? || phase.AwaitPrepare? || phase.AwaitCommit? || phase.Active? || phase.Blocked?
  }

  /** Outside a Core exchange nothing is pending, and an active descriptor is one
      the Broker would accept; a pending revoke asks for nothing. */
  predicate IngressOk(rules: Rules, o: Orchestrator) {
    && (PastIngress(o.phase) ==> o.ingress.pending.None?)
    && (o.phase.Idle? || o.phase.AwaitPrepare? || o.phase.AwaitCommit? || o.phase.Active? ==>
          o.ingress.active.Some? ==> Ingress.BrokerIngressSet(rules, o.ingress.active.value).Ok?)
    && (o.phase.Blocked? || o.phase.Idle? ==> o.ingress.active.None?)
    && (o.phase.AwaitBlockingRevoke? || o.phase.AwaitDisableRevoke? ==>
          o.ingress.pending.Some? ==> o.ingress.pending.value.entries == [])
    && (o.phase.AwaitPrepare? ==>
          o.phase.digest == rules.digest(o.phase.policy) && o.phase.groups == OrderedSet(ProxyGroups(o.phase.policy.entries)))
  }

  lemma BeginShape(rules: Rules, c: Ingress.Coordinator, groups: seq<Group>, draw: Ingress.Draw)
    ensures var (ingress, change) := Ingress.Begin(rules, c, groups, draw);
            ingress == if change.Ok? && change.value.Request? then c.(generation := c.generation + 1, pending := Some(change.value.action)) else c
  {
  }

  lemma RequestOrCommitKeepsIngress(rules: Rules, o: Orchestrator, revision: nat, digest: string, change: Result<Ingress.Change>)
    requires o.ingress.active.Some? ==> Ingress.BrokerIngressSet(rules, o.ingress.active.value).Ok?
    requires o.ingress.pending.None? || (change.Ok? && change.value.Request?)
    ensures IngressOk(rules, RequestOrCommit(rules, o, revision, digest, change).0)
  {
  }

  lemma PreparedKeepsIngress(rules: Rules, o: Orchestrator, proof: BrokerProof, draw: Ingress.Draw)
    requires IngressOk(rules, o) && o.phase.AwaitPrepare?
    ensures IngressOk(rules, AcceptPrepared(rules, o, o.phase.policy, o.phase.digest, o.phase.groups, proof, draw).0)
  {
    var (c, ok) := Control.ApplyProof(o.controller, proof);
    if !ok || !ProvesGuard(proof) || o.phase.groups == [] || !c.state.Blocking? { return; }
    var (ingress, change) := Ingress.Begin(rules, o.ingress, o.phase.groups, draw);
    BeginShape(rules, o.ingress, o.phase.groups, draw);
    RequestOrCommitKeepsIngress(rules, o.(controller := c, ingress := ingress), o.phase.policy.revision, o.phase.digest, change);
  }

  lemma ProofKeepsIngress(rules: Rules, o: Orchestrator, proof: BrokerProof, draw: Ingress.Draw)
    requires IngressOk(rules, o)
    ensures IngressOk(rules, AcceptProof(rules, o, proof, draw).0)
  {
    if o.phase.AwaitPrepare? {
      PreparedKeepsIngress(rules, o, proof, draw);
      assert AcceptProof(rules, o, proof, draw) == AcceptPrepared(rules, o, o.phase.policy, o.phase.digest, o.phase.groups, proof, draw);
    } else {
      OtherProofKeepsIngress(rules, o, proof, draw);
    }
  }

  lemma OtherProofKeepsIngress(rules: Rules, o: Orchestrator, proof: BrokerProof, draw: Ingress.Draw)
    requires IngressOk(rules, o) && !o.phase.AwaitPrepare?
    ensures IngressOk(rules, AcceptProof(rules, o, proof, draw).0)
  {
  }

  lemma ResponseKeepsIngress(rules: Rules, o: Orchestrator, response: Ingress.CoreResponse)
    requires IngressOk(rules, o) && Agrees(o)
    ensures IngressOk(rules, AcceptCore(rules, o, response).0)
  {
  }

  lemma StepKeepsIngress(rules: Rules, o: Orchestrator, call: Call)
    requires IngressOk(rules, o) && Agrees(o) && Permitted(rules, o, call)
    ensures IngressOk(rules, Perform(rules, o, call).0)
  {
    if call.DoAcceptProof? { ProofKeepsIngress(rules, o, call.proof, call.draw); }
    else if call.DoAcceptCore? { ResponseKeepsIngress(rules, o, call.response); }
  }

  lemma {:induction false} RunKeepsIngress(rules: Rules, calls: seq<Call>)
    requires AllPermitted(rules, calls)
    ensures IngressOk(rules, After(rules, calls).o)
  {
    if calls != [] {
      RunKeepsIngress(rules, calls[..|calls| - 1]);
      RunAgrees(rules, calls[..|calls| - 1]);
      StepKeepsIngress(rules, After(rules, calls[..|calls| - 1]).o, calls[|calls| - 1]);
    }
  }

  // ----- Honest answers ------------------------------------------------------

  /** The live policy is `p`: its intent is desired, nothing is being disabled,
      and the phase belongs to it. */
  predicate Live(rules: Rules, o: Orchestrator, p: Policy) {
    && ValidPolicy(rules, p) && HasProxyEntries(p)
    && IntentFor(rules, p).Ok? && o.controller.desired == Some(IntentFor(rules, p).value)
    && !o.controller.disabling
    && IngressOk(rules, o)
    && match o.phase
       case AwaitPrepare(policy, digest, groups) =>
         policy == p && digest == rules.digest(p) && groups == OrderedSet(ProxyGroups(p.entries))
       case AwaitIngress(revision, _) => revision == p.revision
       case AwaitCommit(revision) => revision == p.revision
       case AwaitBlocking(revision) => revision == p.revision
       case AwaitBlockingRevoke(revision) => revision == p.revision
       case Blocked(revision) => revision == p.revision
       case _ => false
  }

  predicate HonestProof(rules: Rules, p: Policy, proof: BrokerProof, committed: bool) {
    && proof.revision == p.revision && SameDigest(proof.policyDigest, rules.digest(p))
    && ProvesGuard(proof)
    && (if committed then RequiredForProxy() <= proof.capabilities && proof.coreHealthy && proof.relayHealthy && proof.dnsHealthy
        else ForwardingOff(proof))
  }

  predicate SoundTokens(draw: Ingress.Draw) {
    draw.fits && forall i: nat :: i < Ingress.MAX_STRICT_INGRESS_ENTRIES ==>
      ValidCredential(draw.tokens(i).0) && ValidCredential(draw.tokens(i).1)
  }

  predicate HonestAnswer(rules: Rules, p: Policy, action: Action, call: Call) {
    match action
    case Broker(command) =>
      call.DoAcceptProof? && SoundTokens(call.draw) && HonestProof(rules, p, call.proof, command.CommitPolicy?)
    case Core(request) =>
      && call.DoAcceptCore? && Ingress.Correlates(request, call.response)
      && Ingress.EntriesMatch(request.entries, call.response.entries)
    case Settled(_) => true
  }

  // ----- One request/reply pair ----------------------------------------------

  datatype Exchange = Exchange(o: Orchestrator, action: Action)

  /** Waiting in phase `o.phase` for the reply to `action`. */
  predicate Coherent(rules: Rules, p: Policy, x: Exchange) {
    && Live(rules, x.o, p)
    && match x.action
       case Broker(ForceBlocking(revision)) => revision == p.revision && x.o.phase.AwaitBlocking?
       case Broker(PreparePolicy(policy)) => policy == p && x.o.phase.AwaitPrepare?
       case Broker(CommitPolicy(_, _, _)) => x.o.phase.AwaitCommit?
       case Core(request) =>
         && x.o.ingress.pending == Some(request)
         && (x.o.phase.AwaitBlockingRevoke? ||
             (x.o.phase.AwaitIngress? && request.generation > 0 && RequestOk(rules, p, request)))
       case _ => false
  }

  predicate RequestOk(rules: Rules, p: Policy, request: Ingress.CoreAction) {
    var groups := OrderedSet(ProxyGroups(p.entries));
    && |request.entries| == |groups| && groups != []
    && (forall i :: 0 <= i < |groups| ==>
          && request.entries[i].group == groups[i]
          && ValidCredential(request.entries[i].username) && ValidCredential(request.entries[i].password))
  }

  predicate Settles(x: Exchange) {
    x.o.phase.Active? && x.o.controller.state.Armed? && x.action.Settled?
  }

  /** Request/reply pairs still to come at most. */
  function Rank(x: Exchange): nat {
    match x.o.phase
    case AwaitBlocking(_) => 5
    case AwaitBlockingRevoke(_) => 4
    case AwaitPrepare(_, _, _) => 3
    case AwaitIngress(_, _) => 2
    case AwaitCommit(_) => 1
    case _ => 0
  }

  /** Generations a run of this rank may still draw. */
  function Draws(x: Exchange): nat {
    if Rank(x) == 5 then 2 else if Rank(x) >= 3 then 1 else 0
  }

  predicate RoomFor(x: Exchange) {
    x.o.ingress.generation + Draws(x) <= U64_MAX
  }

  /** Answer the outstanding action; when that leaves nothing outstanding, recover. */
  function Pair(rules: Rules, p: Policy, x: Exchange, call: Call, draw: Ingress.Draw): Exchange {
    var (o, r) := Perform(rules, x.o, call);
    if r.Ok? && (!r.value.Settled? || o.phase.Active?) then Exchange(o, r.value) else
    var (o, r) := Recover(rules, o, p, draw);
    Exchange(o, if r.Ok? then r.value else x.action)
  }

  lemma BlockingPair(rules: Rules, p: Policy, x: Exchange, call: Call, draw: Ingress.Draw)
    requires Coherent(rules, p, x) && RoomFor(x) && x.o.phase.AwaitBlocking?
    requires HonestAnswer(rules, p, x.action, call)
    ensures var y := Pair(rules, p, x, call, draw); Coherent(rules, p, y) && RoomFor(y) && Rank(y) == 4
  {
    LowerTwice(rules.digest(p));
  }

  lemma RevokePair(rules: Rules, p: Policy, x: Exchange, call: Call, draw: Ingress.Draw)
    requires Coherent(rules, p, x) && RoomFor(x) && x.o.phase.AwaitBlockingRevoke?
    requires HonestAnswer(rules, p, x.action, call)
    ensures var y := Pair(rules, p, x, call, draw); Coherent(rules, p, y) && RoomFor(y) && Rank(y) == 3 && y.o.ingress.active.None?
  {
  }

  /** Waiting for Core ingress, or for the commit when the active ingress already serves
      the groups. */
  predicate PreparedNext(rules: Rules, p: Policy, o: Orchestrator, c: Control.Controller, draw: Ingress.Draw, next: Outcome) {
    var action := Ingress.CoreAction(o.ingress.generation + 1, Ingress.Drawn(OrderedSet(ProxyGroups(p.entries)), draw.tokens));
    || next == (Orchestrator(c, Ingress.Coordinator(action.generation, Some(action), o.ingress.active),
                             AwaitIngress(p.revision, rules.digest(p))), Ok(Core(action)))
    || (&& o.ingress.active.Some? && Ingress.BrokerIngressSet(rules, o.ingress.active.value).Ok?
        && next == (o.(controller := c, phase := AwaitCommit(p.revision)),
                    Ok(Broker(CommitPolicy(p.revision, rules.digest(p),
                                           Ingress.BrokerIngressSet(rules, o.ingress.active.value).value)))))
  }

  predicate HasGroups(p: Policy) {
    0 < |OrderedSet(ProxyGroups(p.entries))| <= Ingress.MAX_STRICT_INGRESS_ENTRIES
  }

  /** An honest guard proof leaves the policy waiting for Core ingress, or for the
      commit when the active ingress already serves its groups. */
  lemma GuardAdvances(rules: Rules, p: Policy, o: Orchestrator, proof: BrokerProof, draw: Ingress.Draw)
    requires Live(rules, o, p) && o.phase.AwaitPrepare? && o.ingress.generation < U64_MAX
    requires SoundTokens(draw) && HonestProof(rules, p, proof, false)
    ensures var c := Control.ApplyProof(o.controller, proof).0;
            && HasGroups(p) && c.desired == o.controller.desired && !c.disabling
            && PreparedNext(rules, p, o, c, draw, AcceptProof(rules, o, proof, draw))
  {
    LowerTwice(rules.digest(p));
    var groups := OrderedSet(ProxyGroups(p.entries));
    CoreSide.PolicyGroups(rules, p);
    AgentAndBrokerAgree(ProxyGroups(p.entries));
    assert Control.ApplyProof(o.controller, proof).0.state.Blocking?;
    var (ingress, change) := Ingress.Begin(rules, o.ingress, groups, draw);
    assert change.Ok?;
  }

  /** The commit follows at once only if the active ingress serves exactly the groups. */
  lemma CommitMeansServed(rules: Rules, p: Policy, o: Orchestrator, proof: BrokerProof, draw: Ingress.Draw)
    requires Live(rules, o, p) && o.phase.AwaitPrepare? && AcceptProof(rules, o, proof, draw).0.phase.AwaitCommit?
    ensures Ingress.ActiveGroups(o.ingress) == OrderedSet(ProxyGroups(p.entries))
  {
    CoreSide.PolicyGroups(rules, p);
    AgentAndBrokerAgree(ProxyGroups(p.entries));
  }

  lemma Waits(rules: Rules, p: Policy, o: Orchestrator, c: Control.Controller, draw: Ingress.Draw)
    requires Live(rules, o, p) && o.phase.AwaitPrepare? && o.ingress.generation < U64_MAX && SoundTokens(draw)
    requires c.desired == o.controller.desired && !c.disabling
    requires HasGroups(p)
    ensures var action := Ingress.CoreAction(o.ingress.generation + 1, Ingress.Drawn(OrderedSet(ProxyGroups(p.entries)), draw.tokens));
            var y := Exchange(Orchestrator(c, Ingress.Coordinator(action.generation, Some(action), o.ingress.active),
                                           AwaitIngress(p.revision, rules.digest(p))), Core(action));
            Coherent(rules, p, y) && RoomFor(y)
    ensures o.ingress.active.Some? ==>
              forall command: Command :: command.CommitPolicy? ==>
                Coherent(rules, p, Exchange(o.(controller := c, phase := AwaitCommit(p.revision)), Broker(command)))
  {
    var groups := OrderedSet(ProxyGroups(p.entries));
    assert RequestOk(rules, p, Ingress.CoreAction(o.ingress.generation + 1, Ingress.Drawn(groups, draw.tokens)));
  }

  lemma Continues(rules: Rules, p: Policy, x: Exchange, call: Call, draw: Ingress.Draw, next: Outcome)
    requires Perform(rules, x.o, call) == next && next.1.Ok? && !next.1.value.Settled?
    ensures Pair(rules, p, x, call, draw) == Exchange(next.0, next.1.value)
  {
  }

  /** Either next step of a prepared policy is an exchange in progress. */
  lemma NextIsCoherent(rules: Rules, p: Policy, o: Orchestrator, c: Control.Controller, draw: Ingress.Draw, next: Outcome)
    requires Live(rules, o, p) && o.phase.AwaitPrepare? && o.ingress.generation < U64_MAX && SoundTokens(draw)
    requires HasGroups(p) && c.desired == o.controller.desired && !c.disabling && PreparedNext(rules, p, o, c, draw, next)
    ensures next.1.Ok? && !next.1.value.Settled?
    ensures var y := Exchange(next.0, next.1.value); Coherent(rules, p, y) && RoomFor(y) && 1 <= Rank(y) <= 2
  {
    Waits(rules, p, o, c, draw);
  }

  lemma ContinuesCoherently(rules: Rules, p: Policy, x: Exchange, call: Call, draw: Ingress.Draw, next: Outcome)
    requires Perform(rules, x.o, call) == next && next.1.Ok? && !next.1.value.Settled?
    requires var y := Exchange(next.0, next.1.value); Coherent(rules, p, y) && RoomFor(y) && 1 <= Rank(y) <= 2
    ensures var y := Pair(rules, p, x, call, draw); Coherent(rules, p, y) && RoomFor(y) && 1 <= Rank(y) <= 2
  {
    Continues(rules, p, x, call, draw, next);
  }

  lemma PreparePair(rules: Rules, p: Policy, x: Exchange, call: Call, draw: Ingress.Draw)
    requires Coherent(rules, p, x) && RoomFor(x) && x.o.phase.AwaitPrepare?
    requires HonestAnswer(rules, p, x.action, call)
    ensures var y := Pair(rules, p, x, call, draw); Coherent(rules, p, y) && RoomFor(y) && 1 <= Rank(y) <= 2
  {
    var next := Perform(rules, x.o, call);
    PreparedPerforms(rules, p, x, call);
    ContinuesCoherently(rules, p, x, call, draw, next);
  }

  lemma PreparedPerforms(rules: Rules, p: Policy, x: Exchange, call: Call)
    requires Coherent(rules, p, x) && RoomFor(x) && x.o.phase.AwaitPrepare?
    requires HonestAnswer(rules, p, x.action, call)
    ensures var next := Perform(rules, x.o, call);
            && next.1.Ok? && !next.1.value.Settled?
            && var y := Exchange(next.0, next.1.value); Coherent(rules, p, y) && RoomFor(y) && 1 <= Rank(y) <= 2
  {
    GuardAdvances(rules, p, x.o, call.proof, call.draw);
    NextIsCoherent(rules, p, x.o, Control.ApplyProof(x.o.controller, call.proof).0, call.draw,
                   AcceptProof(rules, x.o, call.proof, call.draw));
  }

  /** An honest answer to the policy's own request makes a set the Broker accepts. */
  lemma RequestYieldsSet(rules: Rules, p: Policy, c: Ingress.Coordinator, response: Ingress.CoreResponse)
    requires ValidPolicy(rules, p) && c.pending.Some? && RequestOk(rules, p, c.pending.value) && c.pending.value.generation > 0
    requires Ingress.Correlates(c.pending.value, response) && Ingress.EntriesMatch(c.pending.value.entries, response.entries)
    ensures var done := Ingress.Complete(c, response);
            done.1.Ok? && done.1.value.Some? && Ingress.BrokerIngressSet(rules, done.1.value.value).Ok?
            && Ingress.ActiveGroups(done.0) == OrderedSet(ProxyGroups(p.entries))
  {
    var groups := OrderedSet(ProxyGroups(p.entries));
    CoreSide.PolicyGroups(rules, p);
    OrderedSetAscends(ProxyGroups(p.entries));
    var d := Ingress.Complete(c, response).1.value.value;
    assert forall i :: 0 <= i < |d.entries| ==> d.entries[i].group == groups[i] && Ingress.ValidIngressEntry(rules, d.entries[i]);
    assert Ingress.ValidIngressSet(rules, Ingress.IngressSet(Ingress.STRICT_INGRESS_PROTOCOL, d.generation, Some(d.udp), d.entries));
  }

  /** The honest answer to the request for the groups leads to their commit. */
  lemma IngressNext(rules: Rules, p: Policy, o: Orchestrator, response: Ingress.CoreResponse)
    requires Live(rules, o, p) && o.phase.AwaitIngress? && o.ingress.pending.Some?
    requires RequestOk(rules, p, o.ingress.pending.value) && o.ingress.pending.value.generation > 0
    requires Ingress.Correlates(o.ingress.pending.value, response) && Ingress.EntriesMatch(o.ingress.pending.value.entries, response.entries)
    ensures var (next, action) := AcceptCore(rules, o, response);
            && action.Ok? && action.value.Broker? && action.value.command.CommitPolicy?
            && Live(rules, next, p) && next.phase == AwaitCommit(o.phase.revision) && next.ingress.generation == o.ingress.generation
  {
    RequestYieldsSet(rules, p, o.ingress, response);
  }

  lemma IngressPair(rules: Rules, p: Policy, x: Exchange, call: Call, draw: Ingress.Draw)
    requires Coherent(rules, p, x) && RoomFor(x) && x.o.phase.AwaitIngress?
    requires HonestAnswer(rules, p, x.action, call)
    ensures var y := Pair(rules, p, x, call, draw); Coherent(rules, p, y) && RoomFor(y) && Rank(y) == 1
  {
    IngressNext(rules, p, x.o, call.response);
    Continues(rules, p, x, call, draw, AcceptCore(rules, x.o, call.response));
  }

  lemma CommitPair(rules: Rules, p: Policy, x: Exchange, call: Call, draw: Ingress.Draw)
    requires Coherent(rules, p, x) && x.o.phase.AwaitCommit?
    requires HonestAnswer(rules, p, x.action, call)
    ensures Settles(Pair(rules, p, x, call, draw))
  {
    LowerTwice(rules.digest(p));
  }

  /** Every honest pair lowers the rank until the policy is active and armed. */
  lemma PairProgress(rules: Rules, p: Policy, x: Exchange, call: Call, draw: Ingress.Draw)
    requires Coherent(rules, p, x) && RoomFor(x) && HonestAnswer(rules, p, x.action, call)
    ensures var y := Pair(rules, p, x, call, draw);
            if Rank(x) == 1 then Settles(y) else Coherent(rules, p, y) && RoomFor(y) && 1 <= Rank(y) < Rank(x)
  {
    if x.o.phase.AwaitBlocking? { BlockingPair(rules, p, x, call, draw); }
    else if x.o.phase.AwaitBlockingRevoke? { RevokePair(rules, p, x, call, draw); }
    else if x.o.phase.AwaitPrepare? { PreparePair(rules, p, x, call, draw); }
    else if x.o.phase.AwaitIngress? { IngressPair(rules, p, x, call, draw); }
    else { CommitPair(rules, p, x, call, draw); }
  }

  // ----- Convergence ---------------------------------------------------------

  /** How the world answers: any function of the exchange. */
  datatype World = World(answer: Exchange -> Call, draw: Ingress.Draw)

  ghost predicate Honest(rules: Rules, p: Policy, w: World) {
    forall x: Exchange :: HonestAnswer(rules, p, x.action, w.answer(x))
  }

  function Pairs(rules: Rules, p: Policy, x: Exchange, w: World, n: nat): Exchange
    decreases n
  {
    if n == 0 then x else Pairs(rules, p, Pair(rules, p, x, w.answer(x), w.draw), w, n - 1)
  }

  lemma {:induction false} PairsSettle(rules: Rules, p: Policy, x: Exchange, w: World) returns (n: nat)
    requires Coherent(rules, p, x) && RoomFor(x) && Honest(rules, p, w)
    ensures n <= Rank(x) && Settles(Pairs(rules, p, x, w, n))
    decreases Rank(x)
  {
    var y := Pair(rules, p, x, w.answer(x), w.draw);
    assert HonestAnswer(rules, p, x.action, w.answer(x));
    PairProgress(rules, p, x, w.answer(x), w.draw);
    if Rank(x) == 1 {
      assert Pairs(rules, p, y, w, 0) == y;
      n := 1;
    } else {
      var rest := PairsSettle(rules, p, y, w);
      n := rest + 1;
    }
  }

  lemma RecoverStarts(rules: Rules, p: Policy, o: Orchestrator, draw: Ingress.Draw)
    requires Live(rules, o, p) && draw.fits && o.ingress.generation + 2 <= U64_MAX
    ensures var (o', r) := Recover(rules, o, p, draw);
            r.Ok? && Coherent(rules, p, Exchange(o', r.value)) && RoomFor(Exchange(o', r.value))
  {
  }

  /** What a run must have left for `p` to be recovered, and room for two more ingress
      generations. */
  predicate LeftLive(rules: Rules, o: Orchestrator, p: Policy) {
    && ValidPolicy(rules, p) && HasProxyEntries(p) && IntentFor(rules, p).Ok?
    && o.controller.desired == Some(IntentFor(rules, p).value)
    && (o.phase.AwaitPrepare? ==> o.phase.policy == p)
    && !(o.phase.Idle? || o.phase.Active? || o.phase.AwaitDisable? || o.phase.AwaitDisableRevoke?)
    && o.ingress.generation + 2 <= U64_MAX
  }

  lemma RunLeavesLive(rules: Rules, calls: seq<Call>, p: Policy)
    requires AllPermitted(rules, calls) && LeftLive(rules, After(rules, calls).o, p)
    ensures Live(rules, After(rules, calls).o, p)
  {
    RunKeepsIngress(rules, calls);
    RunAgrees(rules, calls);
    History.RunKeeps(rules, calls);
  }

  /** From every run that has left a proxy policy live and not being disabled, one
      call to `recover` and honest answers lead to Active and Armed within five
      request/reply pairs. */
  lemma RecoveryReachesArmed(rules: Rules, calls: seq<Call>, p: Policy, w: World) returns (n: nat)
    requires AllPermitted(rules, calls) && Honest(rules, p, w) && SoundTokens(w.draw)
    requires LeftLive(rules, After(rules, calls).o, p)
    ensures n <= 5
    ensures var (o, r) := Recover(rules, After(rules, calls).o, p, w.draw);
            r.Ok? && Settles(Pairs(rules, p, Exchange(o, r.value), w, n))
  {
    RunLeavesLive(rules, calls, p);
    RecoverStarts(rules, p, After(rules, calls).o, w.draw);
    var (o, r) := Recover(rules, After(rules, calls).o, p, w.draw);
    n := PairsSettle(rules, p, Exchange(o, r.value), w);
  }
}
