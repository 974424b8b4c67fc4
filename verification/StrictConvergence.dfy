/** Agent, Broker and Core together, each as the source has it: when nothing fails,
    their own answers to each other bring a live policy back to armed on both sides. */
module StrictConvergence {
  import opened Wrappers
  import opened StrictContract
  import opened TargetGroups
  import opened StrictProtocol
  import opened BrokerWorld
  import Engine = BrokerSpec
  import opened BrokerInvariant
  import BrokerSafety
  import BrokerRuns
  import Success = BrokerSuccess
  import Dispatcher = BrokerDispatch
  import Ingress = CoreIngress
  import Core = CoreSide
  import Agent = OrchestratorSpec
  import Control = StrictControllerModule
  import Runs = OrchestratorRuns
  import Convergence = OrchestratorConvergence

  // ----- A world in which nothing fails --------------------------------------

  /** What one exchange meets: answers of backend, store and verifier, the forwarding
      measurement, the Core's surroundings, and the Agent's random tokens. */
  datatype Env = Env(answers: seq<Answer>, probed: seq<Dispatcher.ProbeAnswer>, at: Core.Surroundings, draw: Ingress.Draw)

  /** So many calls work, and every answer attests to all capabilities. */
  predicate AllAttest(answers: seq<Answer>, calls: nat) {
    && BrokerRuns.AllWork(answers, calls)
    && forall k :: 0 <= k < |answers| ==> answers[k].generation > 0 && RequiredForProxy() <= answers[k].capabilities
  }

  predicate Fine(p: Policy, env: Env) {
    && AllAttest(env.answers, 8)
    && |env.probed| > 0 && env.probed[0].outcome.Works? && Engine.CompleteFor(env.probed[0].health, p)
    && Core.Healthy(env.at, OrderedSet(ProxyGroups(p.entries)))
    && Core.SoundDraw(env.draw, Ingress.MAX_STRICT_INGRESS_ENTRIES)
  }

  // ----- The Broker's answers ------------------------------------------------

  /** The Broker holds `p`: live in the engine, stored, and guarded, not being disabled. */
  predicate Holds(rules: Rules, p: Policy, e: Engine.Engine, w: World) {
    && Inv(rules, e, w)
    && e.marker.Some? && e.marker.value.policy == p && e.marker.value.phase != Disabling
    && w.now.image.store.marker.Some? && w.now.image.store.marker.value.policy == p
    && w.now.image.store.marker.value.phase != Disabling
    && w.now.image.backend.guards.Some? && w.now.image.backend.guards.value.policy == p
  }

  predicate Blocked(rules: Rules, p: Policy, e: Engine.Engine, w: World) {
    Holds(rules, p, e, w) && e.phase == Blocking && e.lease == Some(p)
  }

  predicate Armed(rules: Rules, p: Policy, e: Engine.Engine, w: World) {
    Holds(rules, p, e, w) && Success.Stands(Engine.State(e, w), p, BrokerPhase.Armed)
  }

  predicate Acceptable(rules: Rules, p: Policy, proof: BrokerProof, committed: bool) {
    Convergence.HonestProof(rules, p, proof, committed) && Dispatcher.ValidBrokerProof(proof)
  }

  lemma SameDigestIsSha256(a: string, b: string)
    requires SameDigest(a, b) && IsSha256(a)
    ensures IsSha256(b)
  {
    assert |LowerAscii(a)| == |LowerAscii(b)|;
    forall i | 0 <= i < |b| ensures IsHexDigit(b[i]) {
      assert LowerAscii(a)[i] == LowerAscii(b)[i];
      assert IsHexDigit(a[i]);
    }
  }

  /** Any status read while `p` is guarded is an honest proof for `p`. */
  lemma StatusIsHonest(rules: Rules, p: Policy, e: Engine.Engine, snapshot: Snapshot)
    requires HasProxyEntries(p) && p.revision > 0 && IsSha256(rules.digest(p))
    requires e.marker.Some? && ValidMarker(rules, e.marker.value) && e.marker.value.policy == p
    requires snapshot.guardsInstalled && snapshot.filterGeneration > 0 && RequiredForProxy() <= snapshot.capabilities
    ensures e.phase == Blocking ==> Acceptable(rules, p, Engine.StatusOf(e, snapshot).proof, false)
    ensures e.phase == BrokerPhase.Armed && snapshot.dataPlaneInstalled && Engine.CompleteFor(e.health, p) ==>
              Acceptable(rules, p, Engine.StatusOf(e, snapshot).proof, true)
  {
    SameDigestIsSha256(rules.digest(p), e.marker.value.digest);
  }

  lemma BlockAnswers(rules: Rules, p: Policy, e: Engine.Engine, w: World)
    requires Holds(rules, p, e, w) && AllAttest(w.script, 8)
    requires HasProxyEntries(p) && IsSha256(rules.digest(p))
    ensures var r := Engine.ForceBlocking(e, w, p.revision);
            && r.result.Ok? && Holds(rules, p, r.s.e, r.s.w) && Acceptable(rules, p, r.result.value.proof, false)
  {
    BrokerSafety.ForceBlockingKeeps(rules, e, w, p.revision);
    Success.GuardsOfTheLiveRevision(rules, e, w);
    var (w1, removed) := RemoveDataPlane(w);
    var (w2, snapshot) := TakeSnapshot(w1);
    var settled := e.marker.value.WithPhase(Blocking, snapshot.value.filterGeneration);
    StatusIsHonest(rules, p, e.(phase := Blocking, health := Engine.NO_HEALTH, marker := Some(settled)), snapshot.value);
  }

  lemma RebindAnswers(rules: Rules, p: Policy, e: Engine.Engine, w: World)
    requires HasProxyEntries(p) && p.revision > 0 && IsSha256(rules.digest(p))
    requires e.marker.Some? && ValidMarker(rules, e.marker.value) && e.marker.value.policy == p && e.lease == Some(p)
    requires AllAttest(w.script, 3) && w.now.image.backend.dataPlane.None?
    ensures var r := Engine.Rebind(e, w, e.marker.value);
            r.result.Ok? && Acceptable(rules, p, r.result.value.proof, false)
  {
    var marker := e.marker.value;
    var (w1, installed) := InstallGuards(w, p, p, marker.digest);
    var (w2, snapshot) := TakeSnapshot(w1);
    var settled := marker.WithPhase(Blocking, snapshot.value.filterGeneration);
    StatusIsHonest(rules, p, e.(marker := Some(settled), phase := Blocking), snapshot.value);
  }

  /** Preparing the live policy again is recovery: it ends blocked under a fresh lease. */
  lemma PrepareAnswers(rules: Rules, p: Policy, e: Engine.Engine, w: World)
    requires Holds(rules, p, e, w) && AllAttest(w.script, 8)
    requires HasProxyEntries(p) && IsSha256(rules.digest(p))
    ensures var r := Engine.Prepare(rules, e, w, p);
            && r.result.Ok? && Blocked(rules, p, r.s.e, r.s.w) && Acceptable(rules, p, r.result.value.proof, false)
  {
    BrokerSafety.RecoverKeeps(rules, e, w);
    BrokerRuns.RecoverConverges(rules, e, w);
    var (w1, record) := Load(w);
    var (w2, snapshot) := TakeSnapshot(w1);
    var w3 := Verify(w2).0;
    var marker := record.value.marker.value;
    var leased := e.(storeLoaded := true, highWatermark := record.value.highWatermark, marker := Some(marker),
                     phase := Recovering, health := Engine.NO_HEALTH, lease := Some(p));
    if w.now.image.backend.dataPlane.Some? {
      RebindAnswers(rules, p, leased, TakeSnapshot(RemoveDataPlane(w3).0).0);
    } else {
      RebindAnswers(rules, p, leased, w3);
    }
  }

  lemma CommitAnswers(rules: Rules, p: Policy, e: Engine.Engine, w: World, health: Engine.ForwardingHealth)
    requires Blocked(rules, p, e, w) && AllAttest(w.script, 8) && Engine.CompleteFor(health, p)
    requires HasProxyEntries(p) && IsSha256(rules.digest(p))
    ensures var r := Engine.Commit(e, w, p.revision, rules.digest(p), health);
            && r.result.Ok? && Armed(rules, p, r.s.e, r.s.w) && Acceptable(rules, p, r.result.value.proof, true)
  {
    Success.CommitSucceedsExactly(rules, e, w, p.revision, rules.digest(p), health);
    BrokerSafety.CommitKeeps(rules, e, w, p.revision, rules.digest(p), health);
    var (w1, installed) := InstallDataPlane(w, p, p, e.marker.value.digest);
    var (w2, snapshot) := TakeSnapshot(w1);
    var armed := e.marker.value.WithPhase(BrokerPhase.Armed, snapshot.value.filterGeneration);
    StatusIsHonest(rules, p, e.(marker := Some(armed), phase := BrokerPhase.Armed, health := health), snapshot.value);
  }

  /** The Broker as a whole answers each of the Agent's commands honestly. */
  lemma DispatchAnswers(rules: Rules, p: Policy, n: Dispatcher.Node, env: Env, command: Command)
    requires Holds(rules, p, n.e, n.w) && Fine(p, env) && HasProxyEntries(p) && IsSha256(rules.digest(p))
    requires command == ForceBlocking(p.revision) || command == PreparePolicy(p)
             || (ProperCommit(rules, p, command) && Blocked(rules, p, n.e, n.w))
    ensures var (n', response) := Dispatcher.Dispatch(rules, Dispatcher.Facing(n, env.answers, env.probed), command);
            && response.Proven? && Acceptable(rules, p, response.proof, command.CommitPolicy?)
            && Holds(rules, p, n'.e, n'.w)
            && (command.PreparePolicy? ==> Blocked(rules, p, n'.e, n'.w))
            && (command.CommitPolicy? ==> Armed(rules, p, n'.e, n'.w) && n'.probe.forwarding)
  {
    var w := n.w.(script := env.answers);
    match command
    case ForceBlocking(_) => BlockAnswers(rules, p, n.e, w);
    case PreparePolicy(_) => PrepareAnswers(rules, p, n.e, w);
    case CommitPolicy(_, _, _) => CommitAnswers(rules, p, n.e, w, env.probed[0].health);
  }

  /** A commit of `p` with a valid set for exactly its groups. */
  predicate ProperCommit(rules: Rules, p: Policy, command: Command) {
    && command.CommitPolicy? && command.revision == p.revision && command.digest == rules.digest(p)
    && Ingress.ValidIngressSet(rules, command.ingress)
    && Core.EntryGroups(command.ingress.entries) == OrderedSet(ProxyGroups(p.entries))
  }

  // ----- The Core's answers --------------------------------------------------

  /** A request of the groups of `p` with usable credentials. */
  predicate ProperRequest(rules: Rules, p: Policy, request: Ingress.CoreAction) {
    && Convergence.RequestOk(rules, p, request)
    && (forall i, j :: 0 <= i < j < |request.entries| ==>
          Core.KeyId(request.entries[i].username) != Core.KeyId(request.entries[j].username))
  }

  predicate Older(session: Option<Core.Session>, generation: nat) {
    session.Some? ==> session.value.request.generation < generation
  }

  lemma CoreAnswersRequest(rules: Rules, p: Policy, session: Option<Core.Session>, request: Ingress.CoreAction, env: Env)
    requires ValidPolicy(rules, p) && ProperRequest(rules, p, request) && request.generation > 0
    requires Older(session, request.generation) && Fine(p, env)
    ensures var (next, answer) := Core.Configure(rules, session, request, env.at);
            && answer.Ok? && next == Some(Core.Session(request, answer.value)) && Core.SessionOk(next.value)
            && Ingress.Correlates(request, Core.AsResponse(answer.value))
            && Ingress.EntriesMatch(request.entries, Core.AsResponse(answer.value).entries)
  {
    var groups := OrderedSet(ProxyGroups(p.entries));
    Core.PolicyGroups(rules, p);
    OrderedSetAscends(ProxyGroups(p.entries));
    SortKeepsAscending(Core.GroupOf, request.entries);
    RequestBuilds(rules, p, request, env.at);
    Core.CoreAnswers(rules, session, request, env.at);
    BoundMatches(request, env.at, groups);
  }

  lemma RequestBuilds(rules: Rules, p: Policy, request: Ingress.CoreAction, at: Core.Surroundings)
    requires ProperRequest(rules, p, request) && Core.Healthy(at, OrderedSet(ProxyGroups(p.entries)))
    requires Ingress.TargetsOk(rules, OrderedSet(ProxyGroups(p.entries))) && Ascending(OrderedSet(ProxyGroups(p.entries)))
    ensures Core.EntriesBuild(rules, request.entries, at)
  {
    var groups := OrderedSet(ProxyGroups(p.entries));
    forall i | 0 < i < |groups| ensures groups[i - 1] != groups[i] {
      assert Below(groups[i - 1], groups[i]);
      BelowIrreflexive(groups[i]);
    }
  }

  lemma BoundMatches(request: Ingress.CoreAction, at: Core.Surroundings, groups: seq<Group>)
    requires |request.entries| == |groups| && forall i :: 0 <= i < |groups| ==> request.entries[i].group == groups[i]
    requires Core.Healthy(at, groups) && groups != []
    ensures var response := Core.AsResponse(Core.CoreResult(request.generation, at.udp, Core.Bound(request.entries, at)));
            Ingress.Correlates(request, response) && Ingress.EntriesMatch(request.entries, response.entries)
  {
  }

  lemma CoreAnswersRevoke(rules: Rules, session: Option<Core.Session>, request: Ingress.CoreAction, at: Core.Surroundings)
    requires request.entries == [] && request.generation > 0 && at.authenticated
    ensures var (next, answer) := Core.Configure(rules, session, request, at);
            && answer.Ok? && next.None?
            && Ingress.Correlates(request, Core.AsResponse(answer.value))
            && Ingress.EntriesMatch(request.entries, Core.AsResponse(answer.value).entries)
  {
  }

  // ----- The three together --------------------------------------------------

  /** An exchange the Agent waits in, the Broker, and what the Core serves. */
  datatype System = System(x: Convergence.Exchange, node: Dispatcher.Node, session: Option<Core.Session>)

  /** The outstanding action, answered by the Broker or the Core it is addressed to. */
  function Answered(rules: Rules, s: System, env: Env): (Runs.Call, Dispatcher.Node, Option<Core.Session>) {
    match s.x.action
    case Broker(command) =>
      var (node, response) := Dispatcher.Dispatch(rules, Dispatcher.Facing(s.node, env.answers, env.probed), command);
      (if response.Proven? then Runs.DoAcceptProof(response.proof, env.draw) else Runs.DoForceBlocking, node, s.session)
    case Core(request) =>
      var (session, answer) := Core.Configure(rules, s.session, request, env.at);
      (Runs.DoAcceptCore(if answer.Ok? then Core.AsResponse(answer.value) else Ingress.Garbled), s.node, session)
    case Settled(_) => (Runs.DoForceBlocking, s.node, s.session)
  }

  function Turn(rules: Rules, p: Policy, s: System, env: Env): System {
    var (call, node, session) := Answered(rules, s, env);
    System(Convergence.Pair(rules, p, s.x, call, env.draw), node, session)
  }

  /** A pending request carries the latest generation. */
  predicate Current(c: Ingress.Coordinator) {
    c.pending.Some? ==> c.pending.value.generation == c.generation > 0
  }

  predicate Ready(rules: Rules, p: Policy, s: System) {
    && Convergence.Coherent(rules, p, s.x) && Convergence.RoomFor(s.x) && Current(s.x.o.ingress)
    && IsSha256(rules.digest(p)) && Holds(rules, p, s.node.e, s.node.w)
    && (if s.x.o.phase.AwaitIngress? then
          && s.x.action.Core? && ProperRequest(rules, p, s.x.action.action) && s.x.o.phase.digest == rules.digest(p)
          && Older(s.session, s.x.action.action.generation) && Blocked(rules, p, s.node.e, s.node.w)
        else if s.x.o.phase.AwaitCommit? then
          && s.x.action.Broker? && ProperCommit(rules, p, s.x.action.command) && Blocked(rules, p, s.node.e, s.node.w)
        else Older(s.session, s.x.o.ingress.generation + 1))
  }

  lemma PerformKeepsCurrent(rules: Rules, o: Agent.Orchestrator, call: Runs.Call)
    requires Current(o.ingress)
    ensures var o' := Runs.Perform(rules, o, call).0;
            Current(o'.ingress) && o'.ingress.generation >= o.ingress.generation
  {
  }

  lemma RecoverKeepsCurrent(rules: Rules, o: Agent.Orchestrator, p: Policy, draw: Ingress.Draw)
    requires Current(o.ingress)
    ensures var o' := Agent.Recover(rules, o, p, draw).0;
            Current(o'.ingress) && o'.ingress.generation >= o.ingress.generation
  {
  }

  lemma PairKeepsCurrent(rules: Rules, p: Policy, x: Convergence.Exchange, call: Runs.Call, draw: Ingress.Draw)
    requires Current(x.o.ingress)
    ensures var y := Convergence.Pair(rules, p, x, call, draw);
            Current(y.o.ingress) && y.o.ingress.generation >= x.o.ingress.generation
  {
    PerformKeepsCurrent(rules, x.o, call);
    RecoverKeepsCurrent(rules, Runs.Perform(rules, x.o, call).0, p, draw);
  }

  /** Each component's own answer is the honest one. */
  lemma AnswersAreHonest(rules: Rules, p: Policy, s: System, env: Env)
    requires Ready(rules, p, s) && Fine(p, env)
    ensures var (call, node, session) := Answered(rules, s, env);
            && Convergence.HonestAnswer(rules, p, s.x.action, call)
            && Holds(rules, p, node.e, node.w)
            && (s.x.o.phase.AwaitPrepare? || s.x.o.phase.AwaitIngress? ==> Blocked(rules, p, node.e, node.w))
            && (s.x.o.phase.AwaitCommit? ==> Armed(rules, p, node.e, node.w) && node.probe.forwarding)
            && (!s.x.o.phase.AwaitIngress? && !s.x.o.phase.AwaitCommit? ==> Older(session, s.x.o.ingress.generation + 1))
  {
    match s.x.action
    case Broker(command) => DispatchAnswers(rules, p, s.node, env, command);
    case Core(request) =>
      if s.x.o.phase.AwaitIngress? { CoreAnswersRequest(rules, p, s.session, request, env); }
      else { CoreAnswersRevoke(rules, s.session, request, env.at); }
    case Settled(_) =>
  }

  /** The set of a descriptor for the groups of `p` makes a proper commit. */
  lemma ActiveSetIsProper(rules: Rules, p: Policy, d: Ingress.Descriptor)
    requires Ingress.BrokerIngressSet(rules, d).Ok?
    requires Ingress.ActiveGroups(Ingress.Coordinator(0, None, Some(d))) == OrderedSet(ProxyGroups(p.entries))
    ensures ProperCommit(rules, p, CommitPolicy(p.revision, rules.digest(p), Ingress.BrokerIngressSet(rules, d).value))
  {
    assert Core.EntryGroups(d.entries) == Ingress.ActiveGroups(Ingress.Coordinator(0, None, Some(d)));
  }

  /** The set to be committed is the Agent's active descriptor, entry by entry. */
  predicate CommitsActive(x: Convergence.Exchange) {
    && x.action.Broker? && x.action.command.CommitPolicy? && x.o.ingress.active.Some?
    && x.action.command.ingress.entries == x.o.ingress.active.value.entries
  }

  lemma PreparedExchange(rules: Rules, p: Policy, x: Convergence.Exchange, call: Runs.Call, draw: Ingress.Draw)
    requires Convergence.Coherent(rules, p, x) && Convergence.RoomFor(x) && x.o.phase.AwaitPrepare?
    requires Convergence.HonestAnswer(rules, p, x.action, call)
    ensures var y := Convergence.Pair(rules, p, x, call, draw);
            var groups := OrderedSet(ProxyGroups(p.entries));
            if y.o.phase.AwaitIngress? then
              && y.o.phase.digest == rules.digest(p)
              && y.action == Agent.Core(Ingress.CoreAction(x.o.ingress.generation + 1, Ingress.Drawn(groups, call.draw.tokens)))
            else
              && y.o.phase.AwaitCommit? && y.action.Broker? && ProperCommit(rules, p, y.action.command)
              && y.o.ingress == x.o.ingress && CommitsActive(y)
  {
    Convergence.GuardAdvances(rules, p, x.o, call.proof, call.draw);
    var r := Agent.AcceptProof(rules, x.o, call.proof, call.draw);
    Convergence.Continues(rules, p, x, call, draw, r);
    if r.0.phase.AwaitCommit? {
      Convergence.CommitMeansServed(rules, p, x.o, call.proof, call.draw);
      assert Ingress.ActiveGroups(x.o.ingress) == Ingress.ActiveGroups(Ingress.Coordinator(0, None, x.o.ingress.active));
      ActiveSetIsProper(rules, p, x.o.ingress.active.value);
    }
  }

  lemma DrawnIsProper(rules: Rules, p: Policy, generation: nat, draw: Ingress.Draw)
    requires ValidPolicy(rules, p) && HasProxyEntries(p) && Core.SoundDraw(draw, Ingress.MAX_STRICT_INGRESS_ENTRIES)
    ensures ProperRequest(rules, p, Ingress.CoreAction(generation, Ingress.Drawn(OrderedSet(ProxyGroups(p.entries)), draw.tokens)))
  {
    Core.PolicyGroups(rules, p);
  }

  lemma PreparedTurn(rules: Rules, p: Policy, s: System, env: Env)
    requires Ready(rules, p, s) && Fine(p, env) && s.x.o.phase.AwaitPrepare?
    ensures Ready(rules, p, Turn(rules, p, s, env)) && 1 <= Convergence.Rank(Turn(rules, p, s, env).x) <= 2
  {
    AnswersAreHonest(rules, p, s, env);
    var call := Answered(rules, s, env).0;
    Convergence.PreparePair(rules, p, s.x, call, env.draw);
    PairKeepsCurrent(rules, p, s.x, call, env.draw);
    PreparedExchange(rules, p, s.x, call, env.draw);
    DrawnIsProper(rules, p, s.x.o.ingress.generation + 1, env.draw);
  }

  /** The commit that follows an accepted answer is a proper one of what was accepted. */
  lemma AnswerIsCommitted(rules: Rules, p: Policy, o: Agent.Orchestrator, response: Ingress.CoreResponse)
    requires Convergence.Live(rules, o, p) && o.phase.AwaitIngress? && o.phase.digest == rules.digest(p) && o.ingress.pending.Some?
    requires Convergence.RequestOk(rules, p, o.ingress.pending.value) && o.ingress.pending.value.generation > 0
    requires Ingress.Correlates(o.ingress.pending.value, response) && Ingress.EntriesMatch(o.ingress.pending.value.entries, response.entries)
    ensures var (next, action) := Agent.AcceptCore(rules, o, response);
            && action.Ok? && action.value.Broker? && ProperCommit(rules, p, action.value.command)
            && next.ingress == Ingress.Complete(o.ingress, response).0 && CommitsActive(Convergence.Exchange(next, action.value))
  {
    Convergence.RequestYieldsSet(rules, p, o.ingress, response);
    var done := Ingress.Complete(o.ingress, response);
    assert Ingress.ActiveGroups(done.0) == Ingress.ActiveGroups(Ingress.Coordinator(0, None, done.1.value));
    ActiveSetIsProper(rules, p, done.1.value.value);
  }

  lemma IngressExchange(rules: Rules, p: Policy, x: Convergence.Exchange, call: Runs.Call, draw: Ingress.Draw)
    requires Convergence.Coherent(rules, p, x) && x.o.phase.AwaitIngress? && x.o.phase.digest == rules.digest(p)
    requires Convergence.HonestAnswer(rules, p, x.action, call) && x.action.Core?
    ensures var y := Convergence.Pair(rules, p, x, call, draw);
            && y.o.phase.AwaitCommit? && y.action.Broker? && ProperCommit(rules, p, y.action.command)
            && y.o.ingress == Ingress.Complete(x.o.ingress, call.response).0 && CommitsActive(y)
  {
    Convergence.IngressNext(rules, p, x.o, call.response);
    AnswerIsCommitted(rules, p, x.o, call.response);
    Convergence.Continues(rules, p, x, call, draw, Agent.AcceptCore(rules, x.o, call.response));
  }

  lemma IngressTurn(rules: Rules, p: Policy, s: System, env: Env)
    requires Ready(rules, p, s) && Fine(p, env) && s.x.o.phase.AwaitIngress?
    ensures Ready(rules, p, Turn(rules, p, s, env)) && Convergence.Rank(Turn(rules, p, s, env).x) == 1
  {
    AnswersAreHonest(rules, p, s, env);
    var call := Answered(rules, s, env).0;
    Convergence.IngressPair(rules, p, s.x, call, env.draw);
    PairKeepsCurrent(rules, p, s.x, call, env.draw);
    IngressExchange(rules, p, s.x, call, env.draw);
  }

  lemma StopTurn(rules: Rules, p: Policy, s: System, env: Env)
    requires Ready(rules, p, s) && Fine(p, env) && (s.x.o.phase.AwaitBlocking? || s.x.o.phase.AwaitBlockingRevoke?)
    ensures Ready(rules, p, Turn(rules, p, s, env)) && Convergence.Rank(Turn(rules, p, s, env).x) == Convergence.Rank(s.x) - 1
  {
    AnswersAreHonest(rules, p, s, env);
    var (call, node, session) := Answered(rules, s, env);
    PairKeepsCurrent(rules, p, s.x, call, env.draw);
    if s.x.o.phase.AwaitBlocking? { Convergence.BlockingPair(rules, p, s.x, call, env.draw); }
    else { Convergence.RevokePair(rules, p, s.x, call, env.draw); }
  }

  /** The Agent's active descriptor is what the Core serves: groups, credentials and endpoints. */
  predicate AgentServed(o: Agent.Orchestrator, session: Option<Core.Session>) {
    o.ingress.active.Some? ==> session.Some? && Core.ServedBy(o.ingress.active.value.entries, session.value)
  }

  /** What the Broker is about to be given, or may be given next, is what the Core serves. */
  predicate Matched(s: System) {
    && (s.x.o.phase.AwaitPrepare? ==> AgentServed(s.x.o, s.session))
    && (s.x.o.phase.AwaitCommit? ==> AgentServed(s.x.o, s.session) && CommitsActive(s.x))
  }

  lemma PreparedMatches(rules: Rules, p: Policy, s: System, env: Env)
    requires Ready(rules, p, s) && Fine(p, env) && s.x.o.phase.AwaitPrepare? && Matched(s)
    ensures Matched(Turn(rules, p, s, env))
  {
    AnswersAreHonest(rules, p, s, env);
    PreparedExchange(rules, p, s.x, Answered(rules, s, env).0, env.draw);
  }

  lemma IngressMatches(rules: Rules, p: Policy, s: System, env: Env)
    requires Ready(rules, p, s) && Fine(p, env) && s.x.o.phase.AwaitIngress?
    ensures Matched(Turn(rules, p, s, env))
  {
    AnswersAreHonest(rules, p, s, env);
    var (call, _, session) := Answered(rules, s, env);
    IngressExchange(rules, p, s.x, call, env.draw);
    CoreAnswersRequest(rules, p, s.session, s.x.action.action, env);
    Convergence.RequestYieldsSet(rules, p, s.x.o.ingress, call.response);
    Core.AcceptedIsServed(s.x.o.ingress, session.value);
  }

  lemma StopMatches(rules: Rules, p: Policy, s: System, env: Env)
    requires Ready(rules, p, s) && Fine(p, env) && (s.x.o.phase.AwaitBlocking? || s.x.o.phase.AwaitBlockingRevoke?)
    ensures Matched(Turn(rules, p, s, env))
  {
    AnswersAreHonest(rules, p, s, env);
    var call := Answered(rules, s, env).0;
    if s.x.o.phase.AwaitBlocking? { Convergence.BlockingPair(rules, p, s.x, call, env.draw); }
    else { Convergence.RevokePair(rules, p, s.x, call, env.draw); }
  }

  /** A commit leaves the Agent's ingress and the Core alone. */
  lemma CommitMatches(rules: Rules, p: Policy, s: System, env: Env)
    requires Ready(rules, p, s) && Fine(p, env) && s.x.o.phase.AwaitCommit?
    ensures Turn(rules, p, s, env).session == s.session && Turn(rules, p, s, env).x.o.ingress == s.x.o.ingress
  {
    AnswersAreHonest(rules, p, s, env);
    Convergence.CommitPair(rules, p, s.x, Answered(rules, s, env).0, env.draw);
    CommitKeepsIngress(rules, p, s.x, Answered(rules, s, env).0, env.draw);
  }

  lemma CommitKeepsIngress(rules: Rules, p: Policy, x: Convergence.Exchange, call: Runs.Call, draw: Ingress.Draw)
    requires x.o.phase.AwaitCommit? && call.DoAcceptProof? && Convergence.Settles(Convergence.Pair(rules, p, x, call, draw))
    ensures Convergence.Pair(rules, p, x, call, draw).o.ingress == x.o.ingress
  {
  }

  /** All three have arrived: the Agent active and armed, the Broker enforcing `p` with
      guards, redirects and a stored armed marker, forwarding admitted, and the Core
      serving the very groups, credentials and endpoints the Broker was given. */
  predicate BothArmed(rules: Rules, p: Policy, s: System) {
    && Convergence.Settles(s.x) && Armed(rules, p, s.node.e, s.node.w) && s.node.probe.forwarding
    && s.x.o.ingress.active.Some? && AgentServed(s.x.o, s.session)
  }

  predicate Poised(rules: Rules, p: Policy, s: System) {
    Ready(rules, p, s) && Matched(s)
  }

  /** One turn further: armed on both sides from rank 1, else poised at a lower rank. */
  predicate Advances(rules: Rules, p: Policy, s: System, next: System) {
    if Convergence.Rank(s.x) == 1 then BothArmed(rules, p, next)
    else Poised(rules, p, next) && 1 <= Convergence.Rank(next.x) < Convergence.Rank(s.x)
  }

  lemma TurnProgress(rules: Rules, p: Policy, s: System, env: Env)
    requires Poised(rules, p, s) && Fine(p, env)
    ensures Advances(rules, p, s, Turn(rules, p, s, env))
  {
    if s.x.o.phase.AwaitPrepare? { PreparedMatches(rules, p, s, env); }
    else if s.x.o.phase.AwaitIngress? { IngressMatches(rules, p, s, env); }
    else if s.x.o.phase.AwaitCommit? { CommitMatches(rules, p, s, env); }
    else { StopMatches(rules, p, s, env); }
    TurnAdvances(rules, p, s, env);
  }

  lemma TurnAdvances(rules: Rules, p: Policy, s: System, env: Env)
    requires Ready(rules, p, s) && Fine(p, env)
    ensures var next := Turn(rules, p, s, env);
            if Convergence.Rank(s.x) == 1 then
              Convergence.Settles(next.x) && Armed(rules, p, next.node.e, next.node.w) && next.node.probe.forwarding
            else Ready(rules, p, next) && 1 <= Convergence.Rank(next.x) < Convergence.Rank(s.x)
  {
    if s.x.o.phase.AwaitPrepare? { PreparedTurn(rules, p, s, env); }
    else if s.x.o.phase.AwaitIngress? { IngressTurn(rules, p, s, env); }
    else if s.x.o.phase.AwaitCommit? {
      AnswersAreHonest(rules, p, s, env);
      Convergence.CommitPair(rules, p, s.x, Answered(rules, s, env).0, env.draw);
    } else { StopTurn(rules, p, s, env); }
  }

  /** A run of exchanges: each state is the turn of the one before, in its surroundings. */
  predicate Exchanges(rules: Rules, p: Policy, states: seq<System>, envs: seq<Env>) {
    |states| == |envs| + 1 && forall j :: 0 <= j < |envs| ==> states[j + 1] == Turn(rules, p, states[j], envs[j])
  }

  /** States that each advance to the next reach both sides armed within the first rank. */
  lemma {:induction false} StatesArm(rules: Rules, p: Policy, states: seq<System>, k: nat) returns (n: nat)
    requires k < |states| && Poised(rules, p, states[k]) && k + Convergence.Rank(states[k].x) < |states|
    requires forall j :: k <= j < |states| - 1 && Poised(rules, p, states[j]) ==> Advances(rules, p, states[j], states[j + 1])
    ensures n <= k + Convergence.Rank(states[k].x) && n < |states| && BothArmed(rules, p, states[n])
    decreases Convergence.Rank(states[k].x)
  {
    if Convergence.Rank(states[k].x) == 1 { n := k + 1; } else { n := StatesArm(rules, p, states, k + 1); }
  }

  lemma ExchangesArm(rules: Rules, p: Policy, states: seq<System>, envs: seq<Env>) returns (n: nat)
    requires Exchanges(rules, p, states, envs) && forall i :: 0 <= i < |envs| ==> Fine(p, envs[i])
    requires Poised(rules, p, states[0]) && |envs| >= Convergence.Rank(states[0].x)
    ensures n <= Convergence.Rank(states[0].x) && n < |states| && BothArmed(rules, p, states[n])
  {
    forall j | 0 <= j < |states| - 1 && Poised(rules, p, states[j]) ensures Advances(rules, p, states[j], states[j + 1]) {
      TurnProgress(rules, p, states[j], envs[j]);
    }
    n := StatesArm(rules, p, states, 0);
  }

  lemma {:induction false} RunIsCurrent(rules: Rules, calls: seq<Runs.Call>)
    ensures Current(Runs.After(rules, calls).o.ingress)
  {
    if calls != [] {
      RunIsCurrent(rules, calls[..|calls| - 1]);
      PerformKeepsCurrent(rules, Runs.After(rules, calls[..|calls| - 1]).o, calls[|calls| - 1]);
    }
  }

  lemma RecoverMatches(rules: Rules, o: Agent.Orchestrator, p: Policy, draw: Ingress.Draw, node: Dispatcher.Node, session: Option<Core.Session>)
    requires Convergence.Live(rules, o, p) && Agent.Recover(rules, o, p, draw).1.Ok?
    requires o.phase.AwaitPrepare? ==> AgentServed(o, session)
    ensures var (o', r) := Agent.Recover(rules, o, p, draw); Matched(System(Convergence.Exchange(o', r.value), node, session))
  {
  }

  lemma RecoveryIsPoised(rules: Rules, calls: seq<Runs.Call>, p: Policy, node: Dispatcher.Node, session: Option<Core.Session>, draw: Ingress.Draw)
    requires Runs.AllPermitted(rules, calls) && Convergence.LeftLive(rules, Runs.After(rules, calls).o, p) && draw.fits
    requires Holds(rules, p, node.e, node.w) && Older(session, Runs.After(rules, calls).o.ingress.generation + 1)
    requires Runs.After(rules, calls).o.phase.AwaitPrepare? ==> AgentServed(Runs.After(rules, calls).o, session)
    ensures var (o, r) := Agent.Recover(rules, Runs.After(rules, calls).o, p, draw);
            r.Ok? && Poised(rules, p, System(Convergence.Exchange(o, r.value), node, session))
  {
    Convergence.RunLeavesLive(rules, calls, p);
    RecoveryIsReady(rules, calls, p, node, session, draw);
    RecoverMatches(rules, Runs.After(rules, calls).o, p, draw, node, session);
  }

  lemma RecoveryIsReady(rules: Rules, calls: seq<Runs.Call>, p: Policy, node: Dispatcher.Node, session: Option<Core.Session>, draw: Ingress.Draw)
    requires Runs.AllPermitted(rules, calls) && Convergence.LeftLive(rules, Runs.After(rules, calls).o, p) && draw.fits
    requires Holds(rules, p, node.e, node.w) && Older(session, Runs.After(rules, calls).o.ingress.generation + 1)
    ensures var (o, r) := Agent.Recover(rules, Runs.After(rules, calls).o, p, draw);
            r.Ok? && Ready(rules, p, System(Convergence.Exchange(o, r.value), node, session))
  {
    Convergence.RunLeavesLive(rules, calls, p);
    RunIsCurrent(rules, calls);
    Convergence.RecoverStarts(rules, p, Runs.After(rules, calls).o, draw);
    RecoverKeepsCurrent(rules, Runs.After(rules, calls).o, p, draw);
  }

  /** After any permitted run of the Agent that left `p` live and any run of the Broker
      that left it holding `p`, whatever the Core still serves from before: one recover
      and the components' own answers arm both sides within five exchanges. */
  lemma RecoveryArmsBothSides(rules: Rules, calls: seq<Runs.Call>, p: Policy, events: seq<BrokerRuns.Event>, draw: Ingress.Draw,
                              states: seq<System>, envs: seq<Env>) returns (n: nat)
    requires Runs.AllPermitted(rules, calls) && Convergence.LeftLive(rules, Runs.After(rules, calls).o, p) && draw.fits
    requires Exchanges(rules, p, states, envs) && |envs| >= 5 && forall i :: 0 <= i < |envs| ==> Fine(p, envs[i])
    requires var (o, r) := Agent.Recover(rules, Runs.After(rules, calls).o, p, draw);
             r.Ok? ==> states[0].x == Convergence.Exchange(o, r.value)
    requires var broker, node := BrokerRuns.Run(rules, events), states[0].node;
             node.e == broker.e && node.w == broker.w && Holds(rules, p, node.e, node.w)
    requires Older(states[0].session, Runs.After(rules, calls).o.ingress.generation + 1)
    requires Runs.After(rules, calls).o.phase.AwaitPrepare? ==> AgentServed(Runs.After(rules, calls).o, states[0].session)
    ensures Agent.Recover(rules, Runs.After(rules, calls).o, p, draw).1.Ok? && n <= 5 && BothArmed(rules, p, states[n])
  {
    RecoveryIsPoised(rules, calls, p, states[0].node, states[0].session, draw);
    n := ExchangesArm(rules, p, states, envs);
  }

  /** A restarted Broker that recovers without failure holds the stored policy, after any
      run that stored it and is not disabling it. */
  lemma RestartedBrokerHolds(rules: Rules, events: seq<BrokerRuns.Event>, answers: seq<Answer>)
    requires BrokerRuns.AllWork(answers, 8)
    requires var store := BrokerRuns.Run(rules, events).w.now.image.store; store.marker.Some? && store.marker.value.phase != Disabling
    ensures var broker := BrokerRuns.Run(rules, events);
            var r := Engine.Recover(rules, Engine.NEW_ENGINE, broker.w.(script := answers));
            Holds(rules, broker.w.now.image.store.marker.value.policy, r.s.e, r.s.w)
  {
    var broker := BrokerRuns.Run(rules, events);
    BrokerRuns.RunKeeps(rules, events);
    BrokerSafety.RecoverKeeps(rules, Engine.NEW_ENGINE, broker.w.(script := answers));
    BrokerRuns.RecoverConverges(rules, Engine.NEW_ENGINE, broker.w.(script := answers));
  }
}
