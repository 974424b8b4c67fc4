/** How the Core answers a strict ingress request, and why its order of target
    groups is the one the Agent and the Broker expect. */
module CoreSide {
  import opened Wrappers
  import opened StrictContract
  import opened TargetGroups
  import opened CoreIngress

  datatype CoreResult = CoreResult(generation: nat, udp: Option<Address>, entries: seq<BoundEntry>)

  datatype Session = Session(request: CoreAction, result: CoreResult)

  /** What the Core finds when it is asked: its control channel, configuration
      and run state, the proxy groups it knows and the endpoints it can bind. */
  datatype Surroundings = Surroundings(
    authenticated: bool,
    configured: bool,
    running: bool,
    isProxyGroup: Group -> bool,
    udp: Option<Address>,
    routesInstall: bool,
    tcp: Group -> Address)

  function GroupOf(c: Credential): Group { c.group }

  function Canonical(r: CoreAction): CoreAction {
    r.(entries := SortBy(GroupOf, r.entries))
  }

  predicate ShapeOk(r: CoreAction) {
    r.generation != 0 && |r.entries| <= MAX_STRICT_INGRESS_ENTRIES
  }

  /** The first sixteen bytes of a user name key the UDP credential. */
  function KeyId(username: string): string
    requires |username| == 64
  {
    LowerAscii(username[..32])
  }

  predicate EntriesBuild(rules: Rules, entries: seq<Credential>, at: Surroundings) {
    && (forall i :: 0 <= i < |entries| ==>
          && rules.groupOk(entries[i].group) && at.isProxyGroup(entries[i].group)
          && IsSha256(entries[i].username) && IsSha256(entries[i].password))
    && (forall i :: 0 < i < |entries| ==> entries[i - 1].group != entries[i].group)
    && (forall i, j :: 0 <= i < j < |entries| ==> KeyId(entries[i].username) != KeyId(entries[j].username))
  }

  function Bound(entries: seq<Credential>, at: Surroundings): (r: seq<BoundEntry>)
    ensures |r| == |entries|
  {
    seq(|entries|, i requires 0 <= i < |entries| => BoundEntry(entries[i].group, at.tcp(entries[i].group)))
  }

  /** One request against the active session. A listener that fails to bind
      tears the active session down; every earlier refusal leaves it alone. */
  function Configure(rules: Rules, active: Option<Session>, request: CoreAction, at: Surroundings): (Option<Session>, Result<CoreResult>) {
    if !at.authenticated || !ShapeOk(request) then (active, Err) else
    var request := Canonical(request);
    if request.entries == [] then (None, Ok(CoreResult(request.generation, None, []))) else
    if !at.configured || !at.running then (active, Err) else
    if active.Some? && active.value.request == request then (active, Ok(active.value.result)) else
    if active.Some? && request.generation <= active.value.request.generation then (active, Err) else
    var ordered := SortBy(GroupOf, request.entries);
    if !EntriesBuild(rules, ordered, at) || at.udp.None? || !IsLoopbackAddress(at.udp.value) || !at.routesInstall then (active, Err) else
    if exists i :: 0 <= i < |ordered| && !IsLoopbackAddress(at.tcp(ordered[i].group)) then (None, Err) else
    var result := CoreResult(request.generation, at.udp, Bound(ordered, at));
    (Some(Session(request, result)), Ok(result))
  }

  function AsResponse(r: CoreResult): CoreResponse {
    Reply(Some(r.generation), true, 0, STRICT_INGRESS_PROTOCOL, r.generation, r.udp, r.entries)
  }

  function EntryGroups(entries: seq<IngressEndpoint>): (r: seq<Group>)
    ensures |r| == |entries|
  {
    seq(|entries|, i requires 0 <= i < |entries| => entries[i].group)
  }

  // ----- Three-way agreement -------------------------------------------------

  lemma {:induction false} ProxyGroupsOk(rules: Rules, entries: seq<Entry>)
    requires forall i :: 0 <= i < |entries| ==> EntryOk(rules, entries[i])
    ensures |ProxyGroups(entries)| <= |entries|
    ensures forall i :: 0 <= i < |ProxyGroups(entries)| ==> rules.groupOk(ProxyGroups(entries)[i])
    ensures (exists i :: 0 <= i < |entries| && entries[i].action == Proxy) ==> ProxyGroups(entries) != []
  {
    if entries != [] {
      assert EntryOk(rules, entries[0]);
      ProxyGroupsOk(rules, entries[1..]);
      if i :| 0 <= i < |entries| && entries[i].action == Proxy {
        if i > 0 { assert entries[1..][i - 1].action == Proxy; }
      }
    }
  }

  lemma {:induction false} OrderedSetSize(s: seq<Group>)
    ensures |OrderedSet(s)| <= |s|
    ensures s != [] ==> OrderedSet(s) != []
    ensures forall g :: g in OrderedSet(s) ==> g in s
  {
    if s != [] {
      OrderedSetSize(s[1..]);
      SetInsertSize(OrderedSet(s[1..]), s[0]);
    }
  }

  lemma {:induction false} SetInsertSize(s: seq<Group>, g: Group)
    ensures |SetInsert(s, g)| <= |s| + 1 && SetInsert(s, g) != []
    ensures forall x :: x in SetInsert(s, g) ==> x in s || x == g
  {
    if s != [] { SetInsertSize(s[1..], g); }
  }

  /** Tokens a request can be built from: usable credentials with distinct keys. */
  predicate SoundDraw(draw: Draw, count: nat) {
    && draw.fits
    && (forall i :: 0 <= i < count ==> ValidCredential(draw.tokens(i).0) && ValidCredential(draw.tokens(i).1))
    && (forall i, j :: 0 <= i < j < count ==> KeyId(draw.tokens(i).0) != KeyId(draw.tokens(j).0))
  }

  /** A Core that is up, knows every group and binds distinct loopback endpoints. */
  predicate Healthy(at: Surroundings, groups: seq<Group>) {
    && at.authenticated && at.configured && at.running && at.routesInstall
    && at.udp.Some? && IsLoopbackAddress(at.udp.value)
    && (forall i :: 0 <= i < |groups| ==> at.isProxyGroup(groups[i]) && IsLoopbackAddress(at.tcp(groups[i])))
    && (forall i, j :: 0 <= i < j < |groups| ==> at.tcp(groups[i]) != at.tcp(groups[j]))
  }

  /** The Agent's request lists its groups in the order the Core sorts them into. */
  lemma CoreKeepsAgentOrder(action: CoreAction, groups: seq<Group>, tokens: nat -> (string, string))
    requires Ascending(groups) && action.entries == Drawn(groups, tokens)
    ensures Canonical(action) == action && SortBy(GroupOf, Canonical(action).entries) == action.entries
  {
    SortKeepsAscending(GroupOf, action.entries);
  }

  lemma DrawnEntriesBuild(rules: Rules, groups: seq<Group>, draw: Draw, at: Surroundings)
    requires Ascending(groups) && TargetsOk(rules, groups)
    requires SoundDraw(draw, |groups|) && Healthy(at, groups)
    ensures EntriesBuild(rules, Drawn(groups, draw.tokens), at)
  {
    forall i | 0 < i < |groups| ensures groups[i - 1] != groups[i] {
      assert Below(groups[i - 1], groups[i]);
      BelowIrreflexive(groups[i]);
    }
  }

  /** A sorted request that passes every check is answered in its own order. */
  lemma CoreAnswers(rules: Rules, active: Option<Session>, action: CoreAction, at: Surroundings)
    requires Canonical(action) == action && SortBy(GroupOf, action.entries) == action.entries
    requires action.entries != [] && ShapeOk(action) && EntriesBuild(rules, action.entries, at)
    requires at.authenticated && at.configured && at.running && at.routesInstall
    requires at.udp.Some? && IsLoopbackAddress(at.udp.value)
    requires forall i :: 0 <= i < |action.entries| ==> IsLoopbackAddress(at.tcp(action.entries[i].group))
    requires active.Some? ==> active.value.request.generation < action.generation
    ensures var result := CoreResult(action.generation, at.udp, Bound(action.entries, at));
            Configure(rules, active, action, at) == (Some(Session(action, result)), Ok(result))
  {
  }

  /** The entries name exactly what the session serves: its groups in their order, the
      user name and password of its request, and the endpoints it bound. */
  predicate ServedBy(entries: seq<IngressEndpoint>, s: Session) {
    && |entries| == |s.request.entries| == |s.result.entries|
    && forall i :: 0 <= i < |entries| ==>
         && entries[i].group == s.request.entries[i].group == s.result.entries[i].group
         && entries[i].username == s.request.entries[i].username && entries[i].password == s.request.entries[i].password
         && s.result.entries[i].address == V4(entries[i].endpoint)
  }

  /** The Agent accepts the answer and builds a valid set out of it. */
  lemma AgentAccepts(rules: Rules, c: Coordinator, groups: seq<Group>, draw: Draw, at: Surroundings)
    requires Ascending(groups) && TargetsOk(rules, groups) && groups != []
    requires SoundDraw(draw, |groups|) && Healthy(at, groups)
    requires c.pending.Some? && c.pending.value.entries == Drawn(groups, draw.tokens) && c.pending.value.generation != 0
    ensures var action := c.pending.value;
            var done := Complete(c, AsResponse(CoreResult(action.generation, at.udp, Bound(action.entries, at))));
            && done.1.Ok? && done.1.value.Some?
            && var ingress := BrokerIngressSet(rules, done.1.value.value);
            && ingress.Ok? && EntryGroups(ingress.value.entries) == groups
            && ServedBy(ingress.value.entries, Session(action, CoreResult(action.generation, at.udp, Bound(action.entries, at))))
  {
    var action := c.pending.value;
    var response := AsResponse(CoreResult(action.generation, at.udp, Bound(action.entries, at)));
    assert EntriesMatch(action.entries, response.entries);
    var d := Complete(c, response).1.value.value;
    assert forall i :: 0 <= i < |d.entries| ==> d.entries[i].group == groups[i] && ValidIngressEntry(rules, d.entries[i]);
    assert ValidIngressSet(rules, IngressSet(STRICT_INGRESS_PROTOCOL, d.generation, Some(d.udp), d.entries));
  }

  /** The whole exchange for one ascending list of groups ends in a valid set listing
      them, with the credentials and endpoints the Core's session serves. */
  predicate ExchangeYields(rules: Rules, c: Coordinator, draw: Draw, active: Option<Session>, at: Surroundings, groups: seq<Group>) {
    var begun := Begin(rules, c, groups, draw);
    && begun.1.Ok? && begun.1.value.Request?
    && var answer := Configure(rules, active, begun.1.value.action, at);
    && answer.1.Ok?
    && var done := Complete(begun.0, AsResponse(answer.1.value));
    && done.1.Ok? && done.1.value.Some?
    && var ingress := BrokerIngressSet(rules, done.1.value.value);
    && ingress.Ok? && EntryGroups(ingress.value.entries) == groups
    && answer.0.Some? && ServedBy(ingress.value.entries, answer.0.value)
  }

  lemma ExchangeSucceeds(rules: Rules, c: Coordinator, draw: Draw, active: Option<Session>, at: Surroundings, groups: seq<Group>)
    requires Ascending(groups) && SortedDistinct(groups) == groups && groups != [] && TargetsOk(rules, groups)
    requires c.pending.None? && c.active.None? && c.generation < U64_MAX
    requires SoundDraw(draw, |groups|) && Healthy(at, groups)
    requires active.Some? ==> active.value.request.generation <= c.generation
    ensures ExchangeYields(rules, c, draw, active, at, groups)
  {
    var begun := Begin(rules, c, groups, draw);
    assert ActiveGroups(c) == [];
    var action := CoreAction(c.generation + 1, Drawn(groups, draw.tokens));
    assert begun == (Coordinator(c.generation + 1, Some(action), c.active), Ok(Request(action)));
    CoreKeepsAgentOrder(action, groups, draw.tokens);
    DrawnEntriesBuild(rules, groups, draw, at);
    CoreAnswers(rules, active, action, at);
    AgentAccepts(rules, begun.0, groups, draw, at);
  }

  /** For every valid proxy policy, the Agent requests its groups, a healthy Core
      binds them, the Agent accepts the answer, and the resulting set is valid
      and lists exactly the Broker's ordered set. */
  lemma GroupsAgree(rules: Rules, policy: Policy, c: Coordinator, draw: Draw, active: Option<Session>, at: Surroundings)
    requires ValidPolicy(rules, policy) && HasProxyEntries(policy)
    requires c.pending.None? && c.active.None? && c.generation < U64_MAX
    requires var groups := OrderedSet(ProxyGroups(policy.entries)); SoundDraw(draw, |groups|) && Healthy(at, groups)
    requires active.Some? ==> active.value.request.generation <= c.generation
    ensures ExchangeYields(rules, c, draw, active, at, OrderedSet(ProxyGroups(policy.entries)))
  {
    var named := ProxyGroups(policy.entries);
    PolicyGroups(rules, policy);
    OrderedSetAscends(named);
    AgentAndBrokerAgree(named);
    ExchangeSucceeds(rules, c, draw, active, at, OrderedSet(named));
  }

  lemma PolicyGroups(rules: Rules, policy: Policy)
    requires ValidPolicy(rules, policy)
    ensures TargetsOk(rules, OrderedSet(ProxyGroups(policy.entries)))
    ensures HasProxyEntries(policy) ==> OrderedSet(ProxyGroups(policy.entries)) != []
  {
    ProxyGroupsOk(rules, policy.entries);
    OrderedSetSize(ProxyGroups(policy.entries));
    var named, groups := ProxyGroups(policy.entries), OrderedSet(ProxyGroups(policy.entries));
    forall i | 0 <= i < |groups| ensures rules.groupOk(groups[i]) {
      assert groups[i] in named;
    }
  }

  // ----- Answers to other requests -------------------------------------------

  /** A session's answer lists the groups of its request, each with an endpoint. */
  predicate SessionOk(s: Session) {
    && s.request.entries != []
    && s.result.generation == s.request.generation
    && s.result.udp.Some? && IsLoopbackAddress(s.result.udp.value)
    && |s.result.entries| == |s.request.entries|
    && forall i :: 0 <= i < |s.result.entries| ==>
         s.result.entries[i].group == s.request.entries[i].group && IsLoopbackAddress(s.result.entries[i].address)
  }

  predicate SameGroups(served: seq<Credential>, asked: seq<Credential>) {
    |served| == |asked| && forall i :: 0 <= i < |served| ==> served[i].group == asked[i].group
  }

  predicate Distinct(entries: seq<BoundEntry>) {
    forall i, j :: 0 <= i < j < |entries| ==> entries[i].address != entries[j].address
  }

  /** The order the Core builds in is the order it stored. */
  lemma OrderIsStored(request: CoreAction)
    ensures SortBy(GroupOf, Canonical(request).entries) == Canonical(request).entries
  {
    SortBySorts(GroupOf, request.entries);
    SortKeepsSorted(GroupOf, Canonical(request).entries);
  }

  /** Whatever it is asked, the Core answers with the session it then serves, or with
      nothing served at all. */
  lemma AnswersAreServed(rules: Rules, active: Option<Session>, request: CoreAction, at: Surroundings)
    requires active.Some? ==> SessionOk(active.value)
    ensures var (session, answer) := Configure(rules, active, request, at);
            && (session.Some? ==> SessionOk(session.value))
            && (answer.Ok? ==> if session.Some? then answer.value == session.value.result else answer.value.entries == [])
  {
    if Fresh(active, request, at) {
      NewRequestExactly(rules, active, request, at);
      assert |SortBy(GroupOf, request.entries)| == |request.entries|;
    } else {
      EarlyAnswersExactly(rules, active, request, at);
    }
  }

  lemma SessionAccepted(c: Coordinator, s: Session)
    requires SessionOk(s) && c.pending.Some? && c.pending.value.entries != []
    ensures var (c', accepted) := Complete(c, AsResponse(s.result));
            && (accepted.Ok? <==>
                  && s.request.generation == c.pending.value.generation
                  && SameGroups(s.request.entries, c.pending.value.entries) && Distinct(s.result.entries))
            && (accepted.Ok? ==> Holds(accepted.value, c.pending.value.entries, s.result.entries))
            && (accepted.Err? ==> c' == c.(pending := None))
  {
  }

  /** The descriptor lists the groups that were bound at their endpoints, each with the
      credentials that were asked for. */
  predicate Holds(d: Option<Descriptor>, asked: seq<Credential>, bound: seq<BoundEntry>) {
    && d.Some? && |d.value.entries| == |asked| == |bound|
    && forall i :: 0 <= i < |bound| ==>
         && bound[i] == BoundEntry(d.value.entries[i].group, V4(d.value.entries[i].endpoint))
         && asked[i] == Credential(d.value.entries[i].group, d.value.entries[i].username, d.value.entries[i].password)
  }

  /** If the request served is the one the Agent waits for, it accepts what is served. */
  lemma AcceptedIsServed(c: Coordinator, s: Session)
    requires SessionOk(s) && c.pending == Some(s.request) && Complete(c, AsResponse(s.result)).1.Ok?
    ensures var d := Complete(c, AsResponse(s.result)).0.active;
            d.Some? && Complete(c, AsResponse(s.result)).1.value == d && ServedBy(d.value.entries, s)
  {
    SessionAccepted(c, s);
  }

  /** Whatever request the Core's answer was for, the Agent accepts it exactly when the
      Core now serves, for the pending generation, the pending groups in their order on
      distinct endpoints; it then holds those endpoints. Otherwise only the pending
      request is dropped. */
  lemma AcceptedExactlyWhenServed(rules: Rules, c: Coordinator, active: Option<Session>, request: CoreAction, at: Surroundings)
    requires active.Some? ==> SessionOk(active.value)
    requires c.pending.Some? && c.pending.value.entries != []
    requires Configure(rules, active, request, at).1.Ok?
    ensures var (session, answer) := Configure(rules, active, request, at);
            var (c', accepted) := Complete(c, AsResponse(answer.value));
            && (session.Some? ==> SessionOk(session.value))
            && (accepted.Ok? <==>
                  && session.Some? && session.value.request.generation == c.pending.value.generation
                  && SameGroups(session.value.request.entries, c.pending.value.entries)
                  && Distinct(session.value.result.entries))
            && (accepted.Ok? ==> Holds(accepted.value, c.pending.value.entries, session.value.result.entries))
            && (accepted.Err? ==> c' == c.(pending := None))
  {
    AnswersAreServed(rules, active, request, at);
    var session := Configure(rules, active, request, at).0;
    if session.Some? { SessionAccepted(c, session.value); }
  }

  // ----- Every answer --------------------------------------------------------

  /** The listed requests could be served: known groups, one entry per group once sorted,
      credentials that tell apart, and somewhere to put the UDP service and its routes. */
  predicate Servable(rules: Rules, entries: seq<Credential>, at: Surroundings) {
    && (forall i :: 0 <= i < |entries| ==>
          && rules.groupOk(entries[i].group) && at.isProxyGroup(entries[i].group)
          && IsSha256(entries[i].username) && IsSha256(entries[i].password))
    && (forall i :: 0 < i < |entries| ==> entries[i].group != entries[i - 1].group)
    && (forall i, j :: 0 <= i < j < |entries| ==>
          LowerAscii(entries[i].username[..32]) != LowerAscii(entries[j].username[..32]))
    && at.udp.Some? && IsLoopbackAddress(at.udp.value) && at.routesInstall
  }

  /** Without an authenticated channel, a generation, or with too many entries nothing is
      done. An empty request takes everything down. Otherwise the Core must be configured
      and running; the same request again gets the same answer; an older one, or one that
      cannot be served, is refused and leaves what is served; and a new one is served with
      one endpoint per group, unless a listener finds none, which takes everything down. */
  lemma ConfigureExactly(rules: Rules, active: Option<Session>, request: CoreAction, at: Surroundings)
    ensures var (left, answer) := Configure(rules, active, request, at);
            var entries := SortBy(GroupOf, request.entries);
            var sorted := CoreAction(request.generation, entries);
            if !at.authenticated || request.generation == 0 || |request.entries| > 128 then left == active && answer.Err?
            else if request.entries == [] then left == None && answer == Ok(CoreResult(request.generation, None, []))
            else if !at.configured || !at.running then left == active && answer.Err?
            else if active.Some? && active.value.request == sorted then left == active && answer == Ok(active.value.result)
            else if active.Some? && request.generation <= active.value.request.generation then left == active && answer.Err?
            else if !Servable(rules, entries, at) then left == active && answer.Err?
            else if exists i :: 0 <= i < |entries| && !IsLoopbackAddress(at.tcp(entries[i].group)) then left == None && answer.Err?
            else
              && answer.Ok? && answer.value.generation == request.generation && answer.value.udp == at.udp
              && |answer.value.entries| == |entries|
              && (forall i :: 0 <= i < |entries| ==>
                    answer.value.entries[i] == BoundEntry(entries[i].group, at.tcp(entries[i].group)))
              && left == Some(Session(sorted, answer.value))
  {
    if Fresh(active, request, at) { NewRequestExactly(rules, active, request, at); } else { EarlyAnswersExactly(rules, active, request, at); }
  }

  /** A request the Core has to try and serve. */
  predicate Fresh(active: Option<Session>, request: CoreAction, at: Surroundings) {
    && at.authenticated && ShapeOk(request) && request.entries != [] && at.configured && at.running
    && (active.Some? ==> active.value.request != Canonical(request) && request.generation > active.value.request.generation)
  }

  lemma EarlyAnswersExactly(rules: Rules, active: Option<Session>, request: CoreAction, at: Surroundings)
    requires !Fresh(active, request, at)
    ensures var (left, answer) := Configure(rules, active, request, at);
            var sorted := CoreAction(request.generation, SortBy(GroupOf, request.entries));
            if !at.authenticated || request.generation == 0 || |request.entries| > 128 then left == active && answer.Err?
            else if request.entries == [] then left == None && answer == Ok(CoreResult(request.generation, None, []))
            else if !at.configured || !at.running then left == active && answer.Err?
            else if active.Some? && active.value.request == sorted then left == active && answer == Ok(active.value.result)
            else active.Some? && request.generation <= active.value.request.generation && left == active && answer.Err?
  {
    assert |SortBy(GroupOf, request.entries)| == |request.entries|;
  }

  lemma NewRequestExactly(rules: Rules, active: Option<Session>, request: CoreAction, at: Surroundings)
    requires Fresh(active, request, at)
    ensures var (left, answer) := Configure(rules, active, request, at);
            var entries := SortBy(GroupOf, request.entries);
            if !Servable(rules, entries, at) then left == active && answer.Err?
            else if exists i :: 0 <= i < |entries| && !IsLoopbackAddress(at.tcp(entries[i].group)) then left == None && answer.Err?
            else
              && answer == Ok(CoreResult(request.generation, at.udp, Bound(entries, at)))
              && left == Some(Session(CoreAction(request.generation, entries), answer.value))
  {
    OrderIsStored(request);
    var entries := SortBy(GroupOf, request.entries);
    BuildsIsServable(rules, entries, at);
    if !Servable(rules, entries, at) {
      assert Configure(rules, active, request, at) == (active, Err);
    } else if i :| 0 <= i < |entries| && !IsLoopbackAddress(at.tcp(entries[i].group)) {
      assert Configure(rules, active, request, at) == (None, Err);
    } else {
      var result := CoreResult(request.generation, at.udp, Bound(entries, at));
      assert Configure(rules, active, request, at) == (Some(Session(CoreAction(request.generation, entries), result)), Ok(result));
    }
  }

  lemma BuildsIsServable(rules: Rules, entries: seq<Credential>, at: Surroundings)
    ensures EntriesBuild(rules, entries, at) && at.udp.Some? && IsLoopbackAddress(at.udp.value) && at.routesInstall <==>
              Servable(rules, entries, at)
  {
  }
}
