/** The Agent's ingress coordinator: one generation of Core credentials at a
    time, requested, correlated and turned into the set the Broker receives. */
module CoreIngress {
  import opened Wrappers
  import opened StrictContract
  import opened TargetGroups

  const STRICT_INGRESS_PROTOCOL: nat := 2
  const MAX_STRICT_INGRESS_ENTRIES: nat := 128
  const LOOPBACK: nat := 0x7F00_0001

  datatype Endpoint = Endpoint(ip: nat, port: nat)

  /** An endpoint as text from the Core, once parsed. */
  datatype Address = Unparsable | V6 | V4(endpoint: Endpoint)

  predicate IsLoopback(e: Endpoint) {
    e.ip == LOOPBACK && e.port != 0
  }

  predicate IsLoopbackAddress(a: Address) {
    a.V4? && IsLoopback(a.endpoint)
  }

  datatype Credential = Credential(group: Group, username: string, password: string)

  /** A `configureStrictIngress` action; its identifier is derived from the generation. */
  datatype CoreAction = CoreAction(generation: nat, entries: seq<Credential>)

  datatype BoundEntry = BoundEntry(group: Group, address: Address)

  /** A Core response line. `Garbled` stands for anything that is not a
      well-formed response: wrong size, wrong JSON, unknown fields. */
  datatype CoreResponse =
    | Garbled
    | Reply(generationOfId: Option<nat>, rightMethod: bool, code: int,
            protocol: nat, generation: nat, udp: Option<Address>, entries: seq<BoundEntry>)

  datatype IngressEndpoint = IngressEndpoint(group: Group, endpoint: Endpoint, username: string, password: string)

  datatype Descriptor = Descriptor(generation: nat, udp: Endpoint, entries: seq<IngressEndpoint>)

  datatype Coordinator = Coordinator(generation: nat, pending: Option<CoreAction>, active: Option<Descriptor>)

  const NEW_COORDINATOR: Coordinator := Coordinator(0, None, None)

  datatype Change = Unchanged | Request(action: CoreAction)

  /** Random tokens, and whether the encoded line stays within the message bound. */
  datatype Draw = Draw(tokens: nat -> (string, string), fits: bool)

  function ActiveGroups(c: Coordinator): seq<Group> {
    if c.active.None? then [] else seq(|c.active.value.entries|, i requires 0 <= i < |c.active.value.entries| => c.active.value.entries[i].group)
  }

  predicate TargetsOk(rules: Rules, targets: seq<Group>) {
    |targets| <= MAX_STRICT_INGRESS_ENTRIES && forall i :: 0 <= i < |targets| ==> rules.groupOk(targets[i])
  }

  function Drawn(groups: seq<Group>, tokens: nat -> (string, string)): (r: seq<Credential>)
    ensures |r| == |groups|
  {
    seq(|groups|, i requires 0 <= i < |groups| => Credential(groups[i], tokens(i).0, tokens(i).1))
  }

  function Begin(rules: Rules, c: Coordinator, targets: seq<Group>, draw: Draw): (Coordinator, Result<Change>) {
    if c.pending.Some? || !TargetsOk(rules, targets) then (c, Err) else
    var groups := SortedDistinct(targets);
    if ActiveGroups(c) == groups then (c, Ok(Unchanged)) else
    if c.generation >= U64_MAX || !draw.fits then (c, Err) else
    var action := CoreAction(c.generation + 1, Drawn(groups, draw.tokens));
    (Coordinator(c.generation + 1, Some(action), c.active), Ok(Request(action)))
  }

  /** An explicit empty generation, whatever the local state looks like. The old
      pending transition is dropped even when no new one can be emitted. */
  function ForceRevoke(c: Coordinator, draw: Draw): (Coordinator, Result<CoreAction>) {
    if c.generation >= U64_MAX || !draw.fits then (c.(pending := None), Err) else
    var action := CoreAction(c.generation + 1, []);
    (c.(generation := c.generation + 1, pending := Some(action)), Ok(action))
  }

  /** A transition is refused while one is pending or for a bad target list, not needed if
      the groups are served already, and otherwise asks for the sorted distinct groups
      with fresh tokens under the next generation, while there is one. */
  lemma TransitionExactly(rules: Rules, c: Coordinator, targets: seq<Group>, draw: Draw)
    ensures var (c', r) := Begin(rules, c, targets, draw);
            var fits := c.pending.None? && |targets| <= 128 && forall i :: 0 <= i < |targets| ==> rules.groupOk(targets[i]);
            var served := ActiveGroups(c) == SortedDistinct(targets);
            var request := CoreAction(c.generation + 1, Drawn(SortedDistinct(targets), draw.tokens));
            && (r == Ok(Unchanged) <==> fits && served)
            && (r == Ok(Request(request)) <==> fits && !served && c.generation < U64_MAX && draw.fits)
            && (r.Ok? && r.value.Request? ==> r.value.action == request)
            && c' == if r.Ok? && r.value.Request? then Coordinator(c.generation + 1, Some(request), c.active) else c
  {
  }

  /** A revoke asks for nothing under the next generation, while there is one; what was
      pending is dropped in any case. */
  lemma RevokeExactly(c: Coordinator, draw: Draw)
    ensures var (c', r) := ForceRevoke(c, draw);
            var request := CoreAction(c.generation + 1, []);
            && (r.Ok? <==> c.generation < U64_MAX && draw.fits)
            && (r.Ok? ==> r.value == request && c' == Coordinator(c.generation + 1, Some(request), c.active))
            && (r.Err? ==> c' == Coordinator(c.generation, None, c.active))
  {
  }

  predicate Correlates(pending: CoreAction, r: CoreResponse) {
    && r.Reply?
    && r.generationOfId == Some(pending.generation) && r.rightMethod && r.code == 0
    && r.protocol == STRICT_INGRESS_PROTOCOL
    && r.generation == pending.generation
    && |r.entries| == |pending.entries|
    && (if pending.entries == [] then r.udp.None? else r.udp.Some? && IsLoopbackAddress(r.udp.value))
  }

  /** Each expected group in order, each on its own loopback endpoint. */
  predicate EntriesMatch(expected: seq<Credential>, actual: seq<BoundEntry>)
    requires |expected| == |actual|
  {
    && (forall i :: 0 <= i < |expected| ==> actual[i].group == expected[i].group && IsLoopbackAddress(actual[i].address))
    && (forall i, j :: 0 <= i < j < |actual| ==> actual[i].address != actual[j].address)
  }

  function Committed(expected: seq<Credential>, actual: seq<BoundEntry>): (r: seq<IngressEndpoint>)
    requires |expected| == |actual| && forall i :: 0 <= i < |actual| ==> actual[i].address.V4?
    ensures |r| == |expected|
  {
    seq(|expected|, i requires 0 <= i < |expected| =>
      IngressEndpoint(expected[i].group, actual[i].address.endpoint, expected[i].username, expected[i].password))
  }

  /** The pending transition is consumed whether or not the response is accepted. */
  function Complete(c: Coordinator, r: CoreResponse): (Coordinator, Result<Option<Descriptor>>) {
    if c.pending.None? then (c, Err) else
    var pending := c.pending.value;
    var c := c.(pending := None);
    if !Correlates(pending, r) || !EntriesMatch(pending.entries, r.entries) then (c, Err) else
    var active := if pending.entries == [] then None
                  else Some(Descriptor(pending.generation, r.udp.value.endpoint, Committed(pending.entries, r.entries)));
    (c.(active := active), Ok(active))
  }

  /** An answer is accepted exactly if it is a well-formed success of this very request -
      identifier, method, code, protocol and generation - that binds each group asked for,
      in order, to its own loopback endpoint, with a UDP endpoint if and only if there are
      groups. Accepted or not, nothing is pending afterwards. */
  lemma AnswersExactly(c: Coordinator, r: CoreResponse)
    ensures var (c', done) := Complete(c, r);
            && (done.Ok? <==>
                  && c.pending.Some? && r.Reply?
                  && var asked := c.pending.value;
                  && r.generationOfId == Some(asked.generation) && r.rightMethod && r.code == 0 && r.protocol == 2
                  && r.generation == asked.generation && |r.entries| == |asked.entries|
                  && (if |asked.entries| == 0 then r.udp == None else r.udp.Some? && IsLoopbackAddress(r.udp.value))
                  && (forall i :: 0 <= i < |asked.entries| ==>
                        r.entries[i].group == asked.entries[i].group && IsLoopbackAddress(r.entries[i].address))
                  && (forall i, j :: 0 <= i < j < |r.entries| ==> r.entries[i].address != r.entries[j].address))
            && (done.Err? ==> c' == Coordinator(c.generation, None, c.active))
            && (done.Ok? && c.pending.value.entries == [] ==> done.value == None && c' == Coordinator(c.generation, None, None))
  {
  }

  /** An accepted descriptor holds, entry by entry, the group and the credentials that
      were asked for and the endpoint that was answered, under the generation asked for. */
  lemma AcceptedHoldsWhatWasAsked(c: Coordinator, r: CoreResponse, i: nat)
    requires c.pending.Some? && Complete(c, r).1.Ok? && i < |c.pending.value.entries|
    ensures var d := Complete(c, r).1.value;
            var asked, answered := c.pending.value.entries[i], r.entries[i];
            && d.Some? && Complete(c, r).0 == Coordinator(c.generation, None, d)
            && d.value.generation == c.pending.value.generation && |d.value.entries| == |c.pending.value.entries|
            && r.udp == Some(V4(d.value.udp))
            && d.value.entries[i].group == asked.group == answered.group
            && d.value.entries[i].username == asked.username && d.value.entries[i].password == asked.password
            && answered.address == V4(d.value.entries[i].endpoint)
  {
  }

  function AbortPending(c: Coordinator): Coordinator {
    c.(pending := None)
  }

  function LoseCore(c: Coordinator): Coordinator {
    c.(pending := None, active := None)
  }

  /** After an abort what is served counts as before; after the Core is lost nothing does, so
      the same groups are asked for again. Neither takes back a generation. */
  lemma AbortedAndLost(rules: Rules, c: Coordinator, targets: seq<Group>, draw: Draw)
    requires TargetsOk(rules, targets) && c.generation < U64_MAX && draw.fits
    ensures Begin(rules, AbortPending(c), targets, draw).1.Ok? && Begin(rules, LoseCore(c), targets, draw).1.Ok?
    ensures Begin(rules, AbortPending(c), targets, draw).1.value.Unchanged? <==> SortedDistinct(targets) == ActiveGroups(c)
    ensures Begin(rules, LoseCore(c), targets, draw).1.value.Unchanged? <==> SortedDistinct(targets) == []
    ensures AbortPending(c).active == c.active && LoseCore(c).active == None
    ensures AbortPending(c).generation == LoseCore(c).generation == c.generation
  {
  }

  // ----- Late answers --------------------------------------------------------

  datatype Call =
    | DoBegin(targets: seq<Group>, draw: Draw)
    | DoRevoke(draw: Draw)
    | DoComplete(response: CoreResponse)
    | DoAbort
    | DoLoseCore

  function Act(rules: Rules, c: Coordinator, call: Call): Coordinator {
    match call
    case DoBegin(targets, draw) => Begin(rules, c, targets, draw).0
    case DoRevoke(draw) => ForceRevoke(c, draw).0
    case DoComplete(response) => Complete(c, response).0
    case DoAbort => AbortPending(c)
    case DoLoseCore => LoseCore(c)
  }

  function ActAll(rules: Rules, c: Coordinator, calls: seq<Call>): Coordinator
    decreases |calls|
  {
    if calls == [] then c else ActAll(rules, Act(rules, c, calls[0]), calls[1..])
  }

  /** Once the request of a generation is no longer pending, for whatever reason, no
      later call makes the coordinator accept an answer of that generation. */
  lemma {:induction false} LateAnswersAreRefused(rules: Rules, c: Coordinator, calls: seq<Call>, late: CoreResponse)
    requires late.Reply? && late.generation <= c.generation
    requires c.pending.Some? ==> c.pending.value.generation > late.generation
    ensures Complete(ActAll(rules, c, calls), late).1.Err?
    decreases |calls|
  {
    if calls != [] { LateAnswersAreRefused(rules, Act(rules, c, calls[0]), calls[1..], late); }
  }

  // ----- What the Broker receives --------------------------------------------

  datatype IngressSet = IngressSet(protocol: nat, generation: nat, udp: Option<Endpoint>, entries: seq<IngressEndpoint>)

  predicate ValidIngressEntry(rules: Rules, e: IngressEndpoint) {
    rules.groupOk(e.group) && IsLoopback(e.endpoint) && ValidCredential(e.username) && ValidCredential(e.password)
  }

  predicate ValidIngressSet(rules: Rules, s: IngressSet) {
    && s.protocol == STRICT_INGRESS_PROTOCOL
    && (if s.entries == [] then s.generation == 0 && s.udp.None? else
          && s.generation != 0 && |s.entries| <= MAX_STRICT_INGRESS_ENTRIES
          && s.udp.Some? && IsLoopback(s.udp.value)
          && (forall i :: 0 <= i < |s.entries| ==> ValidIngressEntry(rules, s.entries[i]))
          && (forall i :: 0 < i < |s.entries| ==> Below(s.entries[i - 1].group, s.entries[i].group))
          && (forall i, j :: 0 <= i < j < |s.entries| ==> s.entries[i].endpoint != s.entries[j].endpoint))
  }

  function BrokerIngressSet(rules: Rules, d: Descriptor): (r: Result<IngressSet>)
    ensures r.Ok? <==>
              && d.entries != [] && |d.entries| <= MAX_STRICT_INGRESS_ENTRIES && d.generation != 0 && IsLoopback(d.udp)
              && (forall i :: 0 <= i < |d.entries| ==> ValidIngressEntry(rules, d.entries[i]))
              && (forall i :: 0 < i < |d.entries| ==> Below(d.entries[i - 1].group, d.entries[i].group))
              && (forall i, j :: 0 <= i < j < |d.entries| ==> d.entries[i].endpoint != d.entries[j].endpoint)
    ensures r.Ok? ==> ValidIngressSet(rules, r.value) && r.value == IngressSet(STRICT_INGRESS_PROTOCOL, d.generation, Some(d.udp), d.entries)
  {
    var s := IngressSet(STRICT_INGRESS_PROTOCOL, d.generation, Some(d.udp), d.entries);
    if (forall i :: 0 <= i < |d.entries| ==> ValidIngressEntry(rules, d.entries[i])) && ValidIngressSet(rules, s)
    then Ok(s) else Err
  }

  /** Copies the targets while checking each one and the bound on their number. */
  method CollectTargets(rules: Rules, targets: seq<Group>) returns (r: Result<seq<Group>>)
    ensures r == if TargetsOk(rules, targets) then Ok(targets) else Err
  {
    var groups: seq<Group> := [];
    for k := 0 to |targets|
      invariant |groups| <= MAX_STRICT_INGRESS_ENTRIES
      invariant groups == targets[..k]
      invariant forall i :: 0 <= i < k ==> rules.groupOk(targets[i])
    {
      if |groups| == MAX_STRICT_INGRESS_ENTRIES { return Err; }
      if !rules.groupOk(targets[k]) { return Err; }
      groups := groups + [targets[k]];
    }
    assert groups == targets;
    return Ok(groups);
  }

  method DrawEntries(groups: seq<Group>, tokens: nat -> (string, string)) returns (entries: seq<Credential>)
    ensures entries == Drawn(groups, tokens)
  {
    entries := [];
    for k := 0 to |groups|
      invariant entries == Drawn(groups, tokens)[..k]
    {
      entries := entries + [Credential(groups[k], tokens(k).0, tokens(k).1)];
    }
  }

  // ----- The coordinator object ----------------------------------------------

  class StrictIngressCoordinator {
    var generation: nat
    var pending: Option<CoreAction>
    var active: Option<Descriptor>

    function View(): Coordinator
      reads this
    {
      Coordinator(generation, pending, active)
    }

    constructor ()
      ensures View() == NEW_COORDINATOR
    {
      generation, pending, active := 0, None, None;
    }

    method BeginTransition(rules: Rules, targets: seq<Group>, draw: Draw) returns (r: Result<Change>)
      modifies this
      ensures (View(), r) == Begin(rules, old(View()), targets, draw)
    {
      if pending.Some? { return Err; }
      var collected := CollectTargets(rules, targets);
      if collected.Err? { return Err; }
      var groups := SortedDistinct(collected.value);
      if ActiveGroups(View()) == groups { return Ok(Unchanged); }
      if generation >= U64_MAX { return Err; }
      var next := generation + 1;
      var entries := DrawEntries(groups, draw.tokens);
      if !draw.fits { return Err; }
      generation := next;
      pending := Some(CoreAction(next, entries));
      return Ok(Request(CoreAction(next, entries)));
    }

    method Revoke(draw: Draw) returns (r: Result<CoreAction>)
      modifies this
      ensures (View(), r) == ForceRevoke(old(View()), draw)
    {
      pending := None;
      if generation >= U64_MAX { return Err; }
      var next := generation + 1;
      if !draw.fits { return Err; }
      generation := next;
      pending := Some(CoreAction(next, []));
      return Ok(CoreAction(next, []));
    }

    method Abort()
      modifies this
      ensures View() == AbortPending(old(View()))
    {
      pending := None;
    }

    method CoreLost()
      modifies this
      ensures View() == LoseCore(old(View()))
    {
      pending := None;
      active := None;
    }

    method Accept(response: CoreResponse) returns (r: Result<Option<Descriptor>>)
      modifies this
      ensures (View(), r) == Complete(old(View()), response)
    {
      if pending.None? { return Err; }
      var expected := pending.value;
      pending := None;
      if !Correlates(expected, response) { return Err; }
      var seen: set<Address> := {};
      var committed := [];
      for k := 0 to |expected.entries|
        invariant |committed| == k
        invariant forall i :: 0 <= i < k ==>
                    && response.entries[i].group == expected.entries[i].group
                    && IsLoopbackAddress(response.entries[i].address)
                    && committed[i] == IngressEndpoint(expected.entries[i].group, response.entries[i].address.endpoint,
                                                       expected.entries[i].username, expected.entries[i].password)
        invariant forall i, j :: 0 <= i < j < k ==> response.entries[i].address != response.entries[j].address
        invariant seen == set i | 0 <= i < k :: response.entries[i].address
      {
        var bound := response.entries[k];
        if bound.group != expected.entries[k].group { return Err; }
        if !IsLoopbackAddress(bound.address) { return Err; }
        if bound.address in seen { return Err; }
        seen := seen + {bound.address};
        committed := committed + [IngressEndpoint(expected.entries[k].group, bound.address.endpoint,
                                                  expected.entries[k].username, expected.entries[k].password)];
      }
      assert EntriesMatch(expected.entries, response.entries);
      assert committed == Committed(expected.entries, response.entries);
      if committed == [] {
        active := None;
      } else {
        active := Some(Descriptor(expected.generation, response.udp.value.endpoint, committed));
      }
      return Ok(active);
    }
  }
}
