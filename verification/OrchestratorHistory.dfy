/** What the orchestrator's history always shows: commits follow guards, revokes
    follow a stop of forwarding, and a blocked policy commits only fresh ingress. */
module OrchestratorHistory {
  import opened Wrappers
  import opened StrictContract
  import opened TargetGroups
  import Ingress = CoreIngress
  import Control = StrictControllerModule
  import opened StrictProtocol
  import opened OrchestratorSpec
  import opened OrchestratorRuns

  // ----- A running summary ---------------------------------------------------

  /** `guard`: the last accepted proof was a non-armed guard proof for this
      revision and digest, and no Broker command was issued since.
      `stopped`: the last accepted proof showed forwarding off, and no commit was
      issued since. `highest`: the highest generation issued. `floor`: the value
      of `highest` when the phase last was AwaitBlocking, until a commit.
      `good`: every event so far was in order. */
  datatype Summary = Summary(guard: Option<(nat, string)>, stopped: bool, highest: nat, floor: Option<nat>, good: bool)

  const EMPTY: Summary := Summary(None, false, 0, None, true)

  predicate IsCommit(e: Event) {
    e.Issued? && e.action.Broker? && e.action.command.CommitPolicy?
  }

  predicate IsRevoke(e: Event) {
    e.Issued? && e.action.Core? && e.action.action.entries == []
  }

  /** The ingress generation an event carries, if any. */
  function GenerationOf(e: Event): nat {
    if IsCommit(e) then e.action.command.ingress.generation
    else if e.Issued? && e.action.Core? then e.action.action.generation
    else 0
  }

  predicate IsGuardProof(e: Event) {
    e.Accepted? && !e.armed && ProvesGuard(e.proof)
  }

  predicate InOrder(s: Summary, e: Event) {
    && (IsCommit(e) ==>
          && s.guard.Some? && s.guard.value.0 == e.action.command.revision
          && SameDigest(s.guard.value.1, e.action.command.digest)
          && (s.floor.Some? ==> e.action.command.ingress.generation > s.floor.value))
    && (IsRevoke(e) ==> s.stopped)
  }

  function Extend(s: Summary, e: Event): Summary {
    Summary(
      if IsGuardProof(e) then Some((e.proof.revision, e.proof.policyDigest))
      else if e.Accepted? || (e.Issued? && e.action.Broker?) then None else s.guard,
      if e.Accepted? then ForwardingOff(e.proof) else if IsCommit(e) then false else s.stopped,
      if GenerationOf(e) > s.highest then GenerationOf(e) else s.highest,
      if e.Blocking? then Some(s.highest) else if IsCommit(e) then None else s.floor,
      s.good && InOrder(s, e))
  }

  function Summarize(h: seq<Event>): Summary {
    if h == [] then EMPTY else Extend(Summarize(h[..|h| - 1]), h[|h| - 1])
  }

  lemma SummarizeAppend(h: seq<Event>, e: Event)
    ensures Summarize(h + [e]) == Extend(Summarize(h), e)
  {
    assert (h + [e])[..|h|] == h;
  }

  // ----- The invariant -------------------------------------------------------

  predicate LiveRevision(o: Orchestrator, revision: nat) {
    o.controller.desired.Some? && o.controller.desired.value.revision == revision
  }

  predicate PhaseMatches(o: Orchestrator) {
    match o.phase
    case AwaitPrepare(policy, digest, _) =>
      LiveRevision(o, policy.revision) && SameDigest(o.controller.desired.value.digest, digest)
    case AwaitIngress(revision, _) => LiveRevision(o, revision)
    case AwaitCommit(revision) => LiveRevision(o, revision)
    case Active(revision) => LiveRevision(o, revision)
    case AwaitBlocking(revision) => LiveRevision(o, revision)
    case AwaitBlockingRevoke(revision) => LiveRevision(o, revision)
    case Blocked(revision) => LiveRevision(o, revision)
    case _ => true
  }

  predicate IngressBounded(o: Orchestrator, s: Summary) {
    && s.highest <= o.ingress.generation
    && (o.ingress.pending.Some? ==> o.ingress.pending.value.generation <= o.ingress.generation)
    && (o.ingress.active.Some? ==> o.ingress.active.value.generation <= o.ingress.generation)
    && (o.phase.AwaitBlockingRevoke? || o.phase.AwaitDisableRevoke? ==>
          o.ingress.pending.Some? ==> o.ingress.pending.value.entries == [])
  }

  /** Since the last AwaitBlocking no commit went out, and none can with old ingress. */
  predicate OldIngressUnusable(o: Orchestrator, s: Summary) {
    s.floor.Some? ==>
      && s.floor.value <= o.ingress.generation
      && !o.phase.AwaitCommit?
      && (o.phase.AwaitIngress? && o.ingress.pending.Some? ==> o.ingress.pending.value.generation > s.floor.value)
      && (o.phase.AwaitPrepare? || o.phase.Blocked? || o.phase.Idle? || o.phase.Active? ==> o.ingress.active.None?)
  }

  predicate HistoryOk(o: Orchestrator, s: Summary) {
    && s.good
    && PhaseMatches(o)
    && (o.phase.AwaitIngress? ==>
          s.guard.Some? && s.guard.value.0 == o.phase.revision && SameDigest(s.guard.value.1, o.phase.digest))
    && (o.phase.AwaitBlockingRevoke? || o.phase.AwaitDisableRevoke? ==> s.stopped)
    && IngressBounded(o, s)
    && OldIngressUnusable(o, s)
  }

  function ExtendAll(s: Summary, events: seq<Event>): Summary {
    if events == [] then s else Extend(ExtendAll(s, events[..|events| - 1]), events[|events| - 1])
  }

  lemma {:induction false} SummarizeAppendAll(h: seq<Event>, events: seq<Event>)
    ensures Summarize(h + events) == ExtendAll(Summarize(h), events)
  {
    if events == [] {
      assert h + events == h;
    } else {
      SummarizeAppendAll(h, events[..|events| - 1]);
      SummarizeAppend(h + events[..|events| - 1], events[|events| - 1]);
      assert h + events == h + events[..|events| - 1] + [events[|events| - 1]];
    }
  }

  /** The summary after one call, written out for the three events it may leave. */
  function SummaryAfter(s: Summary, call: Call, outcome: Outcome): Summary {
    var (o, r) := outcome;
    var accepted := if call.DoAcceptProof? && r.Ok? then Extend(s, Accepted(call.proof, o.controller.state.Armed?)) else s;
    var issued := if r.Ok? then Extend(accepted, Issued(r.value)) else accepted;
    if o.phase.AwaitBlocking? then Extend(issued, Blocking) else issued
  }

  lemma SummaryAfterEvents(s: Summary, call: Call, outcome: Outcome)
    ensures ExtendAll(s, EventsOf(call, outcome)) == SummaryAfter(s, call, outcome)
  {
    var (o, r) := outcome;
    var e1 := if call.DoAcceptProof? && r.Ok? then [Accepted(call.proof, o.controller.state.Armed?)] else [];
    var e2 := if r.Ok? then [Issued(r.value)] else [];
    var e3 := if o.phase.AwaitBlocking? then [Blocking] else [];
    ExtendAllConcat(s, e1, e2);
    ExtendAllConcat(s, e1 + e2, e3);
    assert forall t, e {:trigger ExtendAll(t, [e])} :: ExtendAll(t, [e]) == Extend(ExtendAll(t, [e][..0]), e);
  }

  lemma {:induction false} ExtendAllConcat(s: Summary, a: seq<Event>, b: seq<Event>)
    ensures ExtendAll(s, a + b) == ExtendAll(ExtendAll(s, a), b)
  {
    if b == [] {
      assert a + b == a;
    } else {
      ExtendAllConcat(s, a, b[..|b| - 1]);
      assert (a + b)[..|a + b| - 1] == a + b[..|b| - 1];
    }
  }

  // ----- Preservation --------------------------------------------------------

  lemma BeginKeeps(rules: Rules, o: Orchestrator, s: Summary, policy: Policy)
    requires HistoryOk(o, s)
    ensures var (o', r) := Begin(rules, o, policy);
            HistoryOk(o', if r.Ok? then Extend(s, Issued(r.value)) else s)
  {
    LowerTwice(rules.digest(policy));
  }

  lemma RevokeKeeps(o: Orchestrator, s: Summary, draw: Ingress.Draw, next: Phase)
    requires HistoryOk(o, s) && s.stopped && (next.AwaitBlockingRevoke? || next.AwaitDisableRevoke?)
    requires PhaseMatches(o.(phase := next))
    ensures var (o', r) := Revoke(o, draw, o.phase, next);
            HistoryOk(o', if r.Ok? then Extend(s, Issued(r.value)) else s)
  {
  }

  /** Failing into AwaitBlocking is always in order. */
  lemma FailKeeps(o: Orchestrator, s: Summary, c: Control.Controller, ingress: Ingress.Coordinator, revision: nat)
    requires HistoryOk(o, s)
    requires c.desired.Some? && c.desired.value.revision == revision
    requires IngressBounded(o.(ingress := ingress), s)
    ensures HistoryOk(Orchestrator(c, ingress, AwaitBlocking(revision)), Extend(s, Blocking))
  {
  }

  /** After a guard proof for a proxy policy: request ingress, or commit with the active one. */
  lemma PreparedIngressKeeps(rules: Rules, o: Orchestrator, s: Summary, proof: BrokerProof, draw: Ingress.Draw, c: Control.Controller)
    requires HistoryOk(o, s) && o.phase.AwaitPrepare? && o.phase.groups != []
    requires ProvesGuard(proof) && Control.Concerns(o.controller.desired.value, proof)
    requires c.desired == o.controller.desired && c.state.Blocking?
    requires Control.ApplyProof(o.controller, proof) == (c, true)
    ensures var r := AcceptPrepared(rules, o, o.phase.policy, o.phase.digest, o.phase.groups, proof, draw);
            HistoryOk(r.0, SummaryAfter(s, DoAcceptProof(proof, draw), r))
  {
    var AwaitPrepare(policy, digest, groups) := o.phase;
    SortedDistinctAscends(groups);
    FirstIsElement(groups);
    assert SortedDistinct(groups) != [];
    var (ingress, change) := Ingress.Begin(rules, o.ingress, groups, draw);
    assert change == Ok(Ingress.Unchanged) ==> o.ingress.active.Some? && ingress == o.ingress;
    if change.Err? || (change.value.Unchanged? && CurrentIngressSet(rules, ingress).Err?) {
      FailKeeps(o, s, c, ingress, policy.revision);
    } else {
      assert SameDigest(proof.policyDigest, digest);
    }
  }

  lemma PreparedKeeps(rules: Rules, o: Orchestrator, s: Summary, proof: BrokerProof, draw: Ingress.Draw)
    requires HistoryOk(o, s) && o.phase.AwaitPrepare?
    ensures HistoryOk(AcceptProof(rules, o, proof, draw).0,
                      SummaryAfter(s, DoAcceptProof(proof, draw), AcceptProof(rules, o, proof, draw)))
  {
    var AwaitPrepare(policy, digest, groups) := o.phase;
    var (c, ok) := Control.ApplyProof(o.controller, proof);
    if !ok { return; }
    if !ProvesGuard(proof) || (groups == [] && !c.state.Armed?) {
      FailKeeps(o, s, c, o.ingress, policy.revision);
    } else if groups != [] && !c.state.Blocking? {
      FailKeeps(o, s, Lost(c), o.ingress, policy.revision);
    } else if groups != [] {
      PreparedIngressKeeps(rules, o, s, proof, draw, c);
    }
  }

  lemma ActiveKeeps(rules: Rules, o: Orchestrator, s: Summary, proof: BrokerProof, draw: Ingress.Draw)
    requires HistoryOk(o, s) && o.phase.Active?
    ensures HistoryOk(AcceptProof(rules, o, proof, draw).0,
                      SummaryAfter(s, DoAcceptProof(proof, draw), AcceptProof(rules, o, proof, draw)))
  {
  }

  lemma CommittedKeeps(rules: Rules, o: Orchestrator, s: Summary, proof: BrokerProof, draw: Ingress.Draw)
    requires HistoryOk(o, s) && o.phase.AwaitCommit?
    ensures HistoryOk(AcceptProof(rules, o, proof, draw).0,
                      SummaryAfter(s, DoAcceptProof(proof, draw), AcceptProof(rules, o, proof, draw)))
  {
  }

  lemma DisabledKeeps(rules: Rules, o: Orchestrator, s: Summary, proof: BrokerProof, draw: Ingress.Draw)
    requires HistoryOk(o, s) && o.phase.AwaitDisable?
    ensures HistoryOk(AcceptProof(rules, o, proof, draw).0,
                      SummaryAfter(s, DoAcceptProof(proof, draw), AcceptProof(rules, o, proof, draw)))
  {
    if ProvesEmpty(proof) {
      RevokeKeeps(o, Extend(s, Accepted(proof, o.controller.state.Armed?)), draw, AwaitDisableRevoke);
    }
  }

  lemma BlockedKeeps(rules: Rules, o: Orchestrator, s: Summary, proof: BrokerProof, draw: Ingress.Draw)
    requires HistoryOk(o, s) && o.phase.AwaitBlocking?
    ensures HistoryOk(AcceptProof(rules, o, proof, draw).0,
                      SummaryAfter(s, DoAcceptProof(proof, draw), AcceptProof(rules, o, proof, draw)))
  {
    var (c, ok) := Control.ApplyProof(o.controller, proof);
    if ok && ProvesGuard(proof) && ForwardingOff(proof) {
      RevokeKeeps(o.(controller := c), Extend(s, Accepted(proof, c.state.Armed?)), draw, AwaitBlockingRevoke(o.phase.revision));
    }
  }

  lemma StoppingKeeps(rules: Rules, o: Orchestrator, s: Summary, proof: BrokerProof, draw: Ingress.Draw)
    requires HistoryOk(o, s) && (o.phase.AwaitBlocking? || o.phase.AwaitDisable?)
    ensures HistoryOk(AcceptProof(rules, o, proof, draw).0,
                      SummaryAfter(s, DoAcceptProof(proof, draw), AcceptProof(rules, o, proof, draw)))
  {
    if o.phase.AwaitDisable? { DisabledKeeps(rules, o, s, proof, draw); } else { BlockedKeeps(rules, o, s, proof, draw); }
  }

  lemma AcceptProofKeeps(rules: Rules, o: Orchestrator, s: Summary, proof: BrokerProof, draw: Ingress.Draw)
    requires HistoryOk(o, s)
    ensures HistoryOk(AcceptProof(rules, o, proof, draw).0,
                      SummaryAfter(s, DoAcceptProof(proof, draw), AcceptProof(rules, o, proof, draw)))
  {
    if o.phase.AwaitPrepare? { PreparedKeeps(rules, o, s, proof, draw); }
    else if o.phase.Active? { ActiveKeeps(rules, o, s, proof, draw); }
    else if o.phase.AwaitCommit? { CommittedKeeps(rules, o, s, proof, draw); }
    else if o.phase.AwaitBlocking? || o.phase.AwaitDisable? { StoppingKeeps(rules, o, s, proof, draw); }
    else { assert AcceptProof(rules, o, proof, draw) == (o, Err); }
  }

  lemma AcceptCoreKeeps(rules: Rules, o: Orchestrator, s: Summary, response: Ingress.CoreResponse)
    requires HistoryOk(o, s)
    ensures HistoryOk(AcceptCore(rules, o, response).0,
                      SummaryAfter(s, DoAcceptCore(response), AcceptCore(rules, o, response)))
  {
  }

  lemma RecoverKeeps(rules: Rules, o: Orchestrator, s: Summary, policy: Policy, draw: Ingress.Draw)
    requires HistoryOk(o, s)
    ensures HistoryOk(Recover(rules, o, policy, draw).0,
                      SummaryAfter(s, DoRecover(policy, draw), Recover(rules, o, policy, draw)))
  {
    if o.phase.Blocked? { BeginKeeps(rules, o.(phase := Idle), s, policy); }
    if o.phase.AwaitBlockingRevoke? || o.phase.AwaitDisableRevoke? { RevokeKeeps(o, s, draw, o.phase); }
  }

  lemma QuietKeeps(rules: Rules, o: Orchestrator, s: Summary, call: Call)
    requires HistoryOk(o, s) && Permitted(rules, o, call)
    requires call.DoForceBlocking? || call.DoDisable? || call.DoBrokerLost?
    ensures HistoryOk(Perform(rules, o, call).0, SummaryAfter(s, call, Perform(rules, o, call)))
  {
  }

  lemma BeginningKeeps(rules: Rules, o: Orchestrator, s: Summary, call: Call)
    requires HistoryOk(o, s) && Permitted(rules, o, call)
    requires call.DoBegin? || call.DoRestoreDisable? || call.DoBeginMigration?
    ensures HistoryOk(Perform(rules, o, call).0, SummaryAfter(s, call, Perform(rules, o, call)))
  {
    if call.DoBeginMigration? && Replaceable(o) { BeginKeeps(rules, o.(phase := Idle), s, call.policy); }
    else { BeginKeeps(rules, o, s, call.policy); }
  }

  lemma StepKeeps(rules: Rules, o: Orchestrator, s: Summary, call: Call)
    requires HistoryOk(o, s) && Permitted(rules, o, call)
    ensures HistoryOk(Perform(rules, o, call).0, SummaryAfter(s, call, Perform(rules, o, call)))
  {
    match call
    case DoAcceptProof(proof, draw) => AcceptProofKeeps(rules, o, s, proof, draw);
    case DoAcceptCore(response) => AcceptCoreKeeps(rules, o, s, response);
    case DoRecover(policy, draw) => RecoverKeeps(rules, o, s, policy, draw);
    case DoRetryCoreRevoke(draw) =>
      if o.phase.AwaitBlockingRevoke? || o.phase.AwaitDisableRevoke? { RevokeKeeps(o, s, draw, o.phase); }
    case DoForceBlocking => QuietKeeps(rules, o, s, call);
    case DoDisable => QuietKeeps(rules, o, s, call);
    case DoBrokerLost(_) => QuietKeeps(rules, o, s, call);
    case _ => BeginningKeeps(rules, o, s, call);
  }

  lemma {:induction false} RunKeeps(rules: Rules, calls: seq<Call>)
    requires AllPermitted(rules, calls)
    ensures HistoryOk(After(rules, calls).o, Summarize(After(rules, calls).history))
  {
    if calls != [] {
      var before := After(rules, calls[..|calls| - 1]);
      var call := calls[|calls| - 1];
      RunKeeps(rules, calls[..|calls| - 1]);
      StepKeeps(rules, before.o, Summarize(before.history), call);
      SummarizeAppendAll(before.history, EventsOf(call, Perform(rules, before.o, call)));
      SummaryAfterEvents(Summarize(before.history), call, Perform(rules, before.o, call));
    }
  }

  // ----- What a good history means -------------------------------------------

  predicate NoneBetween(h: seq<Event>, i: int, j: int, p: Event -> bool)
    requires -1 <= i && j <= |h|
  {
    forall k :: i < k < j ==> !p(h[k])
  }

  predicate IsBrokerCommand(e: Event) {
    e.Issued? && e.action.Broker?
  }

  lemma {:induction false} GuardMeans(h: seq<Event>)
    requires Summarize(h).guard.Some?
    ensures exists i :: 0 <= i < |h| && IsGuardProof(h[i])
                        && h[i].proof.revision == Summarize(h).guard.value.0
                        && h[i].proof.policyDigest == Summarize(h).guard.value.1
                        && NoneBetween(h, i, |h|, IsBrokerCommand)
  {
    var last := h[|h| - 1];
    if IsGuardProof(last) {
      assert NoneBetween(h, |h| - 1, |h|, IsBrokerCommand);
    } else {
      GuardMeans(h[..|h| - 1]);
      var i :| 0 <= i < |h| - 1 && IsGuardProof(h[..|h| - 1][i])
               && h[..|h| - 1][i].proof.revision == Summarize(h).guard.value.0
               && h[..|h| - 1][i].proof.policyDigest == Summarize(h).guard.value.1
               && NoneBetween(h[..|h| - 1], i, |h| - 1, IsBrokerCommand);
      assert h[i] == h[..|h| - 1][i];
      forall k | i < k < |h| ensures !IsBrokerCommand(h[k]) {
        if k < |h| - 1 { assert h[k] == h[..|h| - 1][k]; }
      }
      assert NoneBetween(h, i, |h|, IsBrokerCommand);
    }
  }

  lemma {:induction false} StoppedMeans(h: seq<Event>)
    requires Summarize(h).stopped
    ensures exists i :: 0 <= i < |h| && h[i].Accepted? && ForwardingOff(h[i].proof) && NoneBetween(h, i, |h|, IsCommit)
  {
    var last := h[|h| - 1];
    if last.Accepted? {
      assert NoneBetween(h, |h| - 1, |h|, IsCommit);
    } else {
      StoppedMeans(h[..|h| - 1]);
      var i :| 0 <= i < |h| - 1 && h[..|h| - 1][i].Accepted? && ForwardingOff(h[..|h| - 1][i].proof)
               && NoneBetween(h[..|h| - 1], i, |h| - 1, IsCommit);
      assert h[i] == h[..|h| - 1][i];
      forall k | i < k < |h| ensures !IsCommit(h[k]) {
        if k < |h| - 1 { assert h[k] == h[..|h| - 1][k]; }
      }
      assert NoneBetween(h, i, |h|, IsCommit);
    }
  }

  lemma {:induction false} HighestMeans(h: seq<Event>, k: nat)
    requires k < |h|
    ensures GenerationOf(h[k]) <= Summarize(h).highest
  {
    if k < |h| - 1 { HighestMeans(h[..|h| - 1], k); }
  }

  lemma {:induction false} FloorMeans(h: seq<Event>, i: nat, k: nat)
    requires k < i < |h| && h[i].Blocking? && NoneBetween(h, i, |h|, IsCommit)
    ensures Summarize(h).floor.Some? && GenerationOf(h[k]) <= Summarize(h).floor.value
  {
    if h[|h| - 1].Blocking? {
      HighestMeans(h[..|h| - 1], k);
    } else {
      assert forall m :: i < m < |h| - 1 ==> h[..|h| - 1][m] == h[m];
      assert NoneBetween(h[..|h| - 1], i, |h| - 1, IsCommit);
      FloorMeans(h[..|h| - 1], i, k);
    }
  }

  lemma {:induction false} GoodMeans(h: seq<Event>, j: nat)
    requires Summarize(h).good && j < |h|
    ensures InOrder(Summarize(h[..j]), h[j])
  {
    if j < |h| - 1 {
      GoodMeans(h[..|h| - 1], j);
      assert h[..|h| - 1][..j] == h[..j];
    }
  }

  // ----- Main results --------------------------------------------------------

  lemma GuardedBefore(h: seq<Event>, j: nat)
    requires Summarize(h).good && j < |h| && IsCommit(h[j])
    ensures exists i :: 0 <= i < j && IsGuardProof(h[i])
                        && h[i].proof.revision == h[j].action.command.revision
                        && SameDigest(h[i].proof.policyDigest, h[j].action.command.digest)
                        && NoneBetween(h, i, j, IsBrokerCommand)
  {
    GoodMeans(h, j);
    GuardMeans(h[..j]);
    var i :| 0 <= i < j && IsGuardProof(h[..j][i])
             && h[..j][i].proof.revision == Summarize(h[..j]).guard.value.0
             && h[..j][i].proof.policyDigest == Summarize(h[..j]).guard.value.1
             && NoneBetween(h[..j], i, j, IsBrokerCommand);
    assert h[i] == h[..j][i];
    assert forall k :: i < k < j ==> h[..j][k] == h[k];
    assert NoneBetween(h, i, j, IsBrokerCommand);
  }

  /** Every commit follows an accepted, not yet armed guard proof for the same
      revision and digest, with no other Broker command in between. */
  lemma CommitsFollowGuards(rules: Rules, calls: seq<Call>, j: nat)
    requires AllPermitted(rules, calls) && j < |After(rules, calls).history| && IsCommit(After(rules, calls).history[j])
    ensures var h := After(rules, calls).history;
            exists i :: 0 <= i < j && IsGuardProof(h[i])
                        && h[i].proof.revision == h[j].action.command.revision
                        && SameDigest(h[i].proof.policyDigest, h[j].action.command.digest)
                        && NoneBetween(h, i, j, IsBrokerCommand)
  {
    RunKeeps(rules, calls);
    GuardedBefore(After(rules, calls).history, j);
  }

  lemma StoppedBefore(h: seq<Event>, j: nat)
    requires Summarize(h).good && j < |h| && IsRevoke(h[j])
    ensures exists i :: 0 <= i < j && h[i].Accepted? && ForwardingOff(h[i].proof) && NoneBetween(h, i, j, IsCommit)
  {
    GoodMeans(h, j);
    StoppedMeans(h[..j]);
    var i :| 0 <= i < j && h[..j][i].Accepted? && ForwardingOff(h[..j][i].proof) && NoneBetween(h[..j], i, j, IsCommit);
    assert h[i] == h[..j][i];
    assert forall k :: i < k < j ==> h[..j][k] == h[k];
    assert NoneBetween(h, i, j, IsCommit);
  }

  /** Every Core revoke follows a Broker proof, accepted after the last commit,
      that forwarding is off. */
  lemma RevokesFollowStop(rules: Rules, calls: seq<Call>, j: nat)
    requires AllPermitted(rules, calls) && j < |After(rules, calls).history| && IsRevoke(After(rules, calls).history[j])
    ensures var h := After(rules, calls).history;
            exists i :: 0 <= i < j && h[i].Accepted? && ForwardingOff(h[i].proof) && NoneBetween(h, i, j, IsCommit)
  {
    RunKeeps(rules, calls);
    StoppedBefore(After(rules, calls).history, j);
  }

  /** Once the phase was AwaitBlocking (at `i`), the next commit (at `j`) carries
      an ingress generation above every one issued before (at any `k`). */
  lemma CommitsAfterBlockingAreFresh(rules: Rules, calls: seq<Call>, k: nat, i: nat, j: nat)
    requires AllPermitted(rules, calls) && k < i < j < |After(rules, calls).history|
    requires var h := After(rules, calls).history;
             h[i].Blocking? && IsCommit(h[j]) && NoneBetween(h, i, j, IsCommit)
    ensures var h := After(rules, calls).history;
            h[j].action.command.ingress.generation > GenerationOf(h[k])
  {
    var h := After(rules, calls).history;
    RunKeeps(rules, calls);
    GoodMeans(h, j);
    assert forall m :: i < m < j ==> h[..j][m] == h[m];
    assert NoneBetween(h[..j], i, j, IsCommit);
    FloorMeans(h[..j], i, k);
  }
}
