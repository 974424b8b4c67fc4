/** Two ways a failure leaves a stored marker that the Broker cannot follow: a
    disabling marker over foreign guards, and a marker that was never adopted. */
module BrokerWedge {
  import opened Wrappers
  import opened StrictContract
  import opened BrokerWorld
  import Spec = BrokerSpec
  import opened BrokerInvariant
  import opened BrokerRuns
  import opened Induction
  import BrokerSuccess

  /** What a wedge keeps: the installed guards and the stored record. */
  function Standing(w: World): (Option<RuleSet>, Record) {
    (w.now.image.backend.guards, w.now.image.store)
  }

  /** Guards of another revision stand under a disabling marker. */
  predicate Wedged(s: State) {
    var (guards, store) := Standing(s.w);
    && store.marker.Some? && store.marker.value.phase == Disabling
    && guards.Some? && guards.value.policy.revision != store.marker.value.revision
    && (s.e.marker.Some? ==> s.e.marker == store.marker)
  }

  // ----- Preparing over a marker that was never adopted ----------------------

  /** An engine without a marker that still takes the store for read, asked to prepare
      a valid policy above the watermark it knows, and getting as far as storing it. */
  predicate Overwrites(rules: Rules, e: Engine, script: seq<Answer>, policy: Policy) {
    && e.storeLoaded && e.marker.None?
    && ValidPolicy(rules, policy) && policy.revision > e.highWatermark
    && AllWork(script, 1) && |script| >= 2 && !script[1].outcome.Fails?
  }

  lemma FreshOverwritesExactly(rules: Rules, e: Engine, w: World, policy: Policy)
    requires e.marker.None? && e.storeLoaded
    ensures var r := Spec.PrepareFresh(rules, e, w, policy);
            if Overwrites(rules, e, w.script, policy)
            then r.s.w.now.image.store.marker.Some? && r.s.w.now.image.store.marker.value.policy == policy
                 && r.s.w.now.image.store.marker.value.phase != Disabling
            else r.result.Err? && Standing(r.s.w) == Standing(w) && r.s.e.marker.None?
  {
    if Overwrites(rules, e, w.script, policy) {
      var preparing := PreparingMarker(policy, rules.digest(policy));
      InstallFirstStores(e.(lease := Some(policy), highWatermark := policy.revision, marker := Some(preparing),
                            phase := Preparing, health := Spec.NO_HEALTH), Persist(Verify(w).0, preparing).0, preparing);
    }
  }

  lemma InstallFirstStores(e: Engine, w: World, preparing: Marker)
    requires e.lease.Some? && preparing.phase == Preparing && w.now.image.store.marker == Some(preparing)
    ensures var stored := Spec.InstallFirst(e, w, preparing).s.w.now.image.store.marker;
            stored.Some? && stored.value.policy == preparing.policy && stored.value.phase != Disabling
  {
  }

  /** With a stored marker the engine has not adopted, a prepare either touches
      nothing and fails, or puts its own policy in the marker's place. */
  lemma PrepareOverwritesExactly(rules: Rules, e: Engine, w: World, policy: Policy)
    requires e.marker.None? && w.now.image.store.marker.Some?
    ensures var r := Spec.Prepare(rules, e, w, policy);
            if Overwrites(rules, e, w.script, policy)
            then r.s.w.now.image.store.marker.Some? && r.s.w.now.image.store.marker.value.policy == policy
                 && r.s.w.now.image.store.marker.value.phase != Disabling
            else r.result.Err? && Standing(r.s.w) == Standing(w) && r.s.e.marker.None?
  {
    if e.storeLoaded { FreshOverwritesExactly(rules, e, w, policy); }
  }

  lemma CompleteDisableRemembers(e: Engine, w: World, marker: Marker)
    ensures var r := Spec.CompleteDisable(e, w, marker); r.result.Err? ==> r.s.e == e
  {
  }

  lemma RebindRemembers(e: Engine, w: World, marker: Marker)
    requires e.lease.Some? && e.marker.Some?
    ensures Spec.Rebind(e, w, marker).s.e.marker.Some?
  {
  }

  lemma RecoverMarkedRemembers(rules: Rules, e: Engine, w: World, record: Record, snapshot: Snapshot)
    requires record.marker.Some? && ValidMarker(rules, record.marker.value) && record.marker.value.revision <= record.highWatermark
    ensures var r := Spec.RecoverMarked(rules, e, w, record, snapshot); r.result.Err? ==> r.s.e.marker.Some?
  {
    var marker := record.marker.value;
    var adopted := e.(marker := Some(marker), phase := Recovering, health := Spec.NO_HEALTH);
    if marker.phase == Disabling { CompleteDisableRemembers(adopted, w, marker); return; }
    var verified := Verify(w).0;
    var leased := adopted.(lease := Some(marker.policy));
    if snapshot.dataPlaneInstalled { RebindRemembers(leased, TakeSnapshot(RemoveDataPlane(verified).0).0, marker); }
    else { RebindRemembers(leased, verified, marker); }
  }

  /** A recovery takes the store for read without adopting its marker exactly when the
      marker could be loaded, or had been before, and the filters could not be read. */
  lemma RecoveryForgetsExactly(rules: Rules, e: Engine, w: World)
    requires Inv(rules, e, w) && e.marker.None? && w.now.image.store.marker.Some?
    ensures var r := Spec.Recover(rules, e, w);
            r.result.Err? && r.s.e.storeLoaded && r.s.e.marker.None? <==>
              (e.storeLoaded || AllWork(w.script, 1)) && !AllWork(w.script, 2)
  {
    var (w1, record) := Load(w);
    if record.None? { return; }
    var loaded := e.(storeLoaded := true, highWatermark := record.value.highWatermark);
    var (w2, snapshot) := TakeSnapshot(w1);
    if snapshot.None? {
      assert Spec.Recover(rules, e, w) == Spec.Refuse(loaded, w2);
    } else {
      assert Spec.Recover(rules, e, w) == Spec.RecoverMarked(rules, loaded, w2, record.value, snapshot.value);
      RecoverMarkedRemembers(rules, loaded, w2, record.value, snapshot.value);
    }
  }

  /** Loads the store and then cannot read the filters. */
  predicate Forgets(event: Event) {
    event.Call? && event.command.Recover? && AllWork(event.script, 1) && !AllWork(event.script, 2)
  }

  predicate NothingForgotten(e: Engine) {
    e.storeLoaded ==> e.marker.Some?
  }

  // ----- A wedge lasts -------------------------------------------------------

  predicate Frees(rules: Rules, s: State, event: Event) {
    event.Call? && event.command.Prepare? && Overwrites(rules, s.e, event.script, event.command.policy)
  }

  lemma CompleteDisableWedged(e: Engine, w: World, marker: Marker)
    requires w.now.image.backend.guards.Some? && w.now.image.backend.guards.value.policy.revision != marker.revision
    ensures var r := Spec.CompleteDisable(e, w, marker);
            r.result.Err? && r.s.e == e && Standing(r.s.w) == Standing(w)
  {
  }

  lemma RecoverWedged(rules: Rules, e: Engine, w: World)
    requires MomentOk(rules, w.now) && Wedged(Spec.State(e, w))
    ensures var r := Spec.Recover(rules, e, w);
            r.result.Err? && Wedged(r.s) && Standing(r.s.w) == Standing(w)
            && (NothingForgotten(e) && !Forgets(Call(Recover, w.script)) ==> NothingForgotten(r.s.e))
  {
    var marker := w.now.image.store.marker.value;
    CompleteDisableWedged(e.(storeLoaded := true, highWatermark := w.now.image.store.highWatermark,
                             marker := Some(marker), phase := Recovering, health := Spec.NO_HEALTH), Pop(Pop(w)), marker);
  }

  lemma DisableWedged(rules: Rules, e: Engine, w: World, revision: nat)
    requires Inv(rules, e, w) && Wedged(Spec.State(e, w))
    ensures var r := Spec.Disable(e, w, revision);
            r.result.Err? && Wedged(r.s) && Standing(r.s.w) == Standing(w)
            && (NothingForgotten(e) ==> NothingForgotten(r.s.e))
  {
    if e.marker.Some? && e.marker.value.revision == revision {
      var marker := e.marker.value;
      CompleteDisableWedged(e.(phase := Recovering, health := Spec.NO_HEALTH), Persist(w, marker).0, marker);
    }
  }

  lemma PrepareWedged(rules: Rules, e: Engine, w: World, policy: Policy)
    requires Wedged(Spec.State(e, w)) && !Overwrites(rules, e, w.script, policy)
    ensures var r := Spec.Prepare(rules, e, w, policy);
            r.result.Err? && Wedged(r.s) && Standing(r.s.w) == Standing(w)
            && (NothingForgotten(e) ==> NothingForgotten(r.s.e))
  {
    if e.marker.None? { PrepareOverwritesExactly(rules, e, w, policy); }
  }

  lemma BlockWedged(e: Engine, w: World, revision: nat)
    requires Wedged(Spec.State(e, w))
    ensures var r := Spec.ForceBlocking(e, w, revision);
            r.result.Err? && Wedged(r.s) && Standing(r.s.w) == Standing(w)
            && (NothingForgotten(e) ==> NothingForgotten(r.s.e))
  {
  }

  /** Only reading the status can succeed in a wedge. */
  predicate OnlyReads(e: Engine, command: Command) {
    command.Status? || (command.ForceBlockingIfActive? && e.marker.None?)
  }

  /** One command in a wedge: unless it overwrites the marker, it changes neither the
      guards nor the store, and it fails if it is more than a status reading. */
  lemma CommandWedged(rules: Rules, s: State, command: Command, script: seq<Answer>)
    requires Inv(rules, s.e, s.w) && Wedged(s)
    ensures var r := Execute(rules, s.e, s.w.(script := script), command);
            if Frees(rules, s, Call(command, script)) then Standing(r.s.w) != Standing(s.w)
            else Wedged(r.s) && Standing(r.s.w) == Standing(s.w) && (r.result.Ok? ==> OnlyReads(s.e, command))
    ensures NothingForgotten(s.e) && !Forgets(Call(command, script)) ==>
              && !Frees(rules, s, Call(command, script))
              && NothingForgotten(Execute(rules, s.e, s.w.(script := script), command).s.e)
  {
    var w := s.w.(script := script);
    match command
    case Prepare(policy) =>
      if Overwrites(rules, s.e, script, policy) { PrepareOverwritesExactly(rules, s.e, w, policy); }
      else { PrepareWedged(rules, s.e, w, policy); }
    case ForceBlocking(revision) => BlockWedged(s.e, w, revision);
    case ForceBlockingIfActive => if s.e.marker.Some? { BlockWedged(s.e, w, s.e.marker.value.revision); }
    case Disable(revision) => DisableWedged(rules, s.e, w, revision);
    case Recover => RecoverWedged(rules, s.e, w);
    case _ =>
  }

  function After(rules: Rules, events: seq<Event>, k: nat): State
    requires k <= |events|
  {
    Run(rules, events[..k])
  }

  predicate FreedAt(rules: Rules, events: seq<Event>, j: nat)
    requires j < |events|
  {
    Frees(rules, After(rules, events, j), events[j])
  }

  lemma WedgeLastsUntilFreed(rules: Rules, events: seq<Event>, i: nat, k: nat)
    requires i <= k <= |events| && Wedged(After(rules, events, i))
    requires forall j :: i <= j < k ==> !FreedAt(rules, events, j)
    ensures Wedged(After(rules, events, k))
    ensures Standing(After(rules, events, k).w) == Standing(After(rules, events, i).w)
  {
    var since := Standing(After(rules, events, i).w);
    var holds := (j: nat) => j <= |events| && Wedged(After(rules, events, j)) && Standing(After(rules, events, j).w) == since;
    forall j: nat | i <= j < k && holds(j) ensures holds(j + 1) { WedgeStep(rules, events, j); }
    Carried(holds, i, k);
  }

  lemma WedgeStep(rules: Rules, events: seq<Event>, j: nat)
    requires j < |events| && Wedged(After(rules, events, j))
    ensures if FreedAt(rules, events, j)
            then Standing(After(rules, events, j + 1).w) != Standing(After(rules, events, j).w)
            else Wedged(After(rules, events, j + 1))
                 && Standing(After(rules, events, j + 1).w) == Standing(After(rules, events, j).w)
    ensures NothingForgotten(After(rules, events, j).e) && !Forgets(events[j]) ==>
              !FreedAt(rules, events, j) && NothingForgotten(After(rules, events, j + 1).e)
  {
    assert events[..j + 1][..j] == events[..j];
    RunKeeps(rules, events[..j]);
    if events[j].Call? { CommandWedged(rules, After(rules, events, j), events[j].command, events[j].script); }
  }

  /** Once wedged, no sequence of commands, failures and restarts changes the guards or
      the store, if and only if no prepare in it overwrites a marker never adopted. */
  lemma WedgeLasts(rules: Rules, events: seq<Event>, i: nat)
    requires i <= |events| && Wedged(After(rules, events, i))
    ensures (forall k :: i <= k <= |events| ==> Standing(After(rules, events, k).w) == Standing(After(rules, events, i).w)) <==>
              (forall j :: i <= j < |events| ==> !FreedAt(rules, events, j))
  {
    if j :| i <= j < |events| && FreedAt(rules, events, j) {
      var first := FirstFreed(rules, events, i, j);
      WedgeLastsUntilFreed(rules, events, i, first);
      WedgeStep(rules, events, first);
    } else {
      forall k | i <= k <= |events| ensures Standing(After(rules, events, k).w) == Standing(After(rules, events, i).w) {
        WedgeLastsUntilFreed(rules, events, i, k);
      }
    }
  }

  lemma {:induction false} FirstFreed(rules: Rules, events: seq<Event>, i: nat, j: nat) returns (first: nat)
    requires i <= j < |events| && FreedAt(rules, events, j)
    ensures i <= first < |events| && FreedAt(rules, events, first)
    ensures forall k :: i <= k < first ==> !FreedAt(rules, events, k)
    decreases j
  {
    if k :| i <= k < j && FreedAt(rules, events, k) { first := FirstFreed(rules, events, i, k); } else { first := j; }
  }

  /** Once wedged, nothing changes the guards or the store for good, restarts included,
      unless some recovery loads the store and then cannot read the filters. */
  lemma WedgeIsPermanent(rules: Rules, events: seq<Event>, i: nat, k: nat)
    requires i <= k <= |events| && Wedged(After(rules, events, i)) && NothingForgotten(After(rules, events, i).e)
    requires forall j :: i <= j < k ==> !Forgets(events[j])
    ensures Wedged(After(rules, events, k)) && NothingForgotten(After(rules, events, k).e)
    ensures Standing(After(rules, events, k).w) == Standing(After(rules, events, i).w)
  {
    var since := Standing(After(rules, events, i).w);
    var holds := (j: nat) => j <= |events| && Wedged(After(rules, events, j)) && NothingForgotten(After(rules, events, j).e)
                             && Standing(After(rules, events, j).w) == since;
    forall j: nat | i <= j < k && holds(j) ensures holds(j + 1) { WedgeStep(rules, events, j); }
    Carried(holds, i, k);
  }

  // ----- Runs that get there -------------------------------------------------

  /** Migrate with a guard installation that fails, then disable the new revision. */
  function WedgingRun(a: Policy, b: Policy): seq<Event> {
    [Call(Prepare(a), Working(8)), Call(Prepare(b), Working(5)), Call(Disable(b.revision), Working(8))]
  }

  lemma RunsOn(rules: Rules, events: seq<Event>, a: Event, b: Event, c: Event)
    ensures Run(rules, events + [a, b, c]) == Step(rules, Step(rules, Step(rules, Run(rules, events), a), b), c)
  {
    assert (events + [a, b, c])[..|events| + 2] == events + [a, b];
    assert (events + [a, b])[..|events| + 1] == events + [a];
    assert (events + [a])[..|events|] == events;
    assert Run(rules, events + [a]) == Step(rules, Run(rules, events), a);
    assert Run(rules, events + [a, b]) == Step(rules, Run(rules, events + [a]), b);
  }

  lemma StartStands(rules: Rules, policy: Policy)
    requires ValidPolicy(rules, policy)
    ensures var s := Step(rules, START, Call(Prepare(policy), Working(8)));
            BrokerSuccess.Stands(s, policy, Spec.SettledPhase(policy)) && s.e.highWatermark == policy.revision
  {
    BrokerSuccess.PrepareSucceedsExactly(rules, Spec.NEW_ENGINE, START.w.(script := Working(8)), policy);
  }

  /** A migration whose guard installation fails leaves the old guards under the new marker. */
  lemma MigrationFails(rules: Rules, s: State, a: Policy, b: Policy)
    requires Inv(rules, s.e, s.w) && ValidMigration(rules, a, b) && BrokerSuccess.Stands(s, a, Spec.SettledPhase(a))
    requires s.e.highWatermark == a.revision
    ensures var s' := Step(rules, s, Call(Prepare(b), Working(5)));
            && s'.e.marker == Some(PreparingMarker(b, rules.digest(b))) && s'.w.now.image.store.marker == s'.e.marker
            && s'.w.now.image.backend.guards == s.w.now.image.backend.guards
  {
    var w := Verify(s.w.(script := Working(5))).0;
    BlockForMigration(s.e, w, a);
    var blocked := Spec.ForceBlocking(s.e, w, a.revision);
    SuccessorNotInstalled(rules, blocked.s.e, blocked.s.w, b);
  }

  lemma BlockForMigration(e: Engine, w: World, a: Policy)
    requires BrokerSuccess.Stands(Spec.State(e, w), a, Spec.SettledPhase(a)) && e.marker.value.revision == a.revision
    requires |w.script| == 4 && AllWork(w.script, 4)
    ensures var r := Spec.ForceBlocking(e, w, a.revision);
            && r.result.Ok? && r.s.w.now.image.backend.guards == w.now.image.backend.guards
            && |r.s.w.script| == 1 && AllWork(r.s.w.script, 1)
  {
  }

  lemma SuccessorNotInstalled(rules: Rules, e: Engine, w: World, b: Policy)
    requires |w.script| == 1 && AllWork(w.script, 1)
    ensures var r := Spec.InstallSuccessor(rules, e, w, b);
            && r.s.e.marker == Some(PreparingMarker(b, rules.digest(b))) && r.s.w.now.image.store.marker == r.s.e.marker
            && r.s.w.now.image.backend.guards == w.now.image.backend.guards
  {
  }

  /** A failed migration followed by a disable ends in a wedge: the guards of `a` under
      a disabling marker of `b`. */
  lemma WedgeHappens(rules: Rules, a: Policy, b: Policy)
    requires ValidMigration(rules, a, b)
    ensures var s := Run(rules, WedgingRun(a, b));
            && Wedged(s) && s.e.marker.Some?
            && s.w.now.image.backend.guards.value.policy == a && s.w.now.image.store.marker.value.policy == b
  {
    var events := WedgingRun(a, b);
    RunsOn(rules, [], events[0], events[1], events[2]);
    assert [] + events == events;
    StartStands(rules, a);
    StepKeeps(rules, START, events[0]);
    var first := Step(rules, START, events[0]);
    MigrationFails(rules, first, a, b);
    StepKeeps(rules, first, events[1]);
    DisableWedges(rules, Step(rules, first, events[1]), a, b);
  }

  lemma DisableWedges(rules: Rules, s: State, a: Policy, b: Policy)
    requires s.e.marker.Some? && s.e.marker.value.policy == b && s.e.marker.value.revision == b.revision
    requires s.w.now.image.backend.guards.Some? && s.w.now.image.backend.guards.value.policy == a && a.revision != b.revision
    ensures var s' := Step(rules, s, Call(Disable(b.revision), Working(8)));
            && Wedged(s') && s'.e.marker.Some? && s'.w.now.image.backend.guards == s.w.now.image.backend.guards
            && s'.w.now.image.store.marker.value.policy == b
  {
  }

  /** Restart, a recovery that cannot read the filters, then a prepare. */
  function ForgettingRun(c: Policy): seq<Event> {
    [Restart, Call(Recover, Working(1)), Call(Prepare(c), Working(8))]
  }

  /** After any run that stored a marker, wedged or not, these three events put the
      guards of any valid policy above the watermark in place of what stood. */
  lemma ForgottenMarkerIsReplaced(rules: Rules, events: seq<Event>, c: Policy)
    requires Run(rules, events).w.now.image.store.marker.Some?
    requires ValidPolicy(rules, c) && c.revision > Run(rules, events).w.now.image.store.highWatermark
    ensures var (guards, store) := Standing(Run(rules, events + ForgettingRun(c)).w);
            guards == Some(RuleSet(c, rules.digest(c), c)) && store.marker.Some? && store.marker.value.policy == c
  {
    var s := Run(rules, events);
    RunsOn(rules, events, Restart, Call(Recover, Working(1)), Call(Prepare(c), Working(8)));
    ForgettingRecovery(rules, s.w);
    ForgottenMarkerOverwritten(rules, Step(rules, Step(rules, s, Restart), Call(Recover, Working(1))), c);
  }

  lemma ForgettingRecovery(rules: Rules, w: World)
    ensures var s := Step(rules, Spec.State(Spec.NEW_ENGINE, w), Call(Recover, Working(1)));
            && s.e == Spec.NEW_ENGINE.(storeLoaded := true, highWatermark := w.now.image.store.highWatermark)
            && Standing(s.w) == Standing(w)
  {
    var (w1, record) := Load(w.(script := Working(1)));
    var loaded := Spec.NEW_ENGINE.(storeLoaded := true, highWatermark := record.value.highWatermark);
    assert Spec.Recover(rules, Spec.NEW_ENGINE, w.(script := Working(1))) == Spec.Refuse(loaded, TakeSnapshot(w1).0);
  }

  lemma ForgottenMarkerOverwritten(rules: Rules, s: State, c: Policy)
    requires s.e.storeLoaded && s.e.marker.None? && ValidPolicy(rules, c) && c.revision > s.e.highWatermark
    ensures var (guards, store) := Standing(Step(rules, s, Call(Prepare(c), Working(8))).w);
            guards == Some(RuleSet(c, rules.digest(c), c)) && store.marker.Some? && store.marker.value.policy == c
  {
  }
}
