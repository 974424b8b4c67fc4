/** Cancelling delay tests: what each cancellation changes, and that over every run a
    request is cancelled or late only by a step that says so. */
module DelayCancels {
  import opened Wrappers
  import C = Catalog
  import opened DelayTasks
  import opened DelayResponses
  import opened Induction

  /** A registered test whose history is not committed. */
  predicate Open(s: State, t: nat) {
    t in s.tasks && s.tasks[t].pc in {Waiting, Testing, Returning, Tested} && !s.tasks[t].committed
  }

  /** Exactly the tasks of `hit` were cancelled; the first reason stays. */
  ghost predicate CancelledExactly(s: State, s': State, hit: nat -> bool, why: string) {
    && s'.tasks.Keys == s.tasks.Keys && s'.table == s.table && s'.slots == s.slots && s'.catalogs == s.catalogs && s'.ended == s.ended
    && forall t :: t in s.tasks ==>
         var task := s.tasks[t];
         s'.tasks[t] == if Open(s, t) && hit(t) then task.(reason := if task.reason == "" then why else task.reason, ctxDone := true) else task
  }

  lemma SomeCancelled(s: State, why: string, which: Task -> bool, hit: nat -> bool)
    requires TableOk(s) && forall t :: t in s.tasks ==> hit(t) == which(s.tasks[t])
    ensures CancelledExactly(s, CancelSome(s, why, which), hit, why) && CancelSome(s, why, which).cancels == s.cancels
  {
    forall t | t in s.tasks ensures InTable(s, t) == Registered(s.tasks[t]) { }
  }

  /** A cancel by request identifier says true exactly if that test is registered and its
      history not committed, and then cancels it and no other. */
  lemma CancelKeyExactly(s: State, key: string, why: string)
    requires Inv(s)
    ensures var (s', found) := CancelKey(s, key, why);
            && (found <==> exists t :: Open(s, t) && s.tasks[t].key == key)
            && CancelledExactly(s, s', (t: nat) => t in s.tasks && s.tasks[t].key == key, why) && s'.cancels == s.cancels
  {
    if key in s.table {
      var t := s.table[key];
      assert s.tasks[t].key == key && Registered(s.tasks[t]);
    }
    forall t | Open(s, t) && s.tasks[t].key == key ensures key in s.table && s.table[key] == t { assert Registered(s.tasks[t]); }
  }

  lemma CancelAllExactly(s: State, why: string)
    requires Inv(s)
    ensures CancelledExactly(s, CancelAll(s, why), (t: nat) => true, why) && CancelAll(s, why).cancels == s.cancels
  {
    SomeCancelled(s, why, (task: Task) => true, (t: nat) => true);
  }

  /** The tests of one owner, or those of one catalog. */
  predicate Of(s: State, c: Cancel, t: nat) {
    t in s.tasks && match c
                    case ByOwner(owner, _) => s.tasks[t].owner == owner
                    case ByEntry(entry, _) => s.tasks[t].entry.Some? && s.tasks[t].entry.value == entry
  }

  lemma CancelMatchingExactly(s: State, c: Cancel)
    requires Inv(s)
    ensures CancelledExactly(s, CancelMatching(s, c), (t: nat) => Of(s, c, t), c.why) && CancelMatching(s, c).cancels == s.cancels - {c}
  {
    SomeCancelled(s, c.why, (task: Task) => Matches(c, task), (t: nat) => Of(s, c, t));
  }

  /** The history is committed exactly if nothing cancelled the test and its time is not up. */
  lemma CommitsExactly(s: State, t: nat)
    requires t in s.tasks
    ensures CommitHistory(s, t) == s.(tasks := s.tasks[t := s.tasks[t].(committed := s.tasks[t].committed || (s.tasks[t].reason == "" && !s.tasks[t].ctxDone))])
  {
    assert s.tasks == s.tasks[t := s.tasks[t]];
  }

  // ----- Causes --------------------------------------------------------------

  /** A change of the catalogs asks for this cancellation, and with this reason. */
  predicate AsksFor(s: State, step: Step, c: Cancel) {
    && step.CatalogStep?
    && match step.step
       case ReleaseKey(key) => key in s.catalogs.byKey && c == ByEntry(s.catalogs.byKey[key], "cancelled")
       case OwnerGone(owner) => c == ByOwner(owner, "sessionClosed")
       case ClearAll(_) => c.ByEntry? && c.why == "sessionClosed" && c.entry in s.catalogs.byKey.Values
       case StrictBlock(blocked) => blocked && c.ByEntry? && c.why == "strictModeUnsupported" && c.entry in s.catalogs.byKey.Values
       case _ => false
  }

  predicate Asked(states: seq<State>, steps: seq<Step>, n: nat, c: Cancel)
    requires n <= |steps| && n <= |states|
  {
    exists i :: 0 <= i < n && AsksFor(states[i], steps[i], c)
  }

  /** Step `j` cancels the test for this reason: by its own key, with everything, or as
      what an earlier change of the catalogs asked for. */
  predicate CancelsAt(states: seq<State>, steps: seq<Step>, j: nat, t: nat, why: string)
    requires j < |steps| && j < |states|
  {
    && Open(states[j], t)
    && match steps[j]
       case CancelKeyStep(key, reason) => key == states[j].tasks[t].key && reason == why
       case CancelAllStep(reason) => reason == why
       case CancelMatchingStep(c) => Of(states[j], c, t) && c.why == why && Asked(states, steps, j, c)
       case _ => false
  }

  predicate Caused(states: seq<State>, steps: seq<Step>, n: nat, t: nat, why: string)
    requires n <= |steps| && n <= |states|
  {
    exists j :: 0 <= j < n && CancelsAt(states, steps, j, t, why)
  }

  predicate TimedOut(steps: seq<Step>, n: nat, t: nat)
    requires n <= |steps|
  {
    exists j :: 0 <= j < n && steps[j] == DeadlineStep(t)
  }

  /** What ended a request's context so far. */
  predicate Accounted(states: seq<State>, steps: seq<Step>, n: nat, t: nat, task: Task)
    requires n <= |steps| && n <= |states|
  {
    && (task.reason != "" ==> Caused(states, steps, n, t, task.reason))
    && (task.ctxDone ==> task.reason != "" || TimedOut(steps, n, t))
  }

  predicate AllAccounted(states: seq<State>, steps: seq<Step>, n: nat, s: State)
    requires n <= |steps| && n <= |states|
  {
    && (forall t :: t in s.tasks ==> Accounted(states, steps, n, t, s.tasks[t]))
    && (forall c :: c in s.cancels ==> Asked(states, steps, n, c))
  }

  predicate SameEnd(a: Task, b: Task) {
    b.reason == a.reason && b.ctxDone == a.ctxDone
  }

  /** A request's own steps leave what ended it alone, except for its deadline. */
  lemma RequestAccounted(s: State, step: Step, t: nat)
    requires WellFormed(s) && Enabled(s, step) && (IsOwn(step) || IsShared(step)) && t in Apply(s, step).tasks
    ensures var task := Apply(s, step).tasks[t];
            if t !in s.tasks then task.reason == "" && !task.ctxDone
            else if step == DeadlineStep(t) then task.reason == s.tasks[t].reason && task.ctxDone
            else SameEnd(s.tasks[t], task)
    ensures Apply(s, step).cancels == s.cancels
  {
    RequestsKeepCancels(s, step);
    if step.task != t { RequestTouchesOne(s, step, t); }
    else if IsOwn(step) { OwnSameEnd(s, step); }
    else { SharedSameEnd(s, step); }
  }

  lemma OwnSameEnd(s: State, step: Step)
    requires Enabled(s, step) && IsOwn(step)
    ensures var task := ApplyOwn(s, step).tasks[step.task];
            if step.DeadlineStep? then task.reason == s.tasks[step.task].reason && task.ctxDone else SameEnd(s.tasks[step.task], task)
  {
  }

  lemma SharedSameEnd(s: State, step: Step)
    requires Enabled(s, step) && IsShared(step)
    ensures step.task in ApplyShared(s, step).tasks
    ensures var task := ApplyShared(s, step).tasks[step.task];
            if step.task !in s.tasks then task.reason == "" && !task.ctxDone else SameEnd(s.tasks[step.task], task)
  {
  }

  lemma Later(states: seq<State>, steps: seq<Step>, n: nat, t: nat, task: Task, next: Task)
    requires n < |steps| && n < |states| && Accounted(states, steps, n, t, task) && SameEnd(task, next)
    ensures Accounted(states, steps, n + 1, t, next)
  {
  }

  lemma AskedLater(states: seq<State>, steps: seq<Step>, n: nat, s: State)
    requires n < |steps| && n < |states| && forall c :: c in s.cancels ==> Asked(states, steps, n, c)
    ensures forall c :: c in s.cancels ==> Asked(states, steps, n + 1, c)
  {
  }

  lemma RequestStepAccounted(states: seq<State>, steps: seq<Step>, n: nat, s: State)
    requires n < |steps| && n < |states| && s == states[n] && WellFormed(s) && Enabled(s, steps[n]) && AllAccounted(states, steps, n, s)
    requires IsOwn(steps[n]) || IsShared(steps[n])
    ensures AllAccounted(states, steps, n + 1, Apply(s, steps[n]))
  {
    var s' := Apply(s, steps[n]);
    forall t | t in s'.tasks ensures Accounted(states, steps, n + 1, t, s'.tasks[t]) {
      RequestAccounted(s, steps[n], t);
      if t in s.tasks && steps[n] != DeadlineStep(t) { Later(states, steps, n, t, s.tasks[t], s'.tasks[t]); }
    }
    AskedLater(states, steps, n, s);
    CancelsUntouched(s, steps[n]);
  }

  lemma CancelsUntouched(s: State, step: Step)
    requires WellFormed(s) && Enabled(s, step) && (IsOwn(step) || IsShared(step))
    ensures Apply(s, step).cancels == s.cancels
  {
    RequestsKeepCancels(s, step);
  }

  /** After a cancellation: whoever it hit has this cause, whoever it missed the old one. */
  lemma CancelAccounted(states: seq<State>, steps: seq<Step>, n: nat, s': State, hit: nat -> bool, why: string)
    requires n < |steps| && n < |states| && AllAccounted(states, steps, n, states[n]) && why != ""
    requires CancelledExactly(states[n], s', hit, why) && s'.cancels <= states[n].cancels
    requires forall t :: Open(states[n], t) && hit(t) ==> CancelsAt(states, steps, n, t, why)
    ensures AllAccounted(states, steps, n + 1, s')
  {
    var s := states[n];
    forall t | t in s'.tasks ensures Accounted(states, steps, n + 1, t, s'.tasks[t]) {
      if Open(s, t) && hit(t) && s.tasks[t].reason == "" {
        assert CancelsAt(states, steps, n, t, why);
      } else {
        Later(states, steps, n, t, s.tasks[t], s.tasks[t]);
      }
    }
    AskedLater(states, steps, n, s);
  }

  lemma CatalogAccounted(states: seq<State>, steps: seq<Step>, n: nat, s: State)
    requires n < |steps| && n < |states| && s == states[n] && WellFormed(s) && Enabled(s, steps[n]) && AllAccounted(states, steps, n, s)
    requires steps[n].CatalogStep?
    ensures AllAccounted(states, steps, n + 1, Apply(s, steps[n]))
  {
    var s' := Apply(s, steps[n]);
    forall t | t in s'.tasks ensures Accounted(states, steps, n + 1, t, s'.tasks[t]) {
      Later(states, steps, n, t, s.tasks[t], s'.tasks[t]);
    }
    AskedLater(states, steps, n, s);
    forall c | c in CancelsOf(s.catalogs, steps[n].step) ensures Asked(states, steps, n + 1, c) {
      assert AsksFor(s, steps[n], c);
    }
  }

  lemma CancelStepAccounted(states: seq<State>, steps: seq<Step>, n: nat, s: State)
    requires n < |steps| && n < |states| && s == states[n] && Inv(s) && Enabled(s, steps[n]) && AllAccounted(states, steps, n, s)
    requires steps[n].CancelKeyStep? || steps[n].CancelAllStep?
    ensures AllAccounted(states, steps, n + 1, Apply(s, steps[n]))
  {
    match steps[n]
    case CancelKeyStep(key, why) =>
      CancelKeyExactly(s, key, why);
      CancelAccounted(states, steps, n, Apply(s, steps[n]), (t: nat) => t in s.tasks && s.tasks[t].key == key, why);
    case CancelAllStep(why) =>
      CancelAllExactly(s, why);
      CancelAccounted(states, steps, n, Apply(s, steps[n]), (t: nat) => true, why);
  }

  lemma MatchingStepAccounted(states: seq<State>, steps: seq<Step>, n: nat, s: State)
    requires n < |steps| && n < |states| && s == states[n] && Inv(s) && Enabled(s, steps[n]) && AllAccounted(states, steps, n, s)
    requires steps[n].CancelMatchingStep?
    ensures AllAccounted(states, steps, n + 1, Apply(s, steps[n]))
  {
    var c := steps[n].cancel;
    CancelMatchingExactly(s, c);
    assert Asked(states, steps, n, c);
    CancelAccounted(states, steps, n, Apply(s, steps[n]), (t: nat) => Of(s, c, t), c.why);
  }

  lemma StepAccounted(states: seq<State>, steps: seq<Step>, n: nat, s: State)
    requires n < |steps| && n < |states| && s == states[n] && Inv(s) && Enabled(s, steps[n]) && AllAccounted(states, steps, n, s)
    ensures AllAccounted(states, steps, n + 1, Apply(s, steps[n]))
  {
    match steps[n]
    case CancelKeyStep(_, _) => CancelStepAccounted(states, steps, n, s);
    case CancelAllStep(_) => CancelStepAccounted(states, steps, n, s);
    case CancelMatchingStep(_) => MatchingStepAccounted(states, steps, n, s);
    case CatalogStep(_) => CatalogAccounted(states, steps, n, s);
    case _ => RequestStepAccounted(states, steps, n, s);
  }

  predicate AccountedAt(states: seq<State>, steps: seq<Step>, n: nat)
    requires n <= |steps| && n < |states|
  {
    AllAccounted(states, steps, n, states[n])
  }

  lemma RunAccounted(states: seq<State>, steps: seq<Step>, n: nat)
    requires IsRun(states, steps) && n <= |steps|
    ensures AccountedAt(states, steps, n)
  {
    var holds := (j: nat) => j <= |steps| && j < |states| && AccountedAt(states, steps, j);
    forall j: nat | 0 <= j < n && holds(j) ensures holds(j + 1) { StepAccounted(states, steps, j, states[j]); }
    Carried(holds, 0, n);
  }

  /** Over every run: a request has a reason only because some step cancelled it, with that
      reason and while it could be; and its context has ended without one only if its
      own deadline passed. */
  lemma EveryCancelHasItsCause(states: seq<State>, steps: seq<Step>, t: nat)
    requires IsRun(states, steps) && t in states[|steps|].tasks
    ensures var task := states[|steps|].tasks[t];
            && (task.reason != "" ==> Caused(states, steps, |steps|, t, task.reason))
            && (task.ctxDone && task.reason == "" ==> TimedOut(steps, |steps|, t))
  {
    RunAccounted(states, steps, |steps|);
  }
}
