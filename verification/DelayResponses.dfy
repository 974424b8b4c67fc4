/** What every delay test answers: over every interleaving the one response of a
    request is explained by the steps of its own run. */
module DelayResponses {
  import opened Wrappers
  import C = Catalog
  import opened DelayTasks
  import opened Induction

  /** A run as its steps and the states between them. */
  ghost predicate IsRun(states: seq<State>, steps: seq<Step>) {
    && |states| == |steps| + 1 && states[0] == EMPTY
    && forall j :: 0 <= j < |steps| ==> Inv(states[j]) && Enabled(states[j], steps[j]) && states[j + 1] == Apply(states[j], steps[j])
  }

  // ----- Explanations --------------------------------------------------------

  /** What the catalogs say to a request that registers. */
  function RefusedBecause(s: State, t: nat): Option<string>
    requires t in s.tasks
  {
    var task := s.tasks[t];
    var closed := task.owner.Some? && task.owner.value in s.catalogs.closedOwners;
    var gone := && task.entry.Some? && task.entry.value in s.catalogs.entries
                && (s.catalogs.entries[task.entry.value].retired || s.catalogs.stopped);
    if closed || gone then Some(if task.entry.Some? then "catalogNotFound" else "sessionClosed")
    else if task.key in s.table then Some("duplicateRequest")
    else None
  }

  /** Step `j` found out the result: it measured a delay, or could not look up. */
  predicate FoundAt(states: seq<State>, steps: seq<Step>, j: nat, t: nat, a: Answer)
    requires j < |steps| && j < |states|
  {
    match steps[j]
    case TestEndsStep(of, delay) => of == t && a == if delay != 0 then Answer(delay, "") else Answer(-1, "testFailed")
    case LookUpProxyStep(of, missing) => of == t && missing.Some? && a == Answer(-1, missing.value)
    case LookUpEntryStep(of) =>
      && of == t && t in states[j].tasks && states[j].tasks[t].entry.Some?
      && var c, e := states[j].catalogs, states[j].tasks[t].entry.value;
      if c.strictBlocked then a == Answer(-1, "strictModeUnsupported")
      else e in c.entries && (c.entries[e].retired || c.entries[e].key !in c.byKey || c.byKey[c.entries[e].key] != e)
           && a == Answer(-1, "catalogNotFound")
    case _ => false
  }

  /** Step `k` fixed the response: no slot, a refused registration, or the decision at
      the end, which puts a cancellation first, then the deadline unless the history was
      committed, then what was found. */
  predicate FixedAt(states: seq<State>, steps: seq<Step>, k: nat, t: nat, a: Answer)
    requires k < |steps| && k < |states|
  {
    match steps[k]
    case AdmitStep(of) => of == t && states[k].slots >= 150 && a == Answer(-1, "overloaded")
    case RegisterStep(of) =>
      of == t && t in states[k].tasks && RefusedBecause(states[k], t).Some? && a == Answer(-1, RefusedBecause(states[k], t).value)
    case DecideStep(of) =>
      && of == t && t in states[k].tasks
      && var task := states[k].tasks[t];
      if task.reason != "" then a == Answer(-1, task.reason)
      else if task.ctxDone && !task.committed then a == Answer(-1, "deadlineExceeded")
      else exists j :: 0 <= j < k && FoundAt(states, steps, j, t, a)
    case _ => false
  }

  predicate Found(states: seq<State>, steps: seq<Step>, n: nat, t: nat, a: Answer)
    requires n <= |steps| && n <= |states|
  {
    exists j :: 0 <= j < n && FoundAt(states, steps, j, t, a)
  }

  predicate Explained(states: seq<State>, steps: seq<Step>, n: nat, t: nat, a: Answer)
    requires n <= |steps| && n <= |states|
  {
    exists k :: 0 <= k < n && FixedAt(states, steps, k, t, a)
  }

  /** As far as a request has come, what it would answer is explained. */
  predicate Told(states: seq<State>, steps: seq<Step>, n: nat, t: nat, task: Task)
    requires n <= |steps| && n <= |states|
  {
    && (task.pc in {Asked, Admitted, Waiting} ==> !task.committed)
    && (task.pc in {Returning, Tested} ==> (task.ctxDone && !task.committed) || Found(states, steps, n, t, task.answer))
    && (task.pc in {Refused, Decided, SlotReturned, Done} ==> Explained(states, steps, n, t, task.answer))
  }

  // ----- One step ------------------------------------------------------------

  /** Nothing a response depends on has changed, except that the context may have ended. */
  predicate Untouched(a: Task, b: Task) {
    b.pc == a.pc && b.answer == a.answer && b.committed == a.committed && (a.ctxDone ==> b.ctxDone)
  }

  predicate Concerns(step: Step, t: nat) {
    (IsOwn(step) || IsShared(step)) && step.task == t
  }

  lemma OthersUntouched(s: State, step: Step, t: nat)
    requires WellFormed(s) && Enabled(s, step) && t in Apply(s, step).tasks && !Concerns(step, t)
    ensures t in s.tasks && Untouched(s.tasks[t], Apply(s, step).tasks[t])
  {
    if IsOwn(step) || IsShared(step) { RequestTouchesOne(s, step, t); } else { OuterUntouched(s, step, t); }
  }

  lemma OuterUntouched(s: State, step: Step, t: nat)
    requires WellFormed(s) && Enabled(s, step) && t in Apply(s, step).tasks && !IsOwn(step) && !IsShared(step)
    ensures t in s.tasks && Untouched(s.tasks[t], Apply(s, step).tasks[t])
  {
    match step
    case CancelKeyStep(key, why) => CancelKeyUntouched(s, key, why, t);
    case CancelAllStep(why) => CancelUntouched(s, why, (task: Task) => true, t);
    case CatalogStep(_) =>
    case CancelMatchingStep(c) => CancelUntouched(s, c.why, (task: Task) => Matches(c, task), t);
  }

  lemma CancelUntouched(s: State, why: string, which: Task -> bool, t: nat)
    requires t in CancelSome(s, why, which).tasks
    ensures t in s.tasks && Untouched(s.tasks[t], CancelSome(s, why, which).tasks[t])
  {
  }

  lemma CancelKeyUntouched(s: State, key: string, why: string, t: nat)
    requires (key in s.table ==> s.table[key] in s.tasks) && t in CancelKey(s, key, why).0.tasks
    ensures t in s.tasks && Untouched(s.tasks[t], CancelKey(s, key, why).0.tasks[t])
  {
  }

  lemma RequestTouchesOne(s: State, step: Step, t: nat)
    requires Enabled(s, step) && (IsOwn(step) || IsShared(step)) && step.task != t
    ensures IsOwn(step) ==> ApplyOwn(s, step).tasks.Keys - {step.task} == s.tasks.Keys - {step.task}
    ensures IsOwn(step) && t in s.tasks ==> ApplyOwn(s, step).tasks[t] == s.tasks[t]
    ensures IsShared(step) ==> ApplyShared(s, step).tasks.Keys - {step.task} == s.tasks.Keys - {step.task}
    ensures IsShared(step) && t in s.tasks ==> ApplyShared(s, step).tasks[t] == s.tasks[t]
  {
  }

  lemma ToldLater(states: seq<State>, steps: seq<Step>, n: nat, t: nat, a: Task, b: Task)
    requires n < |steps| && |states| == |steps| + 1 && Told(states, steps, n, t, a) && Untouched(a, b)
    ensures Told(states, steps, n + 1, t, b)
  {
  }

  /** A step of the request itself leaves it told: what it finds or fixes, it says why. */
  lemma OwnTold(states: seq<State>, steps: seq<Step>, n: nat, t: nat)
    requires n < |steps| && |states| == |steps| + 1 && IsOwn(steps[n]) && steps[n].task == t
    requires Enabled(states[n], steps[n]) && Told(states, steps, n, t, states[n].tasks[t])
    ensures t in ApplyOwn(states[n], steps[n]).tasks && Told(states, steps, n + 1, t, ApplyOwn(states[n], steps[n]).tasks[t])
  {
    var before, after := states[n].tasks[t], ApplyOwn(states[n], steps[n]).tasks[t];
    match steps[n]
    case TestEndsStep(_, delay) => assert FoundAt(states, steps, n, t, after.answer);
    case LookUpProxyStep(_, missing) => if missing.Some? { assert FoundAt(states, steps, n, t, after.answer); }
    case RespondStep(_) => assert Explained(states, steps, n, t, before.answer);
    case DeadlineStep(_) => ToldLater(states, steps, n, t, before, after);
    case _ =>
  }

  lemma AskedTold(states: seq<State>, steps: seq<Step>, n: nat, t: nat)
    requires n < |steps| && |states| == |steps| + 1 && IsShared(steps[n]) && steps[n].task == t
    requires Enabled(states[n], steps[n]) && (t in states[n].tasks ==> Told(states, steps, n, t, states[n].tasks[t]))
    requires steps[n].AskStep? || steps[n].AdmitStep? || steps[n].RegisterStep?
    ensures t in ApplyShared(states[n], steps[n]).tasks && Told(states, steps, n + 1, t, ApplyShared(states[n], steps[n]).tasks[t])
  {
    var after := ApplyShared(states[n], steps[n]).tasks[t];
    if after.pc == SlotReturned || after.pc == Refused { assert FixedAt(states, steps, n, t, after.answer); }
  }

  lemma LookedUpTold(states: seq<State>, steps: seq<Step>, n: nat, t: nat)
    requires n < |steps| && |states| == |steps| + 1 && steps[n] == LookUpEntryStep(t)
    requires Enabled(states[n], steps[n]) && Told(states, steps, n, t, states[n].tasks[t])
    ensures t in ApplyShared(states[n], steps[n]).tasks && Told(states, steps, n + 1, t, ApplyShared(states[n], steps[n]).tasks[t])
  {
    var after := ApplyShared(states[n], steps[n]).tasks[t];
    if after.pc == Tested && !after.ctxDone { assert FoundAt(states, steps, n, t, after.answer); }
  }

  lemma SharedTold(states: seq<State>, steps: seq<Step>, n: nat, t: nat)
    requires n < |steps| && |states| == |steps| + 1 && IsShared(steps[n]) && steps[n].task == t
    requires Enabled(states[n], steps[n]) && (t in states[n].tasks ==> Told(states, steps, n, t, states[n].tasks[t]))
    ensures t in ApplyShared(states[n], steps[n]).tasks && Told(states, steps, n + 1, t, ApplyShared(states[n], steps[n]).tasks[t])
  {
    match steps[n]
    case AskStep(_, _, _, _, _) => AskedTold(states, steps, n, t);
    case AdmitStep(_) => AskedTold(states, steps, n, t);
    case RegisterStep(_) => AskedTold(states, steps, n, t);
    case LookUpEntryStep(_) => LookedUpTold(states, steps, n, t);
    case DecideStep(_) => assert FixedAt(states, steps, n, t, ApplyShared(states[n], steps[n]).tasks[t].answer);
    case ReturnStep(_, _) => ToldReturned(states, steps, n, t, states[n].tasks[t]);
    case ReturnSlotStep(_) => assert Explained(states, steps, n, t, states[n].tasks[t].answer);
  }

  lemma ToldReturned(states: seq<State>, steps: seq<Step>, n: nat, t: nat, task: Task)
    requires n < |steps| && |states| == |steps| + 1 && Told(states, steps, n, t, task) && task.pc == Returning
    ensures Told(states, steps, n + 1, t, task.(pc := Tested))
  {
  }

  lemma StepTold(states: seq<State>, steps: seq<Step>, n: nat, t: nat)
    requires n < |steps| && |states| == |steps| + 1 && Inv(states[n]) && Enabled(states[n], steps[n])
    requires t in Apply(states[n], steps[n]).tasks
    requires t in states[n].tasks ==> Told(states, steps, n, t, states[n].tasks[t])
    ensures Told(states, steps, n + 1, t, Apply(states[n], steps[n]).tasks[t])
  {
    if !Concerns(steps[n], t) {
      OthersUntouched(states[n], steps[n], t);
      ToldLater(states, steps, n, t, states[n].tasks[t], Apply(states[n], steps[n]).tasks[t]);
    } else if IsOwn(steps[n]) {
      OwnTold(states, steps, n, t);
    } else {
      SharedTold(states, steps, n, t);
    }
  }

  predicate ToldAt(states: seq<State>, steps: seq<Step>, n: nat, t: nat)
    requires n <= |steps| && n < |states|
  {
    t in states[n].tasks ==> Told(states, steps, n, t, states[n].tasks[t])
  }

  lemma RunStepTold(states: seq<State>, steps: seq<Step>, n: nat, t: nat)
    requires IsRun(states, steps) && n < |steps| && ToldAt(states, steps, n, t)
    ensures ToldAt(states, steps, n + 1, t)
  {
    if t in states[n + 1].tasks { StepTold(states, steps, n, t); }
  }

  lemma RunTold(states: seq<State>, steps: seq<Step>, n: nat, t: nat)
    requires IsRun(states, steps) && n <= |steps|
    ensures ToldAt(states, steps, n, t)
  {
    var holds := (j: nat) => j <= |steps| && j < |states| && ToldAt(states, steps, j, t);
    forall j: nat | 0 <= j < n && holds(j) ensures holds(j + 1) { RunStepTold(states, steps, j, t); }
    Carried(holds, 0, n);
  }

  /** Over every run a finished request has exactly one response, and it is explained: by
      the full house, the refused registration, or the decision, and then by the first
      cancellation, the passed deadline, or what the request itself measured or missed. */
  lemma EveryResponseIsExplained(states: seq<State>, steps: seq<Step>, t: nat)
    requires IsRun(states, steps) && t in states[|steps|].tasks && states[|steps|].tasks[t].pc == Done
    ensures Inv(states[|steps|])
    ensures var task := states[|steps|].tasks[t];
            |task.responses| == 1 && Explained(states, steps, |steps|, t, task.responses[0])
  {
    RunTold(states, steps, |steps|, t);
    if |steps| > 0 { StepKeeps(states[|steps| - 1], steps[|steps| - 1]); } else { EmptyOk(); }
    assert TaskOk(states[|steps|].tasks[t]);
  }
}
