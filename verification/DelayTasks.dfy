/** The Core's delay tests: admission slots, the table of running requests, and
    cancellation racing with the history commit. One step per critical section. */
module DelayTasks {
  import opened Wrappers
  import C = Catalog

  const MAX_DELAY_TASKS: nat := 150

  datatype Pc =
    | Asked | Admitted | Refused
    | Waiting | Testing | Returning | Tested
    | Decided | SlotReturned | Done

  datatype Answer = Answer(value: int, reason: string)

  /** `reason` is the cancellation reason and `ctxDone` says the context was
      cancelled or its deadline passed; `answer` is the result being built. */
  datatype Task = Task(
    key: string,
    owner: Option<nat>,
    entry: Option<nat>,
    hasRequestId: bool,
    pc: Pc,
    reason: string,
    ctxDone: bool,
    committed: bool,
    answer: Answer,
    responses: seq<Answer>)

  datatype Cancel = ByOwner(owner: Option<nat>, why: string) | ByEntry(entry: nat, why: string)

  /** `cancels` is what the holder of the catalog lock has still to cancel before
      it lets go; `ended` names the entries released, cleared or strict-blocked. */
  datatype State = State(
    catalogs: C.Catalogs,
    cancels: set<Cancel>,
    ended: set<nat>,
    table: map<string, nat>,
    tasks: map<nat, Task>,
    slots: int)

  const EMPTY: State := State(C.EMPTY, {}, {}, map[], map[], 0)

  predicate HoldsSlot(t: Task) {
    t.pc in {Admitted, Refused, Waiting, Testing, Returning, Tested, Decided}
  }

  predicate Registered(t: Task) {
    t.pc in {Waiting, Testing, Returning, Tested}
  }

  predicate HoldsReference(t: Task) {
    t.entry.Some? && t.pc in {Testing, Returning}
  }

  function Failed(reason: string): Answer {
    Answer(-1, reason)
  }

  function With(s: State, t: nat, task: Task): State {
    s.(tasks := s.tasks[t := task])
  }

  // ----- The request's own steps ---------------------------------------------

  function Ask(s: State, t: nat, key: string, owner: Option<nat>, entry: Option<nat>, hasRequestId: bool): State {
    With(s, t, Task(key, owner, entry, hasRequestId, Asked, "", false, false, Failed(""), []))
  }

  function Admit(s: State, t: nat): State
    requires t in s.tasks
  {
    if s.slots < MAX_DELAY_TASKS then With(s, t, s.tasks[t].(pc := Admitted)).(slots := s.slots + 1)
    else With(s, t, s.tasks[t].(pc := SlotReturned, answer := Failed("overloaded")))
  }

  predicate CannotRegister(s: State, task: Task) {
    || C.IsClosed(s.catalogs, task.owner)
    || (task.entry.Some? && task.entry.value in s.catalogs.entries
        && (s.catalogs.entries[task.entry.value].retired || s.catalogs.stopped))
  }

  /** Registration holds the catalog lock, so it cannot slip in behind a close. */
  function Register(s: State, t: nat): State
    requires t in s.tasks
  {
    var task := s.tasks[t];
    if CannotRegister(s, task) then
      With(s, t, task.(pc := Refused, answer := Failed(if task.entry.Some? then "catalogNotFound" else "sessionClosed")))
    else if task.key in s.table then With(s, t, task.(pc := Refused, answer := Failed("duplicateRequest")))
    else With(s, t, task.(pc := Waiting)).(table := s.table[task.key := t])
  }

  /** The context ended before the proxy was looked up. */
  function GiveUp(s: State, t: nat): State
    requires t in s.tasks
  {
    With(s, t, s.tasks[t].(pc := Tested))
  }

  function LookupReason(found: C.Lookup): string {
    match found
    case Blocked => "strictModeUnsupported"
    case NotFound => "catalogNotFound"
    case DeadlineExceeded => "deadlineExceeded"
    case Found => ""
  }

  function LookUpEntry(s: State, t: nat): State
    requires t in s.tasks && s.tasks[t].entry.Some? && s.tasks[t].entry.value in s.catalogs.entries
  {
    var (catalogs, found) := C.Acquire(s.catalogs, t, s.tasks[t].entry.value, s.tasks[t].ctxDone);
    if found == C.Found then With(s, t, s.tasks[t].(pc := Testing)).(catalogs := catalogs)
    else With(s, t, s.tasks[t].(pc := Tested, answer := Failed(LookupReason(found))))
  }

  /** A proxy of the running configuration: found, or the reason it is not. */
  function LookUpProxy(s: State, t: nat, missing: Option<string>): State
    requires t in s.tasks
  {
    if missing.None? then With(s, t, s.tasks[t].(pc := Testing))
    else With(s, t, s.tasks[t].(pc := Tested, answer := Failed(missing.value)))
  }

  /** The history commit of an explicit test: refused once cancelled or late. */
  function CommitHistory(s: State, t: nat): State
    requires t in s.tasks
  {
    if s.tasks[t].reason != "" || s.tasks[t].ctxDone then s else With(s, t, s.tasks[t].(committed := true))
  }

  function TestEnds(s: State, t: nat, delay: nat): State
    requires t in s.tasks
  {
    With(s, t, s.tasks[t].(pc := if s.tasks[t].entry.Some? then Returning else Tested,
                           answer := if delay != 0 then Answer(delay, "") else Failed("testFailed")))
  }

  function ReturnReference(s: State, t: nat, e: nat, now: nat): State
    requires t in s.tasks && e in s.catalogs.entries
  {
    With(s, t, s.tasks[t].(pc := Tested)).(catalogs := C.GiveBack(s.catalogs, t, e, now))
  }

  function Decision(task: Task): Answer {
    if task.reason != "" then Failed(task.reason)
    else if task.ctxDone && !task.committed then Failed("deadlineExceeded")
    else task.answer
  }

  /** Completion is decided under the lock cancellation takes. */
  function Decide(s: State, t: nat): State
    requires t in s.tasks
  {
    With(s, t, s.tasks[t].(pc := Decided, answer := Decision(s.tasks[t]))).(table := s.table - {s.tasks[t].key})
  }

  function ReturnSlot(s: State, t: nat): State
    requires t in s.tasks
  {
    With(s, t, s.tasks[t].(pc := SlotReturned)).(slots := s.slots - 1)
  }

  function Respond(s: State, t: nat): State
    requires t in s.tasks
  {
    With(s, t, s.tasks[t].(pc := Done, responses := s.tasks[t].responses + [s.tasks[t].answer]))
  }

  function PassDeadline(s: State, t: nat): State
    requires t in s.tasks
  {
    With(s, t, s.tasks[t].(ctxDone := true))
  }

  // ----- Cancellation --------------------------------------------------------

  function Cancelled(task: Task, why: string): Task {
    if task.committed then task
    else task.(reason := if task.reason == "" then why else task.reason, ctxDone := true)
  }

  function CancelKey(s: State, key: string, why: string): (State, bool)
    requires key in s.table ==> s.table[key] in s.tasks
  {
    if key !in s.table || s.tasks[s.table[key]].committed then (s, false)
    else (With(s, s.table[key], Cancelled(s.tasks[s.table[key]], why)), true)
  }

  predicate InTable(s: State, t: nat)
    requires t in s.tasks
  {
    s.tasks[t].key in s.table && s.table[s.tasks[t].key] == t
  }

  /** Cancels every registered task that `which` picks, in one critical section. */
  function CancelSome(s: State, why: string, which: Task -> bool): State {
    s.(tasks := map t | t in s.tasks ::
         if InTable(s, t) && which(s.tasks[t]) then Cancelled(s.tasks[t], why) else s.tasks[t])
  }

  function CancelAll(s: State, why: string): State {
    CancelSome(s, why, (task: Task) => true)
  }

  predicate Matches(c: Cancel, task: Task) {
    match c
    case ByOwner(owner, _) => task.owner == owner
    case ByEntry(entry, _) => task.entry == Some(entry)
  }

  function CancelMatching(s: State, c: Cancel): State {
    CancelSome(s, c.why, (task: Task) => Matches(c, task)).(cancels := s.cancels - {c})
  }

  /** The cancellations a catalog step does before it releases the catalog lock. */
  function CancelsOf(c: C.Catalogs, step: C.Step): set<Cancel> {
    match step
    case ReleaseKey(key) => if key in c.byKey then {ByEntry(c.byKey[key], "cancelled")} else {}
    case OwnerGone(owner) => {ByOwner(owner, "sessionClosed")}
    case ClearAll(_) => set e | e in c.byKey.Values :: ByEntry(e, "sessionClosed")
    case StrictBlock(blocked) => if blocked then set e | e in c.byKey.Values :: ByEntry(e, "strictModeUnsupported") else {}
    case _ => {}
  }

  function EndedBy(c: C.Catalogs, step: C.Step): set<nat> {
    match step
    case ReleaseKey(key) => if key in c.byKey then {c.byKey[key]} else {}
    case ClearAll(_) => c.byKey.Values
    case StrictBlock(blocked) => if blocked then c.byKey.Values else {}
    case _ => {}
  }

  function ChangeCatalogs(s: State, step: C.Step): State
    requires C.WellMapped(s.catalogs) && C.Enabled(s.catalogs, step)
  {
    s.(catalogs := C.Apply(s.catalogs, step),
       cancels := s.cancels + CancelsOf(s.catalogs, step),
       ended := s.ended + EndedBy(s.catalogs, step))
  }

  // ----- Steps ---------------------------------------------------------------

  datatype Step =
    | AskStep(task: nat, key: string, owner: Option<nat>, entry: Option<nat>, hasRequestId: bool)
    | AdmitStep(task: nat)
    | RegisterStep(task: nat)
    | GiveUpStep(task: nat)
    | LookUpEntryStep(task: nat)
    | LookUpProxyStep(task: nat, missing: Option<string>)
    | CommitStep(task: nat)
    | TestEndsStep(task: nat, delay: nat)
    | ReturnStep(task: nat, now: nat)
    | DecideStep(task: nat)
    | ReturnSlotStep(task: nat)
    | RespondStep(task: nat)
    | DeadlineStep(task: nat)
    | CancelKeyStep(key: string, why: string)
    | CancelAllStep(why: string)
    | CatalogStep(step: C.Step)
    | CancelMatchingStep(cancel: Cancel)

  predicate At(s: State, t: nat, pc: Pc) {
    t in s.tasks && s.tasks[t].pc == pc
  }

  /** The catalog lock is free exactly when no cancellation is outstanding. */
  predicate Unlocked(s: State) {
    s.cancels == {}
  }

  predicate EntryKnown(s: State, t: nat)
    requires t in s.tasks
  {
    s.tasks[t].entry.Some? && Built(s.catalogs, s.tasks[t].entry.value)
  }

  /** A request is only ever made for a catalog that has been built. */
  predicate Built(c: C.Catalogs, e: nat) {
    e in c.entries && !c.entries[e].building
  }

  predicate Enabled(s: State, step: Step) {
    match step
    case AskStep(t, key, owner, entry, _) =>
      && t !in s.tasks
      && (entry.Some? ==>
            && entry.value in s.catalogs.entries && !s.catalogs.entries[entry.value].building
            && s.catalogs.entries[entry.value].key.owner == owner)
    case AdmitStep(t) => At(s, t, Asked)
    case RegisterStep(t) => At(s, t, Admitted) && Unlocked(s)
    case GiveUpStep(t) => At(s, t, Waiting) && s.tasks[t].ctxDone
    case LookUpEntryStep(t) => At(s, t, Waiting) && EntryKnown(s, t) && Unlocked(s)
    case LookUpProxyStep(t, missing) => At(s, t, Waiting) && s.tasks[t].entry.None?
    case CommitStep(t) => At(s, t, Testing) && s.tasks[t].hasRequestId
    case TestEndsStep(t, delay) => At(s, t, Testing)
    case ReturnStep(t, now) => At(s, t, Returning) && EntryKnown(s, t) && Unlocked(s)
    case DecideStep(t) => At(s, t, Tested)
    case ReturnSlotStep(t) => At(s, t, Refused) || At(s, t, Decided)
    case RespondStep(t) => At(s, t, SlotReturned)
    case DeadlineStep(t) => t in s.tasks
    case CancelKeyStep(key, why) => why != ""
    case CancelAllStep(why) => why != ""
    case CatalogStep(step) => !step.Look? && !step.Return? && C.Enabled(s.catalogs, step) && (step.CloseOne? || Unlocked(s))
    case CancelMatchingStep(c) => c in s.cancels
  }

  predicate IsOwn(step: Step) {
    step.GiveUpStep? || step.LookUpProxyStep? || step.CommitStep? || step.TestEndsStep? || step.RespondStep? || step.DeadlineStep?
  }

  predicate IsShared(step: Step) {
    || step.AskStep? || step.AdmitStep? || step.RegisterStep? || step.LookUpEntryStep? || step.ReturnStep?
    || step.DecideStep? || step.ReturnSlotStep?
  }

  /** The steps of one request that touch nothing shared. */
  function ApplyOwn(s: State, step: Step): State
    requires Enabled(s, step) && IsOwn(step)
  {
    match step
    case GiveUpStep(t) => GiveUp(s, t)
    case LookUpProxyStep(t, missing) => LookUpProxy(s, t, missing)
    case CommitStep(t) => CommitHistory(s, t)
    case TestEndsStep(t, delay) => TestEnds(s, t, delay)
    case RespondStep(t) => Respond(s, t)
    case DeadlineStep(t) => PassDeadline(s, t)
  }

  /** The steps of one request that take or give back something shared. */
  function ApplyShared(s: State, step: Step): State
    requires Enabled(s, step) && IsShared(step)
  {
    match step
    case AskStep(t, key, owner, entry, hasRequestId) => Ask(s, t, key, owner, entry, hasRequestId)
    case AdmitStep(t) => Admit(s, t)
    case RegisterStep(t) => Register(s, t)
    case LookUpEntryStep(t) => LookUpEntry(s, t)
    case ReturnStep(t, now) => ReturnReference(s, t, s.tasks[t].entry.value, now)
    case DecideStep(t) => Decide(s, t)
    case ReturnSlotStep(t) => ReturnSlot(s, t)
  }

  predicate WellFormed(s: State) {
    C.WellMapped(s.catalogs) && forall k :: k in s.table ==> s.table[k] in s.tasks
  }

  function Apply(s: State, step: Step): State
    requires WellFormed(s) && Enabled(s, step)
  {
    match step
    case CancelKeyStep(key, why) => CancelKey(s, key, why).0
    case CancelAllStep(why) => CancelAll(s, why)
    case CatalogStep(step) => ChangeCatalogs(s, step)
    case CancelMatchingStep(c) => CancelMatching(s, c)
    case AskStep(_, _, _, _, _) => ApplyShared(s, step)
    case AdmitStep(_) => ApplyShared(s, step)
    case RegisterStep(_) => ApplyShared(s, step)
    case LookUpEntryStep(_) => ApplyShared(s, step)
    case ReturnStep(_, _) => ApplyShared(s, step)
    case DecideStep(_) => ApplyShared(s, step)
    case ReturnSlotStep(_) => ApplyShared(s, step)
    case _ => ApplyOwn(s, step)
  }

  // ----- The invariant -------------------------------------------------------

  function SlotHolders(s: State): set<nat> {
    set t | t in s.tasks && HoldsSlot(s.tasks[t])
  }

  predicate SlotsOk(s: State) {
    s.slots == |SlotHolders(s)| <= MAX_DELAY_TASKS
  }

  predicate TableOk(s: State) {
    && (forall k :: k in s.table ==> s.table[k] in s.tasks && s.tasks[s.table[k]].key == k && Registered(s.tasks[s.table[k]]))
    && (forall t :: t in s.tasks && Registered(s.tasks[t]) ==> InTable(s, t))
  }

  /** Never both committed and cancelled; one response, and the cancelled one. */
  predicate TaskOk(t: Task) {
    && (t.reason != "" ==> !t.committed && t.ctxDone)
    && (t.committed ==> t.hasRequestId)
    && (t.pc in {Asked, Admitted} ==> t.reason == "" && !t.committed)
    && (t.pc == Returning ==> t.entry.Some?)
    && (t.reason != "" && !Registered(t) ==> t.answer == Failed(t.reason))
    && t.responses == (if t.pc == Done then [t.answer] else [])
  }

  predicate TasksOk(s: State) {
    forall t :: t in s.tasks ==> TaskOk(s.tasks[t])
  }

  ghost predicate ReferencesOk(s: State) {
    && (forall t :: t in s.tasks && s.tasks[t].entry.Some? ==> Built(s.catalogs, s.tasks[t].entry.value))
    && (forall t :: t in s.catalogs.holders <==> t in s.tasks && HoldsReference(s.tasks[t]))
    && (forall t :: t in s.catalogs.holders ==> s.tasks[t].entry == Some(s.catalogs.holders[t]))
  }

  /** What a close, a release, a clear or a strict block ends. */
  predicate Ended(s: State, task: Task) {
    C.IsClosed(s.catalogs, task.owner) || (task.entry.Some? && task.entry.value in s.ended)
  }

  predicate Settled(task: Task) {
    task.reason != "" || task.committed
  }

  predicate AboutToCancel(s: State, task: Task) {
    exists c :: c in s.cancels && Matches(c, task)
  }

  predicate EndingsOk(s: State) {
    && (forall t :: t in s.tasks && Registered(s.tasks[t]) && Ended(s, s.tasks[t]) ==>
          Settled(s.tasks[t]) || AboutToCancel(s, s.tasks[t]))
    && (forall e :: e in s.ended ==> e in s.catalogs.entries && s.catalogs.entries[e].retired)
    && (forall c :: c in s.cancels ==> c.why != "")
  }

  /** What the table of tests promises on its own, whatever the catalogs promise. */
  ghost predicate TableInv(s: State) {
    SlotsOk(s) && TableOk(s) && TasksOk(s) && EndingsOk(s)
  }

  ghost predicate Inv(s: State) {
    C.Inv(s.catalogs) && TableInv(s) && ReferencesOk(s)
  }

  lemma ReferenceIsHeld(s: State, t: nat)
    requires TasksOk(s) && ReferencesOk(s) && At(s, t, Returning)
    ensures t in s.catalogs.holders
  {
    assert TaskOk(s.tasks[t]);
  }

  // ----- Every step keeps the invariant --------------------------------------

  /** A change of one task that moves it nowhere the other parts of the state can see. */
  predicate Quiet(before: Task, after: Task) {
    && after.key == before.key && after.owner == before.owner && after.entry == before.entry
    && HoldsSlot(after) == HoldsSlot(before)
    && Registered(after) == Registered(before)
    && HoldsReference(after) == HoldsReference(before)
    && (Settled(before) ==> Settled(after))
    && TaskOk(after)
  }

  lemma QuietSlots(s: State, t: nat, task: Task)
    requires SlotsOk(s) && t in s.tasks && HoldsSlot(task) == HoldsSlot(s.tasks[t])
    ensures SlotsOk(With(s, t, task))
  {
    assert SlotHolders(With(s, t, task)) == SlotHolders(s);
  }

  lemma QuietTable(s: State, t: nat, task: Task)
    requires TableOk(s) && t in s.tasks && Registered(task) == Registered(s.tasks[t]) && task.key == s.tasks[t].key
    ensures TableOk(With(s, t, task))
  {
    var s' := With(s, t, task);
    forall u | u in s'.tasks && Registered(s'.tasks[u]) ensures InTable(s', u) {
      assert InTable(s, u);
    }
  }

  lemma QuietEndings(s: State, t: nat, task: Task)
    requires EndingsOk(s) && t in s.tasks && Quiet(s.tasks[t], task)
    ensures EndingsOk(With(s, t, task))
  {
    var s' := With(s, t, task);
    forall u | u in s'.tasks && Registered(s'.tasks[u]) && Ended(s', s'.tasks[u])
      ensures Settled(s'.tasks[u]) || AboutToCancel(s', s'.tasks[u])
    {
      assert Ended(s, s.tasks[u]);
      if !Settled(s.tasks[u]) {
        var c :| c in s.cancels && Matches(c, s.tasks[u]);
        assert c in s'.cancels && Matches(c, s'.tasks[u]);
      }
    }
  }

  lemma QuietReferences(s: State, s': State, t: nat, task: Task)
    requires ReferencesOk(s) && s'.catalogs == s.catalogs && s'.tasks == s.tasks[t := task]
    requires t in s.tasks ==> task.entry == s.tasks[t].entry && HoldsReference(task) == HoldsReference(s.tasks[t])
    requires t !in s.tasks ==> !HoldsReference(task) && (task.entry.Some? ==> Built(s.catalogs, task.entry.value))
    ensures ReferencesOk(s')
  {
  }

  lemma QuietKeeps(s: State, t: nat, task: Task)
    requires TableInv(s) && ReferencesOk(s) && t in s.tasks && Quiet(s.tasks[t], task)
    ensures TableInv(With(s, t, task)) && ReferencesOk(With(s, t, task))
  {
    QuietSlots(s, t, task);
    QuietTable(s, t, task);
    QuietEndings(s, t, task);
    QuietReferences(s, With(s, t, task), t, task);
  }

  lemma OwnIsQuiet(s: State, step: Step)
    requires IsOwn(step) && Enabled(s, step) && TaskOk(s.tasks[step.task])
    ensures step.task in ApplyOwn(s, step).tasks
    ensures Quiet(s.tasks[step.task], ApplyOwn(s, step).tasks[step.task])
    ensures ApplyOwn(s, step) == With(s, step.task, ApplyOwn(s, step).tasks[step.task])
  {
    assert s == With(s, step.task, s.tasks[step.task]);
  }

  lemma OwnKeeps(s: State, step: Step)
    requires Inv(s) && Enabled(s, step) && IsOwn(step)
    ensures Inv(ApplyOwn(s, step))
  {
    OwnIsQuiet(s, step);
    QuietKeeps(s, step.task, ApplyOwn(s, step).tasks[step.task]);
  }

  lemma CancelledIsQuiet(task: Task, why: string)
    requires TaskOk(task) && Registered(task) && why != ""
    ensures Quiet(task, Cancelled(task, why))
  {
  }

  lemma CancelKeyKeeps(s: State, key: string, why: string)
    requires TableInv(s) && ReferencesOk(s) && why != ""
    ensures TableInv(CancelKey(s, key, why).0) && ReferencesOk(CancelKey(s, key, why).0)
    ensures CancelKey(s, key, why).0.catalogs == s.catalogs
  {
    if CancelKey(s, key, why).1 {
      var t := s.table[key];
      assert TaskOk(s.tasks[t]);
      CancelledIsQuiet(s.tasks[t], why);
      QuietKeeps(s, t, Cancelled(s.tasks[t], why));
    }
  }

  /** Changing many tasks at once, none of them visibly to the rest of the state. */
  lemma ManyQuietSlots(s: State, s': State)
    requires SlotsOk(s) && s'.slots == s.slots && s'.tasks.Keys == s.tasks.Keys
    requires forall t :: t in s.tasks ==> HoldsSlot(s'.tasks[t]) == HoldsSlot(s.tasks[t])
    ensures SlotsOk(s')
  {
    assert SlotHolders(s') == SlotHolders(s);
  }

  lemma ManyQuietTable(s: State, s': State)
    requires TableOk(s) && s'.table == s.table && s'.tasks.Keys == s.tasks.Keys
    requires forall t :: t in s.tasks ==> s'.tasks[t].key == s.tasks[t].key && Registered(s'.tasks[t]) == Registered(s.tasks[t])
    ensures TableOk(s')
  {
    forall u | u in s'.tasks && Registered(s'.tasks[u]) ensures InTable(s', u) {
      assert InTable(s, u);
    }
  }

  lemma ManyQuietReferences(s: State, s': State)
    requires ReferencesOk(s) && s'.catalogs == s.catalogs && s'.tasks.Keys == s.tasks.Keys
    requires forall t :: t in s.tasks ==> s'.tasks[t].entry == s.tasks[t].entry && HoldsReference(s'.tasks[t]) == HoldsReference(s.tasks[t])
    ensures ReferencesOk(s')
  {
  }

  lemma CancelSomeQuiet(s: State, why: string, which: Task -> bool, t: nat)
    requires TableOk(s) && TasksOk(s) && why != "" && t in s.tasks
    ensures Quiet(s.tasks[t], CancelSome(s, why, which).tasks[t])
  {
    assert TaskOk(s.tasks[t]);
  }

  lemma CancelSomeKeeps(s: State, why: string, which: Task -> bool)
    requires Inv(s) && why != ""
    ensures Inv(CancelSome(s, why, which))
  {
    var s' := CancelSome(s, why, which);
    forall t | t in s.tasks ensures Quiet(s.tasks[t], s'.tasks[t]) {
      CancelSomeQuiet(s, why, which, t);
    }
    ManyQuietSlots(s, s');
    ManyQuietTable(s, s');
    ManyQuietReferences(s, s');
    ManyQuietEndings(s, s');
  }

  lemma ManyQuietEndings(s: State, s': State)
    requires EndingsOk(s) && s'.tasks.Keys == s.tasks.Keys
    requires s'.catalogs == s.catalogs && s'.cancels == s.cancels && s'.ended == s.ended
    requires forall t :: t in s.tasks ==> Quiet(s.tasks[t], s'.tasks[t])
    ensures EndingsOk(s')
  {
    forall u | u in s'.tasks && Registered(s'.tasks[u]) && Ended(s', s'.tasks[u])
      ensures Settled(s'.tasks[u]) || AboutToCancel(s', s'.tasks[u])
    {
      assert Quiet(s.tasks[u], s'.tasks[u]);
      assert Ended(s, s.tasks[u]);
      if !Settled(s.tasks[u]) {
        var c :| c in s.cancels && Matches(c, s.tasks[u]);
        assert c in s'.cancels && Matches(c, s'.tasks[u]);
      }
    }
  }

  lemma CancelMatchingKeeps(s: State, c: Cancel)
    requires Inv(s) && c in s.cancels
    ensures Inv(CancelMatching(s, c))
  {
    var which := (task: Task) => Matches(c, task);
    CancelSomeKeeps(s, c.why, which);
    CancelMatchingEndings(s, c, CancelSome(s, c.why, which));
    var s' := CancelMatching(s, c);
    ManyQuietSlots(CancelSome(s, c.why, which), s');
    ManyQuietTable(CancelSome(s, c.why, which), s');
  }

  lemma CancelMatchingEndings(s: State, c: Cancel, m: State)
    requires TableOk(s) && c in s.cancels && EndingsOk(m) && EndingsOk(s)
    requires m == CancelSome(s, c.why, (task: Task) => Matches(c, task))
    ensures EndingsOk(m.(cancels := s.cancels - {c}))
  {
    var s' := m.(cancels := s.cancels - {c});
    forall t | t in s'.tasks && Registered(s'.tasks[t]) && Ended(s', s'.tasks[t])
      ensures Settled(s'.tasks[t]) || AboutToCancel(s', s'.tasks[t])
    {
      assert Ended(m, m.tasks[t]);
      if !Settled(m.tasks[t]) {
        var d :| d in m.cancels && Matches(d, m.tasks[t]);
        assert InTable(s, t);
        assert d != c;
        assert d in s'.cancels && Matches(d, s'.tasks[t]);
      }
    }
  }

  // ----- Shared steps --------------------------------------------------------

  /** The task is not registered afterwards, so nothing new can be left uncancelled. */
  lemma LeavingEndings(s: State, s': State, t: nat, task: Task)
    requires EndingsOk(s) && !Registered(task) && s'.tasks == s.tasks[t := task]
    requires s'.catalogs == s.catalogs && s'.cancels == s.cancels && s'.ended == s.ended
    ensures EndingsOk(s')
  {
    forall u | u in s'.tasks && Registered(s'.tasks[u]) && Ended(s', s'.tasks[u])
      ensures Settled(s'.tasks[u]) || AboutToCancel(s', s'.tasks[u])
    {
      assert Ended(s, s.tasks[u]);
      if !Settled(s.tasks[u]) {
        var c :| c in s.cancels && Matches(c, s.tasks[u]);
        assert c in s'.cancels && Matches(c, s'.tasks[u]);
      }
    }
  }

  lemma UnregisteredTable(s: State, s': State, t: nat, task: Task)
    requires TableOk(s) && !Registered(task) && s'.table == s.table && s'.tasks == s.tasks[t := task]
    requires t in s.tasks ==> !Registered(s.tasks[t])
    ensures TableOk(s')
  {
    forall u | u in s'.tasks && Registered(s'.tasks[u]) ensures InTable(s', u) {
      assert InTable(s, u);
    }
  }

  lemma TakenSlot(s: State, s': State, t: nat, task: Task)
    requires SlotsOk(s) && s.slots < MAX_DELAY_TASKS && HoldsSlot(task) && (t in s.tasks ==> !HoldsSlot(s.tasks[t]))
    requires s'.tasks == s.tasks[t := task] && s'.slots == s.slots + 1
    ensures SlotsOk(s')
  {
    assert SlotHolders(s') == SlotHolders(s) + {t};
  }

  lemma FreedSlot(s: State, s': State, t: nat, task: Task)
    requires SlotsOk(s) && !HoldsSlot(task) && t in s.tasks && HoldsSlot(s.tasks[t])
    requires s'.tasks == s.tasks[t := task] && s'.slots == s.slots - 1
    ensures SlotsOk(s')
  {
    assert SlotHolders(s') == SlotHolders(s) - {t};
  }

  lemma AskKeeps(s: State, t: nat, key: string, owner: Option<nat>, entry: Option<nat>, hasRequestId: bool)
    requires TableInv(s) && ReferencesOk(s) && Enabled(s, AskStep(t, key, owner, entry, hasRequestId))
    ensures TableInv(Ask(s, t, key, owner, entry, hasRequestId)) && ReferencesOk(Ask(s, t, key, owner, entry, hasRequestId))
  {
    var s' := Ask(s, t, key, owner, entry, hasRequestId);
    LeavingEndings(s, s', t, s'.tasks[t]);
    UnregisteredTable(s, s', t, s'.tasks[t]);
    QuietReferences(s, s', t, s'.tasks[t]);
    assert SlotHolders(s') == SlotHolders(s);
  }

  lemma AdmitKeeps(s: State, t: nat)
    requires TableInv(s) && Enabled(s, AdmitStep(t))
    ensures TableInv(Admit(s, t))
  {
    var s' := Admit(s, t);
    assert TaskOk(s.tasks[t]);
    LeavingEndings(s, s', t, s'.tasks[t]);
    UnregisteredTable(s, s', t, s'.tasks[t]);
    if s.slots < MAX_DELAY_TASKS {
      TakenSlot(s, s', t, s'.tasks[t]);
    } else {
      QuietSlots(s, t, s'.tasks[t]);
    }
  }

  lemma ReturnSlotKeeps(s: State, t: nat)
    requires TableInv(s) && Enabled(s, ReturnSlotStep(t))
    ensures TableInv(ReturnSlot(s, t))
  {
    var s' := ReturnSlot(s, t);
    assert TaskOk(s.tasks[t]);
    LeavingEndings(s, s', t, s'.tasks[t]);
    UnregisteredTable(s, s', t, s'.tasks[t]);
    FreedSlot(s, s', t, s'.tasks[t]);
  }

  lemma DecideKeeps(s: State, t: nat)
    requires TableInv(s) && Enabled(s, DecideStep(t))
    ensures TableInv(Decide(s, t))
  {
    var s' := Decide(s, t);
    assert TaskOk(s.tasks[t]);
    LeavingEndings(s, s'.(table := s.table), t, s'.tasks[t]);
    DecidedTable(s, t, s'.tasks[t]);
    QuietSlots(s, t, s'.tasks[t]);
    assert SlotHolders(s') == SlotHolders(With(s, t, s'.tasks[t]));
  }

  lemma DecidedTable(s: State, t: nat, task: Task)
    requires TableOk(s) && t in s.tasks && Registered(s.tasks[t]) && !Registered(task)
    ensures TableOk(With(s, t, task).(table := s.table - {s.tasks[t].key}))
  {
    var s' := With(s, t, task).(table := s.table - {s.tasks[t].key});
    assert InTable(s, t);
    forall u | u in s'.tasks && Registered(s'.tasks[u]) ensures InTable(s', u) {
      assert InTable(s, u);
    }
  }

  lemma RegisteredTable(s: State, t: nat, task: Task)
    requires TableOk(s) && t in s.tasks && !Registered(s.tasks[t]) && Registered(task)
    requires task.key !in s.table
    ensures TableOk(With(s, t, task).(table := s.table[task.key := t]))
  {
    var s' := With(s, t, task).(table := s.table[task.key := t]);
    forall u | u in s'.tasks && Registered(s'.tasks[u]) ensures InTable(s', u) {
      if u != t {
        assert InTable(s, u);
      }
    }
  }

  /** Registration looked at the catalog under its lock: what it lets in is not ended. */
  lemma RegisteredEndings(s: State, s': State, t: nat, task: Task)
    requires EndingsOk(s) && s.cancels == {} && s'.tasks == s.tasks[t := task]
    requires !CannotRegister(s, task) && (task.entry.Some? ==> task.entry.value in s.catalogs.entries)
    requires s'.catalogs == s.catalogs && s'.cancels == s.cancels && s'.ended == s.ended
    ensures EndingsOk(s')
  {
    forall u | u in s'.tasks && Registered(s'.tasks[u]) && Ended(s', s'.tasks[u])
      ensures Settled(s'.tasks[u]) || AboutToCancel(s', s'.tasks[u])
    {
      assert u != t;
      assert Ended(s, s.tasks[u]);
      assert !AboutToCancel(s, s.tasks[u]);
    }
  }

  lemma RefusedKeeps(s: State, t: nat, task: Task)
    requires TableInv(s) && At(s, t, Admitted) && task.pc == Refused && TaskOk(task)
    ensures TableInv(With(s, t, task))
  {
    QuietSlots(s, t, task);
    LeavingEndings(s, With(s, t, task), t, task);
    UnregisteredTable(s, With(s, t, task), t, task);
  }

  lemma AcceptedKeeps(s: State, t: nat, task: Task)
    requires TableInv(s) && At(s, t, Admitted) && task.pc == Waiting && TaskOk(task) && s.cancels == {}
    requires task.key !in s.table && !CannotRegister(s, task)
    requires task.entry.Some? ==> task.entry.value in s.catalogs.entries
    ensures TableInv(With(s, t, task).(table := s.table[task.key := t]))
  {
    var s' := With(s, t, task).(table := s.table[task.key := t]);
    QuietSlots(s, t, task);
    assert SlotHolders(s') == SlotHolders(With(s, t, task));
    RegisteredTable(s, t, task);
    RegisteredEndings(s, s', t, task);
  }

  lemma RegisterKeeps(s: State, t: nat)
    requires TableInv(s) && ReferencesOk(s) && Enabled(s, RegisterStep(t))
    ensures TableInv(Register(s, t))
  {
    var task := Register(s, t).tasks[t];
    assert TaskOk(s.tasks[t]);
    if task.pc == Waiting {
      AcceptedKeeps(s, t, task);
    } else {
      RefusedKeeps(s, t, task);
    }
  }

  // ----- Steps of the catalogs -----------------------------------------------

  lemma MovedEndings(s: State, s': State)
    requires EndingsOk(s) && s'.cancels == s.cancels && s'.ended == s.ended && s'.tasks.Keys == s.tasks.Keys
    requires forall t :: t in s.tasks ==>
      && s'.tasks[t].owner == s.tasks[t].owner && s'.tasks[t].entry == s.tasks[t].entry
      && Registered(s'.tasks[t]) == Registered(s.tasks[t]) && Settled(s'.tasks[t]) == Settled(s.tasks[t])
    requires C.Later(s.catalogs, s'.catalogs) && s'.catalogs.closedOwners == s.catalogs.closedOwners
    ensures EndingsOk(s')
  {
    forall u | u in s'.tasks && Registered(s'.tasks[u]) && Ended(s', s'.tasks[u])
      ensures Settled(s'.tasks[u]) || AboutToCancel(s', s'.tasks[u])
    {
      assert Ended(s, s.tasks[u]);
      if !Settled(s.tasks[u]) {
        var c :| c in s.cancels && Matches(c, s.tasks[u]);
        assert c in s'.cancels && Matches(c, s'.tasks[u]);
      }
    }
  }

  lemma TakenReference(s: State, t: nat)
    requires ReferencesOk(s) && Enabled(s, LookUpEntryStep(t))
    requires C.Acquire(s.catalogs, t, s.tasks[t].entry.value, s.tasks[t].ctxDone).1 == C.Found
    ensures ReferencesOk(LookUpEntry(s, t))
  {
  }

  /** A task moves on while the catalogs change under their own lock. */
  lemma MovedKeeps(s: State, t: nat, task: Task, catalogs: C.Catalogs)
    requires TableInv(s) && t in s.tasks && TaskOk(task)
    requires task.key == s.tasks[t].key && task.owner == s.tasks[t].owner && task.entry == s.tasks[t].entry
    requires Registered(task) && Registered(s.tasks[t]) && Settled(task) == Settled(s.tasks[t])
    requires C.Later(s.catalogs, catalogs) && catalogs.closedOwners == s.catalogs.closedOwners
    ensures TableInv(With(s, t, task).(catalogs := catalogs))
  {
    var s' := With(s, t, task).(catalogs := catalogs);
    QuietSlots(s, t, task);
    QuietTable(s, t, task);
    assert SlotHolders(s') == SlotHolders(With(s, t, task));
    ManyQuietTable(With(s, t, task), s');
    MovedEndings(s, s');
  }

  lemma FoundKeeps(s: State, t: nat)
    requires TableInv(s) && Enabled(s, LookUpEntryStep(t))
    requires C.Acquire(s.catalogs, t, s.tasks[t].entry.value, s.tasks[t].ctxDone).1 == C.Found
    ensures TableInv(LookUpEntry(s, t))
  {
    var s' := LookUpEntry(s, t);
    assert TaskOk(s.tasks[t]);
    C.LookIsLater(s.catalogs, t, s.tasks[t].entry.value, s.tasks[t].ctxDone);
    MovedKeeps(s, t, s'.tasks[t], s'.catalogs);
  }

  lemma LookUpEntryKeeps(s: State, t: nat)
    requires Inv(s) && Enabled(s, LookUpEntryStep(t))
    ensures Inv(LookUpEntry(s, t))
  {
    var e := s.tasks[t].entry.value;
    if C.Acquire(s.catalogs, t, e, s.tasks[t].ctxDone).1 == C.Found {
      C.LookKeeps(s.catalogs, t, e, s.tasks[t].ctxDone);
      FoundKeeps(s, t);
      TakenReference(s, t);
    } else {
      assert TaskOk(s.tasks[t]);
      QuietKeeps(s, t, LookUpEntry(s, t).tasks[t]);
    }
  }

  lemma GivenReference(s: State, t: nat, now: nat)
    requires ReferencesOk(s) && Enabled(s, ReturnStep(t, now))
    ensures ReferencesOk(ReturnReference(s, t, s.tasks[t].entry.value, now))
  {
  }

  lemma ReturnedKeeps(s: State, t: nat, now: nat)
    requires TableInv(s) && ReferencesOk(s) && Enabled(s, ReturnStep(t, now))
    ensures TableInv(ReturnReference(s, t, s.tasks[t].entry.value, now))
    ensures ReferencesOk(ReturnReference(s, t, s.tasks[t].entry.value, now))
  {
    var s' := ReturnReference(s, t, s.tasks[t].entry.value, now);
    assert TaskOk(s.tasks[t]);
    C.ReturnIsLater(s.catalogs, t, s.tasks[t].entry.value, now);
    GivenReference(s, t, now);
    MovedKeeps(s, t, s'.tasks[t], s'.catalogs);
  }

  lemma ReturnKeeps(s: State, t: nat, now: nat)
    requires Inv(s) && Enabled(s, ReturnStep(t, now))
    ensures Inv(ReturnReference(s, t, s.tasks[t].entry.value, now))
  {
    ReturnedKeeps(s, t, now);
    ReferenceIsHeld(s, t);
    C.ReturnKeeps(s.catalogs, t, s.tasks[t].entry.value, now);
  }

  lemma EvictionHoldersStay(c: C.Catalogs, step: C.Step)
    requires C.WellMapped(c) && C.Enabled(c, step) && (step.Prepare? || step.Build? || step.ExpireTimer? || step.ReleaseKey?)
    ensures C.Apply(c, step).holders == c.holders
  {
  }

  lemma CatalogHoldersStay(c: C.Catalogs, step: C.Step)
    requires C.WellMapped(c) && C.Enabled(c, step) && !step.Look? && !step.Return?
    ensures C.Apply(c, step).holders == c.holders
  {
    if step.Prepare? || step.Build? || step.ExpireTimer? || step.ReleaseKey? {
      EvictionHoldersStay(c, step);
    }
  }

  lemma OwnersClosedBy(c: C.Catalogs, step: C.Step)
    requires C.WellMapped(c) && C.Enabled(c, step)
    ensures C.Apply(c, step).closedOwners == (if step.OwnerGone? && step.owner.Some? then c.closedOwners + {step.owner.value} else c.closedOwners)
  {
  }

  lemma EndedAreRetired(c: C.Catalogs, step: C.Step, e: nat)
    requires C.WellMapped(c) && C.Enabled(c, step) && e in EndedBy(c, step)
    ensures e in c.entries && e in C.Apply(c, step).entries && C.Apply(c, step).entries[e].retired
  {
  }

  /** Whatever a catalog step ends, it still has to cancel before it unlocks. */
  lemma EndingIsQueued(s: State, step: C.Step, t: nat)
    requires C.WellMapped(s.catalogs) && Enabled(s, CatalogStep(step))
    requires EndingsOk(s) && t in s.tasks && Registered(s.tasks[t])
    requires Ended(ChangeCatalogs(s, step), s.tasks[t])
    ensures Settled(s.tasks[t]) || AboutToCancel(ChangeCatalogs(s, step), s.tasks[t])
  {
    var task := s.tasks[t];
    if Ended(s, task) {
      assert Settled(task) || AboutToCancel(s, task);
    } else {
      NewlyEndedIsQueued(s.catalogs, step, task, s.ended);
    }
  }

  /** A task that a catalog step newly ends matches one of the step's cancellations. */
  lemma NewlyEndedIsQueued(c: C.Catalogs, step: C.Step, task: Task, ended: set<nat>)
    requires C.WellMapped(c) && C.Enabled(c, step)
    requires !C.IsClosed(c, task.owner) && (task.entry.Some? ==> task.entry.value !in ended)
    requires C.IsClosed(C.Apply(c, step), task.owner) || (task.entry.Some? && task.entry.value in ended + EndedBy(c, step))
    ensures exists cancel :: cancel in CancelsOf(c, step) && Matches(cancel, task)
  {
    OwnersClosedBy(c, step);
    if C.IsClosed(C.Apply(c, step), task.owner) {
      assert ByOwner(task.owner, "sessionClosed") in CancelsOf(c, step);
      assert Matches(ByOwner(task.owner, "sessionClosed"), task);
    } else {
      var e := task.entry.value;
      var why := if step.ReleaseKey? then "cancelled" else if step.ClearAll? then "sessionClosed" else "strictModeUnsupported";
      assert ByEntry(e, why) in CancelsOf(c, step);
      assert Matches(ByEntry(e, why), task);
    }
  }

  lemma CatalogKeeps(s: State, step: C.Step)
    requires Inv(s) && Enabled(s, CatalogStep(step))
    ensures Inv(ChangeCatalogs(s, step))
  {
    var s' := ChangeCatalogs(s, step);
    C.StepKeeps(s.catalogs, step);
    C.StepIsLater(s.catalogs, step);
    CatalogHoldersStay(s.catalogs, step);
    ManyQuietSlots(s, s');
    ManyQuietTable(s, s');
    assert ReferencesOk(s');
    assert TasksOk(s');
    forall t | t in s'.tasks && Registered(s'.tasks[t]) && Ended(s', s'.tasks[t])
      ensures Settled(s'.tasks[t]) || AboutToCancel(s', s'.tasks[t])
    {
      EndingIsQueued(s, step, t);
    }
    forall e | e in s'.ended ensures e in s'.catalogs.entries && s'.catalogs.entries[e].retired {
      if e !in s.ended {
        EndedAreRetired(s.catalogs, step, e);
      }
    }
  }

  lemma SharedKeeps(s: State, step: Step)
    requires TableInv(s) && ReferencesOk(s) && Enabled(s, step) && IsShared(step) && !step.LookUpEntryStep?
    ensures TableInv(ApplyShared(s, step))
  {
    match step
    case AskStep(t, key, owner, entry, hasRequestId) => AskKeeps(s, t, key, owner, entry, hasRequestId);
    case AdmitStep(t) => AdmitKeeps(s, t);
    case RegisterStep(t) => RegisterKeeps(s, t);
    case ReturnStep(t, now) => ReturnedKeeps(s, t, now);
    case DecideStep(t) => DecideKeeps(s, t);
    case ReturnSlotStep(t) => ReturnSlotKeeps(s, t);
  }

  lemma SharedReferences(s: State, step: Step)
    requires ReferencesOk(s) && Enabled(s, step) && IsShared(step) && !step.LookUpEntryStep? && !step.ReturnStep?
    ensures ReferencesOk(ApplyShared(s, step)) && ApplyShared(s, step).catalogs == s.catalogs
  {
    QuietReferences(s, ApplyShared(s, step), step.task, ApplyShared(s, step).tasks[step.task]);
  }

  lemma UnlockedSharedKeeps(s: State, step: Step)
    requires TableInv(s) && ReferencesOk(s) && Enabled(s, step)
    requires IsShared(step) && !step.LookUpEntryStep? && !step.ReturnStep?
    ensures TableInv(ApplyShared(s, step)) && ReferencesOk(ApplyShared(s, step))
    ensures ApplyShared(s, step).catalogs == s.catalogs
  {
    SharedKeeps(s, step);
    SharedReferences(s, step);
  }

  lemma ApplySharedKeeps(s: State, step: Step)
    requires Inv(s) && Enabled(s, step) && IsShared(step)
    ensures Inv(ApplyShared(s, step))
  {
    match step
    case LookUpEntryStep(t) => LookUpEntryKeeps(s, t);
    case ReturnStep(t, now) => ReturnKeeps(s, t, now);
    case _ => UnlockedSharedKeeps(s, step);
  }

  lemma RequestKeeps(s: State, step: Step)
    requires Inv(s) && Enabled(s, step) && (IsShared(step) || IsOwn(step))
    ensures Inv(Apply(s, step))
  {
    if IsShared(step) {
      ApplySharedKeeps(s, step);
    } else {
      OwnKeeps(s, step);
    }
  }

  lemma CancelKeeps(s: State, step: Step)
    requires Inv(s) && Enabled(s, step) && (step.CancelKeyStep? || step.CancelAllStep? || step.CancelMatchingStep?)
    ensures Inv(Apply(s, step))
  {
    match step
    case CancelKeyStep(key, why) => CancelKeyKeeps(s, key, why);
    case CancelAllStep(why) => CancelSomeKeeps(s, why, (task: Task) => true);
    case CancelMatchingStep(c) => CancelMatchingKeeps(s, c);
  }

  lemma StepKeeps(s: State, step: Step)
    requires Inv(s) && Enabled(s, step)
    ensures Inv(Apply(s, step))
  {
    if IsShared(step) || IsOwn(step) {
      RequestKeeps(s, step);
    } else if step.CatalogStep? {
      CatalogKeeps(s, step.step);
    } else {
      CancelKeeps(s, step);
    }
  }

  // ----- Whole runs ----------------------------------------------------------

  ghost predicate Possible(s: State, steps: seq<Step>)
    requires Inv(s)
    decreases |steps|
  {
    steps == [] || (Enabled(s, steps[0]) && (StepKeeps(s, steps[0]); Possible(Apply(s, steps[0]), steps[1..])))
  }

  ghost function After(s: State, steps: seq<Step>): (r: State)
    requires Inv(s) && Possible(s, steps)
    ensures Inv(r)
    decreases |steps|
  {
    if steps == [] then s else
      StepKeeps(s, steps[0]);
      After(Apply(s, steps[0]), steps[1..])
  }

  lemma EmptyOk()
    ensures Inv(EMPTY)
  {
    C.EmptyOk();
    assert SlotHolders(EMPTY) == {};
  }

  ghost predicate PossibleRun(steps: seq<Step>) {
    EmptyOk();
    Possible(EMPTY, steps)
  }

  /** The state after a run of the program from its start. */
  ghost function RunOf(steps: seq<Step>): (r: State)
    requires PossibleRun(steps)
    ensures Inv(r)
  {
    EmptyOk();
    After(EMPTY, steps)
  }

  /** One response per request, one slot per admitted request, and never both a
      history commit and a cancellation, whatever the interleaving. */
  lemma DelayTaskSafety(steps: seq<Step>)
    requires PossibleRun(steps)
    ensures
      var s := RunOf(steps);
      && s.slots == |SlotHolders(s)| <= MAX_DELAY_TASKS
      && (forall t :: t in s.tasks ==> |s.tasks[t].responses| == (if s.tasks[t].pc == Done then 1 else 0))
      && (forall t :: t in s.tasks ==> !(s.tasks[t].committed && s.tasks[t].reason != ""))
      && (forall t :: t in s.tasks && s.tasks[t].pc == Done && s.tasks[t].reason != "" ==>
            s.tasks[t].responses == [Failed(s.tasks[t].reason)])
    ensures
      var s := RunOf(steps);
      (forall t :: t in s.tasks ==> s.tasks[t].pc == Done) ==> s.slots == 0 && s.table == map[] && s.catalogs.holders == map[]
  {
    OneResponseEach(RunOf(steps));
    NothingLeftBehind(RunOf(steps));
  }

  lemma OneResponseEach(s: State)
    requires TasksOk(s)
    ensures forall t :: t in s.tasks ==> |s.tasks[t].responses| == (if s.tasks[t].pc == Done then 1 else 0)
    ensures forall t :: t in s.tasks ==> !(s.tasks[t].committed && s.tasks[t].reason != "")
    ensures forall t :: t in s.tasks && s.tasks[t].pc == Done && s.tasks[t].reason != "" ==>
      s.tasks[t].responses == [Failed(s.tasks[t].reason)]
  {
    assert forall t :: t in s.tasks ==> TaskOk(s.tasks[t]);
  }

  lemma NothingLeftBehind(s: State)
    requires SlotsOk(s) && TableOk(s) && ReferencesOk(s)
    ensures (forall t :: t in s.tasks ==> s.tasks[t].pc == Done) ==> s.slots == 0 && s.table == map[] && s.catalogs.holders == map[]
  {
    if forall t :: t in s.tasks ==> s.tasks[t].pc == Done {
      assert SlotHolders(s) == {};
    }
  }

  /** What a later state may not take back from a task. */
  predicate TaskLater(a: Task, b: Task) {
    && b.key == a.key && b.owner == a.owner && b.entry == a.entry
    && (a.reason != "" ==> b.reason == a.reason)
    && (a.committed ==> b.committed)
    && (a.committed && a.pc in {Returning, Tested, Decided, SlotReturned, Done} ==>
          b.answer == a.answer && b.pc in {Returning, Tested, Decided, SlotReturned, Done})
  }

  predicate TasksLater(s: State, s': State) {
    forall t :: t in s.tasks ==> t in s'.tasks && TaskLater(s.tasks[t], s'.tasks[t])
  }

  lemma OneTaskLater(s: State, s': State, t: nat, task: Task)
    requires s'.tasks == s.tasks[t := task] && (t in s.tasks ==> TaskLater(s.tasks[t], task))
    ensures TasksLater(s, s')
  {
  }

  lemma CancelSomeLater(s: State, why: string, which: Task -> bool)
    ensures TasksLater(s, CancelSome(s, why, which))
  {
  }

  lemma OwnIsLater(s: State, step: Step)
    requires IsOwn(step) && Enabled(s, step) && TaskOk(s.tasks[step.task])
    ensures TasksLater(s, ApplyOwn(s, step))
  {
    OwnIsQuiet(s, step);
    OneTaskLater(s, ApplyOwn(s, step), step.task, ApplyOwn(s, step).tasks[step.task]);
  }

  lemma SharedIsLater(s: State, step: Step)
    requires TasksOk(s) && Enabled(s, step) && IsShared(step)
    ensures TasksLater(s, ApplyShared(s, step))
  {
    var s' := ApplyShared(s, step);
    if step.AskStep? {
      OneTaskLater(s, s', step.task, s'.tasks[step.task]);
    } else {
      SharedTaskIsLater(s, step);
      OneTaskLater(s, s', step.task, s'.tasks[step.task]);
    }
  }

  lemma SharedTaskIsLater(s: State, step: Step)
    requires Enabled(s, step) && IsShared(step) && !step.AskStep? && TaskOk(s.tasks[step.task])
    ensures step.task in ApplyShared(s, step).tasks
    ensures ApplyShared(s, step).tasks == s.tasks[step.task := ApplyShared(s, step).tasks[step.task]]
    ensures TaskLater(s.tasks[step.task], ApplyShared(s, step).tasks[step.task])
  {
    match step
    case LookUpEntryStep(t) => LookUpIsLater(s, t);
    case RegisterStep(t) => RegisterIsLater(s, t);
    case _ =>
  }

  lemma LookUpIsLater(s: State, t: nat)
    requires Enabled(s, LookUpEntryStep(t)) && TaskOk(s.tasks[t])
    ensures LookUpEntry(s, t).tasks.Keys == s.tasks.Keys
    ensures LookUpEntry(s, t).tasks == s.tasks[t := LookUpEntry(s, t).tasks[t]]
    ensures TaskLater(s.tasks[t], LookUpEntry(s, t).tasks[t])
  {
  }

  lemma RegisterIsLater(s: State, t: nat)
    requires Enabled(s, RegisterStep(t)) && TaskOk(s.tasks[t])
    ensures Register(s, t).tasks.Keys == s.tasks.Keys
    ensures Register(s, t).tasks == s.tasks[t := Register(s, t).tasks[t]]
    ensures TaskLater(s.tasks[t], Register(s, t).tasks[t])
  {
  }

  lemma StepIsLater(s: State, step: Step)
    requires WellFormed(s) && TasksOk(s) && Enabled(s, step)
    ensures TasksLater(s, Apply(s, step))
  {
    match step
    case CancelKeyStep(key, why) => CancelKeyIsLater(s, key, why);
    case CancelAllStep(why) => CancelSomeLater(s, why, (task: Task) => true);
    case CatalogStep(step) => SameTasksLater(s, ChangeCatalogs(s, step));
    case CancelMatchingStep(c) => CancelMatchingIsLater(s, c);
    case _ => RequestIsLater(s, step);
  }

  lemma SameTasksLater(s: State, s': State)
    requires s'.tasks == s.tasks
    ensures TasksLater(s, s')
  {
  }

  lemma CancelMatchingIsLater(s: State, c: Cancel)
    ensures TasksLater(s, CancelMatching(s, c))
  {
    CancelSomeLater(s, c.why, (task: Task) => Matches(c, task));
  }

  lemma RequestIsLater(s: State, step: Step)
    requires WellFormed(s) && TasksOk(s) && Enabled(s, step) && (IsShared(step) || IsOwn(step))
    ensures TasksLater(s, Apply(s, step))
  {
    if IsShared(step) {
      SharedIsLater(s, step);
    } else {
      OwnIsLater(s, step);
    }
  }

  lemma CancelKeyIsLater(s: State, key: string, why: string)
    requires key in s.table ==> s.table[key] in s.tasks
    ensures TasksLater(s, CancelKey(s, key, why).0)
  {
  }

  predicate EndingsStay(s: State, s': State) {
    s.catalogs.closedOwners <= s'.catalogs.closedOwners && s.ended <= s'.ended
  }

  lemma EndingsStayEnded(s: State, step: Step)
    requires WellFormed(s) && Enabled(s, step)
    ensures EndingsStay(s, Apply(s, step))
  {
    match step
    case CatalogStep(step) => C.StepIsLater(s.catalogs, step);
    case _ => if IsShared(step) { SharedKeepsEndings(s, step); }
  }

  lemma SharedKeepsEndings(s: State, step: Step)
    requires Enabled(s, step) && IsShared(step)
    ensures ApplyShared(s, step).catalogs.closedOwners == s.catalogs.closedOwners && ApplyShared(s, step).ended == s.ended
  {
  }

  lemma TasksLaterTwice(a: State, b: State, c: State)
    requires TasksLater(a, b) && TasksLater(b, c)
    ensures TasksLater(a, c)
  {
    forall t | t in a.tasks ensures t in c.tasks && TaskLater(a.tasks[t], c.tasks[t]) {
      assert TaskLater(a.tasks[t], b.tasks[t]);
    }
  }

  lemma {:induction false} RunIsLater(s: State, steps: seq<Step>)
    requires Inv(s) && Possible(s, steps)
    ensures TasksLater(s, After(s, steps)) && EndingsStay(s, After(s, steps))
    decreases |steps|
  {
    if steps != [] {
      StepKeeps(s, steps[0]);
      StepIsLater(s, steps[0]);
      EndingsStayEnded(s, steps[0]);
      RunIsLater(Apply(s, steps[0]), steps[1..]);
      TasksLaterTwice(s, Apply(s, steps[0]), After(s, steps));
    }
  }

  lemma AfterFirst(s: State, step: Step, steps: seq<Step>)
    requires Inv(s) && Possible(s, [step] + steps)
    ensures Enabled(s, step) && Inv(Apply(s, step)) && Possible(Apply(s, step), steps)
    ensures After(s, [step] + steps) == After(Apply(s, step), steps)
  {
    StepKeeps(s, step);
    assert ([step] + steps)[1..] == steps;
  }

  /** If cancel says true, the one response is -1 with the first reason ever given. */
  lemma CancelDecidesTheResponse(s: State, key: string, why: string, steps: seq<Step>)
    requires Inv(s) && CancelKey(s, key, why).1 && Possible(s, [CancelKeyStep(key, why)] + steps)
    ensures
      var t := s.table[key];
      var s' := After(s, [CancelKeyStep(key, why)] + steps);
      var first := if s.tasks[t].reason == "" then why else s.tasks[t].reason;
      && t in s'.tasks && s'.tasks[t].reason == first && !s'.tasks[t].committed
      && (s'.tasks[t].pc == Done ==> s'.tasks[t].responses == [Failed(first)])
  {
    AfterFirst(s, CancelKeyStep(key, why), steps);
    CancelKeyCancels(s, key, why);
    RunIsLater(CancelKey(s, key, why).0, steps);
    ReasonStays(CancelKey(s, key, why).0, After(CancelKey(s, key, why).0, steps), s.table[key]);
  }

  lemma CancelKeyCancels(s: State, key: string, why: string)
    requires TableOk(s) && why != "" && CancelKey(s, key, why).1
    ensures var cancelled := CancelKey(s, key, why).0;
            && s.table[key] in cancelled.tasks
            && cancelled.tasks[s.table[key]].reason == (if s.tasks[s.table[key]].reason == "" then why else s.tasks[s.table[key]].reason)
  {
  }

  lemma ReasonStays(s: State, s': State, t: nat)
    requires TasksLater(s, s') && TasksOk(s') && t in s.tasks && s.tasks[t].reason != ""
    ensures t in s'.tasks && s'.tasks[t].reason == s.tasks[t].reason && !s'.tasks[t].committed
    ensures s'.tasks[t].pc == Done ==> s'.tasks[t].responses == [Failed(s.tasks[t].reason)]
  {
    assert TaskLater(s.tasks[t], s'.tasks[t]) && TaskOk(s'.tasks[t]);
  }

  /** Once history is committed, cancel says false for good, and the measured
      answer is the response even when the deadline passes meanwhile. */
  lemma CommitDecidesTheResponse(s: State, t: nat, steps: seq<Step>)
    requires Inv(s) && Possible(s, steps) && t in s.tasks && s.tasks[t].committed
    ensures
      var s' := After(s, steps);
      && t in s'.tasks && s'.tasks[t].committed
      && (forall key, why | key in s'.table && s'.table[key] == t :: !CancelKey(s', key, why).1)
      && (s.tasks[t].pc in {Returning, Tested} && s'.tasks[t].pc == Done ==> s'.tasks[t].responses == [s.tasks[t].answer])
  {
    RunIsLater(s, steps);
    var s' := After(s, steps);
    assert TaskLater(s.tasks[t], s'.tasks[t]) && TaskOk(s'.tasks[t]);
  }

  /** After a close, a release, a clear or a strict block: whenever the catalog lock
      is free again, every registered test it ends is cancelled or committed, and no
      later one can register. */
  lemma EndingIsComplete(s: State, steps: seq<Step>, t: nat)
    requires Inv(s) && Possible(s, steps)
    requires t in After(s, steps).tasks && Ended(s, After(s, steps).tasks[t])
    ensures
      var s' := After(s, steps);
      && Ended(s', s'.tasks[t])
      && (Unlocked(s') && Registered(s'.tasks[t]) ==> Settled(s'.tasks[t]))
      && (At(s', t, Admitted) ==> Register(s', t).tasks[t].pc == Refused)
  {
    RunIsLater(s, steps);
    var s' := After(s, steps);
    assert !Unlocked(s') || !AboutToCancel(s', s'.tasks[t]);
  }

  // ----- Progress ------------------------------------------------------------

  function StepsLeft(pc: Pc): nat {
    match pc
    case Asked => 8
    case Admitted => 7
    case Waiting => 6
    case Testing => 5
    case Returning => 4
    case Tested => 3
    case Decided => 2
    case Refused => 2
    case SlotReturned => 1
    case Done => 0
  }

  /** A step of the request itself; `delay` is what the test measured. */
  function NextStep(t: nat, task: Task, delay: nat, now: nat): Step
    requires task.pc != Done
  {
    match task.pc
    case Asked => AdmitStep(t)
    case Admitted => RegisterStep(t)
    case Waiting => if task.ctxDone then GiveUpStep(t) else if task.entry.Some? then LookUpEntryStep(t) else LookUpProxyStep(t, None)
    case Testing => TestEndsStep(t, delay)
    case Returning => ReturnStep(t, now)
    case Tested => DecideStep(t)
    case Decided => ReturnSlotStep(t)
    case Refused => ReturnSlotStep(t)
    case SlotReturned => RespondStep(t)
  }

  predicate Progresses(s: State, t: nat, s': State) {
    t in s.tasks && t in s'.tasks && StepsLeft(s'.tasks[t].pc) < StepsLeft(s.tasks[t].pc)
  }

  lemma LookUpProgress(s: State, t: nat)
    requires Enabled(s, LookUpEntryStep(t))
    ensures Progresses(s, t, LookUpEntry(s, t))
  {
  }

  lemma RegisterProgress(s: State, t: nat)
    requires Enabled(s, RegisterStep(t))
    ensures Progresses(s, t, Register(s, t))
  {
  }

  lemma NextIsEnabled(s: State, t: nat, delay: nat, now: nat)
    requires ReferencesOk(s) && Unlocked(s) && t in s.tasks && s.tasks[t].pc != Done && TaskOk(s.tasks[t])
    ensures Enabled(s, NextStep(t, s.tasks[t], delay, now))
  {
  }

  lemma SharedProgress(s: State, step: Step)
    requires Enabled(s, step) && IsShared(step) && !step.AskStep?
    ensures Progresses(s, step.task, ApplyShared(s, step))
  {
    match step
    case LookUpEntryStep(t) => LookUpProgress(s, t);
    case RegisterStep(t) => RegisterProgress(s, t);
    case _ =>
  }

  lemma OwnProgress(s: State, t: nat, delay: nat, now: nat)
    requires t in s.tasks && s.tasks[t].pc != Done && IsOwn(NextStep(t, s.tasks[t], delay, now))
    requires Enabled(s, NextStep(t, s.tasks[t], delay, now))
    ensures Progresses(s, t, ApplyOwn(s, NextStep(t, s.tasks[t], delay, now)))
  {
  }

  /** No request gets stuck: with the catalog lock free it can always take a step
      that brings it closer to its response. */
  lemma RequestsProgress(s: State, t: nat, delay: nat, now: nat)
    requires Inv(s) && Unlocked(s) && t in s.tasks && s.tasks[t].pc != Done
    ensures Enabled(s, NextStep(t, s.tasks[t], delay, now))
    ensures Progresses(s, t, Apply(s, NextStep(t, s.tasks[t], delay, now)))
  {
    assert TaskOk(s.tasks[t]);
    NextIsEnabled(s, t, delay, now);
    if IsOwn(NextStep(t, s.tasks[t], delay, now)) {
      OwnProgress(s, t, delay, now);
    } else {
      SharedProgress(s, NextStep(t, s.tasks[t], delay, now));
    }
  }

  /** The holder of the catalog lock always gets to release it, and no request is set back. */
  lemma CancelsProgress(s: State, c: Cancel)
    requires Inv(s) && c in s.cancels
    ensures Enabled(s, CancelMatchingStep(c)) && Apply(s, CancelMatchingStep(c)).cancels == s.cancels - {c}
    ensures forall t :: t in s.tasks ==>
              t in Apply(s, CancelMatchingStep(c)).tasks && Apply(s, CancelMatchingStep(c)).tasks[t].pc == s.tasks[t].pc
  {
  }

  /** A request's own step asks for no cancellation. */
  lemma RequestsKeepCancels(s: State, step: Step)
    requires WellFormed(s) && Enabled(s, step)
    ensures IsShared(step) ==> ApplyShared(s, step).cancels == s.cancels
    ensures IsOwn(step) ==> ApplyOwn(s, step).cancels == s.cancels
  {
  }

  /** What is left to do before a request's response: the outstanding cancellations,
      which hold the catalog lock, and its own steps. */
  function LeftToDo(s: State, t: nat): nat
    requires t in s.tasks
  {
    |s.cancels| + StepsLeft(s.tasks[t].pc)
  }

  /** Some step brings an unfinished request closer, even while the catalog lock is held. */
  lemma SomeStepProgresses(s: State, t: nat, delay: nat, now: nat) returns (step: Step)
    requires Inv(s) && t in s.tasks && s.tasks[t].pc != Done
    ensures Enabled(s, step) && t in Apply(s, step).tasks && LeftToDo(Apply(s, step), t) < LeftToDo(s, t)
  {
    if c :| c in s.cancels {
      CancelsProgress(s, c);
      assert |s.cancels - {c}| < |s.cancels|;
      return CancelMatchingStep(c);
    }
    step := NextStep(t, s.tasks[t], delay, now);
    RequestsProgress(s, t, delay, now);
    RequestsKeepCancels(s, step);
  }

  /** From every reachable state every request can reach its response, within the
      outstanding cancellations and its own steps and without any other request. */
  lemma {:induction false} RequestsFinish(s: State, t: nat, delay: nat, now: nat) returns (steps: seq<Step>)
    requires Inv(s) && t in s.tasks
    ensures Possible(s, steps) && |steps| <= LeftToDo(s, t)
    ensures t in After(s, steps).tasks && After(s, steps).tasks[t].pc == Done
    decreases LeftToDo(s, t)
  {
    if s.tasks[t].pc == Done { return []; }
    var step := SomeStepProgresses(s, t, delay, now);
    StepKeeps(s, step);
    var rest := RequestsFinish(Apply(s, step), t, delay, now);
    steps := [step] + rest;
    assert steps[1..] == rest;
  }
}
