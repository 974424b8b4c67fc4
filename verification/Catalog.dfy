/** The Core's proxy catalogs: reference-counted entries behind one mutex, with
    proxies closed outside it. One function per critical section; a run is any
    interleaving of them. */
module Catalog {
  import opened Wrappers

  const MAX_CATALOGS: nat := 3
  const CATALOG_IDLE_TTL: nat := 600

  datatype Key = Key(owner: Option<nat>, id: string)

  /** `listed` counts the closing lists that hold the entry, `closes` how often its
      proxies were closed and `finishing` the closes whose bookkeeping is still to
      come; `released` is set once the resource count was given back. */
  datatype Entry = Entry(
    key: Key,
    lastUsed: nat,
    refs: int,
    building: bool,
    retired: bool,
    disposed: bool,
    timer: bool,
    listed: nat,
    closes: nat,
    finishing: nat,
    released: bool)

  /** `holders` maps each running test to the entry it references. */
  datatype Catalogs = Catalogs(
    entries: map<nat, Entry>,
    byKey: map<Key, nat>,
    resourceCount: int,
    strictBlocked: bool,
    stopped: bool,
    closedOwners: set<nat>,
    holders: map<nat, nat>)

  const EMPTY: Catalogs := Catalogs(map[], map[], 0, false, false, {}, map[])

  predicate IsClosed(s: Catalogs, owner: Option<nat>) {
    owner.Some? && owner.value in s.closedOwners
  }

  // ----- Retiring and disposing ----------------------------------------------

  predicate Disposable(e: Entry) {
    e.retired && !e.building && e.refs == 0 && !e.disposed
  }

  function Disposed(e: Entry): Entry {
    if Disposable(e) then e.(disposed := true, listed := e.listed + 1) else e
  }

  function Retired(e: Entry): Entry {
    Disposed(e.(retired := true, timer := false))
  }

  /** Retires every entry in `which` within one critical section. */
  function RetireAll(s: Catalogs, which: set<nat>): Catalogs
    requires which <= s.entries.Keys
  {
    s.(entries := map i | i in s.entries :: if i in which then Retired(s.entries[i]) else s.entries[i],
       byKey := map k | k in s.byKey && s.byKey[k] !in which :: s.byKey[k])
  }

  function Mapped(s: Catalogs): set<nat> {
    s.byKey.Values
  }

  predicate WellMapped(s: Catalogs) {
    forall k :: k in s.byKey ==> s.byKey[k] in s.entries
  }

  function RetireMapped(s: Catalogs, picked: Key -> bool): Catalogs
    requires WellMapped(s)
  {
    RetireAll(s, set k | k in s.byKey && picked(k) :: s.byKey[k])
  }

  // ----- Preparation ---------------------------------------------------------

  datatype Attempt = SessionClosed | StrictUnsupported | Overloaded | Evicted(victim: nat) | Started(entry: nat)

  predicate Idle(e: Entry) {
    e.refs == 0 && !e.building
  }

  /** `pick` is a least recently used idle entry of the map. */
  predicate IsVictim(s: Catalogs, pick: nat)
    requires WellMapped(s)
  {
    && pick in Mapped(s) && Idle(s.entries[pick])
    && forall k :: k in s.byKey && Idle(s.entries[s.byKey[k]]) ==> s.entries[pick].lastUsed <= s.entries[s.byKey[k]].lastUsed
  }

  predicate SomeIdle(s: Catalogs)
    requires WellMapped(s)
  {
    exists k :: k in s.byKey && Idle(s.entries[s.byKey[k]])
  }

  function NewEntry(key: Key, now: nat): Entry {
    Entry(key, now, 0, true, false, false, false, 0, 0, 0, false)
  }

  function Reserved(s: Catalogs, key: Key, now: nat, newId: nat): Catalogs {
    s.(entries := s.entries[newId := NewEntry(key, now)], byKey := s.byKey[key := newId], resourceCount := s.resourceCount + 1)
  }

  /** One attempt of `prepareCatalog`: refuse, evict one entry and try again, or
      reserve a new one. `pick` resolves the map's iteration order, `newId` names
      the new entry. */
  function PrepareAttempt(s: Catalogs, key: Key, now: nat, pick: nat, newId: nat): (Catalogs, Attempt)
    requires WellMapped(s)
    requires s.resourceCount >= MAX_CATALOGS && SomeIdle(s) ==> IsVictim(s, pick)
  {
    if s.stopped || IsClosed(s, key.owner) then (s, SessionClosed)
    else if s.strictBlocked then (s, StrictUnsupported)
    else if key in s.byKey then
      if !Idle(s.entries[s.byKey[key]]) then (s, Overloaded)
      else (RetireAll(s, {s.byKey[key]}), Evicted(s.byKey[key]))
    else if s.resourceCount >= MAX_CATALOGS then
      if !SomeIdle(s) then (s, Overloaded) else (RetireAll(s, {pick}), Evicted(pick))
    else (Reserved(s, key, now, newId), Started(newId))
  }

  datatype Built = Kept | StrictModeUnsupported | SessionGone | CatalogMissing

  function BuildRefusal(s: Catalogs, x: Entry): Built {
    if s.strictBlocked then StrictModeUnsupported
    else if s.stopped || IsClosed(s, x.key.owner) then SessionGone
    else if x.retired then CatalogMissing
    else Kept
  }

  /** The builder comes back with its proxies; it keeps them only when nothing
      retired, blocked or closed the catalog meanwhile. */
  function BuildDone(s: Catalogs, e: nat, now: nat): (Catalogs, Built)
    requires e in s.entries && s.entries[e].building
  {
    var built := s.(entries := s.entries[e := s.entries[e].(building := false)]);
    if BuildRefusal(s, s.entries[e]) != Kept then (RetireAll(built, {e}), BuildRefusal(s, s.entries[e]))
    else (s.(entries := s.entries[e := s.entries[e].(building := false, lastUsed := now, timer := true)]), Kept)
  }

  // ----- Other critical sections ---------------------------------------------

  function Expire(s: Catalogs, e: nat, now: nat): Catalogs
    requires e in s.entries
  {
    var x := s.entries[e];
    if x.key in s.byKey && s.byKey[x.key] == e && Idle(x) && now >= x.lastUsed + CATALOG_IDLE_TTL then RetireAll(s, {e}) else s
  }

  function Release(s: Catalogs, key: Key): Catalogs
    requires WellMapped(s)
  {
    if key in s.byKey then RetireAll(s, {s.byKey[key]}) else s
  }

  function CloseOwner(s: Catalogs, owner: Option<nat>): Catalogs
    requires WellMapped(s)
  {
    RetireMapped(s.(closedOwners := if owner.Some? then s.closedOwners + {owner.value} else s.closedOwners),
                 (k: Key) => k.owner == owner)
  }

  function Clear(s: Catalogs, stopping: bool): Catalogs
    requires WellMapped(s)
  {
    RetireMapped(s.(stopped := s.stopped || stopping), (k: Key) => true)
  }

  function Resume(s: Catalogs): Catalogs {
    s.(stopped := false)
  }

  function SetStrictBlocked(s: Catalogs, blocked: bool): Catalogs
    requires WellMapped(s)
  {
    if blocked then RetireMapped(s.(strictBlocked := true), (k: Key) => true) else s.(strictBlocked := false)
  }

  datatype Lookup = Blocked | NotFound | DeadlineExceeded | Found

  /** A test asks for its entry's proxies and takes a reference. */
  function Acquire(s: Catalogs, test: nat, e: nat, cancelled: bool): (Catalogs, Lookup)
    requires e in s.entries
  {
    var x := s.entries[e];
    if s.strictBlocked then (s, Blocked)
    else if x.retired || x.key !in s.byKey || s.byKey[x.key] != e then (s, NotFound)
    else if cancelled then (s, DeadlineExceeded)
    else (s.(entries := s.entries[e := x.(refs := x.refs + 1, timer := false)], holders := s.holders[test := e]), Found)
  }

  /** The test gives back the reference it took on `e`; the last one out disposes a
      retired entry. */
  function GiveBack(s: Catalogs, test: nat, e: nat, now: nat): Catalogs
    requires e in s.entries
  {
    var x := s.entries[e].(refs := s.entries[e].refs - 1, lastUsed := now);
    s.(entries := s.entries[e := if !x.retired && x.refs == 0 then x.(timer := true) else Disposed(x)],
       holders := s.holders - {test})
  }

  /** Outside the mutex: close the proxies of one disposed entry. */
  function CloseProxies(s: Catalogs, e: nat): Catalogs
    requires e in s.entries && s.entries[e].listed > 0
  {
    var x := s.entries[e];
    s.(entries := s.entries[e := x.(listed := x.listed - 1, closes := x.closes + 1, finishing := x.finishing + 1)])
  }

  /** Back inside: drop the proxies and return the reservation. */
  function FinishClose(s: Catalogs, e: nat): Catalogs
    requires e in s.entries && s.entries[e].finishing > 0
  {
    var x := s.entries[e];
    s.(entries := s.entries[e := x.(released := true, finishing := x.finishing - 1)],
       resourceCount := s.resourceCount - 1)
  }

  // ----- The invariant -------------------------------------------------------

  predicate MapOk(s: Catalogs) {
    && (forall k :: k in s.byKey ==> s.byKey[k] in s.entries && s.entries[s.byKey[k]].key == k && !s.entries[s.byKey[k]].retired)
    && (forall e :: e in s.entries && !s.entries[e].retired ==> s.entries[e].key in s.byKey && s.byKey[s.entries[e].key] == e)
  }

  predicate Unused(x: Entry) {
    x.retired && !x.building && x.refs == 0
  }

  /** Where an entry stands between disposal and the end of its close. */
  predicate ClosedOnce(x: Entry) {
    && (x.disposed ==> Unused(x))
    && x.listed == (if x.disposed && x.closes == 0 then 1 else 0)
    && x.finishing == (if x.closes == 1 && !x.released then 1 else 0)
    && x.closes <= 1
    && (x.closes == 1 ==> x.disposed)
    && (x.released ==> x.closes == 1)
  }

  /** Nothing refers to an entry under construction, and a built one that is idle
      has its expiry armed. */
  predicate TimerOk(x: Entry) {
    (x.building ==> x.refs == 0) && (x.timer <==> !x.retired && Idle(x))
  }

  predicate EntryOk(x: Entry) {
    ClosedOnce(x) && TimerOk(x) && (Unused(x) ==> x.disposed)
  }

  predicate EntriesOk(s: Catalogs) {
    forall e :: e in s.entries ==> EntryOk(s.entries[e])
  }

  function HoldersOf(s: Catalogs, e: nat): set<nat> {
    set t | t in s.holders && s.holders[t] == e
  }

  predicate HoldersOk(s: Catalogs) {
    && (forall t :: t in s.holders ==> s.holders[t] in s.entries)
    && (forall e :: e in s.entries ==> s.entries[e].refs == |HoldersOf(s, e)|)
  }

  function Unreleased(entries: map<nat, Entry>): set<nat> {
    set e | e in entries && !entries[e].released
  }

  predicate CountOk(s: Catalogs) {
    s.resourceCount == |Unreleased(s.entries)| <= MAX_CATALOGS
  }

  predicate FlagsOk(s: Catalogs) {
    && (s.strictBlocked || s.stopped ==> s.byKey == map[])
    && (forall k :: k in s.byKey ==> !IsClosed(s, k.owner))
  }

  predicate Inv(s: Catalogs) {
    MapOk(s) && EntriesOk(s) && HoldersOk(s) && CountOk(s) && FlagsOk(s)
  }

  // ----- Steps and runs ------------------------------------------------------

  datatype Step =
    | Prepare(key: Key, now: nat, pick: nat, newId: nat)
    | Build(entry: nat, now: nat)
    | ExpireTimer(entry: nat, now: nat)
    | ReleaseKey(key: Key)
    | OwnerGone(owner: Option<nat>)
    | ClearAll(stopping: bool)
    | ResumeAll
    | StrictBlock(blocked: bool)
    | Look(test: nat, entry: nat, cancelled: bool)
    | Return(test: nat, entry: nat, now: nat)
    | CloseOne(entry: nat)
    | FinishOne(entry: nat)

  /** What the program guarantees about when a critical section runs: an entry is
      built once, a test looks up once, and closes come off the closing lists. */
  predicate Enabled(s: Catalogs, step: Step) {
    match step
    case Prepare(key, now, pick, newId) =>
      newId !in s.entries && (WellMapped(s) && s.resourceCount >= MAX_CATALOGS && SomeIdle(s) ==> IsVictim(s, pick))
    case Build(e, now) => e in s.entries && s.entries[e].building
    case ExpireTimer(e, now) => e in s.entries
    case Look(test, e, cancelled) => e in s.entries && !s.entries[e].building && test !in s.holders
    case Return(test, e, now) => e in s.entries && test in s.holders && s.holders[test] == e
    case CloseOne(e) => e in s.entries && s.entries[e].listed > 0
    case FinishOne(e) => e in s.entries && s.entries[e].finishing > 0
    case _ => true
  }

  function Apply(s: Catalogs, step: Step): Catalogs
    requires WellMapped(s) && Enabled(s, step)
  {
    match step
    case Prepare(key, now, pick, newId) => PrepareAttempt(s, key, now, pick, newId).0
    case Build(e, now) => BuildDone(s, e, now).0
    case ExpireTimer(e, now) => Expire(s, e, now)
    case ReleaseKey(key) => Release(s, key)
    case OwnerGone(owner) => CloseOwner(s, owner)
    case ClearAll(stopping) => Clear(s, stopping)
    case ResumeAll => Resume(s)
    case StrictBlock(blocked) => SetStrictBlocked(s, blocked)
    case Look(test, e, cancelled) => Acquire(s, test, e, cancelled).0
    case Return(test, e, now) => GiveBack(s, test, e, now)
    case CloseOne(e) => CloseProxies(s, e)
    case FinishOne(e) => FinishClose(s, e)
  }

  lemma HeldEntryIsReferenced(s: Catalogs, test: nat)
    requires HoldersOk(s) && test in s.holders
    ensures s.holders[test] in s.entries && s.entries[s.holders[test]].refs > 0
  {
    assert test in HoldersOf(s, s.holders[test]);
  }

  // ----- Every step keeps the invariant --------------------------------------

  lemma SameUnreleased(a: map<nat, Entry>, b: map<nat, Entry>)
    requires a.Keys == b.Keys && forall e :: e in a ==> a[e].released == b[e].released
    ensures Unreleased(a) == Unreleased(b)
  {
  }

  lemma SameHolders(s: Catalogs, s': Catalogs)
    requires s.holders == s'.holders && s.entries.Keys == s'.entries.Keys
    requires forall e :: e in s.entries ==> s.entries[e].refs == s'.entries[e].refs
    requires HoldersOk(s)
    ensures HoldersOk(s')
  {
    assert forall e :: e in s.entries ==> HoldersOf(s', e) == HoldersOf(s, e);
  }

  lemma SameMap(s: Catalogs, s': Catalogs)
    requires MapOk(s)
    requires s'.byKey == s.byKey && s'.entries.Keys == s.entries.Keys
    requires forall e :: e in s.entries ==> s'.entries[e].key == s.entries[e].key && s'.entries[e].retired == s.entries[e].retired
    ensures MapOk(s')
  {
  }

  lemma RetireAllMap(s: Catalogs, which: set<nat>)
    requires MapOk(s) && which <= s.entries.Keys
    ensures MapOk(RetireAll(s, which))
  {
    var s' := RetireAll(s, which);
    forall k | k in s'.byKey
      ensures s'.byKey[k] in s'.entries && s'.entries[s'.byKey[k]].key == k && !s'.entries[s'.byKey[k]].retired
    {
      assert s'.byKey[k] == s.byKey[k];
    }
    forall e | e in s'.entries && !s'.entries[e].retired
      ensures s'.entries[e].key in s'.byKey && s'.byKey[s'.entries[e].key] == e
    {
      assert e !in which;
      assert s.byKey[s.entries[e].key] == e;
    }
  }

  lemma RetireAllEntries(s: Catalogs, which: set<nat>)
    requires which <= s.entries.Keys
    requires forall e :: e in s.entries ==>
      ClosedOnce(s.entries[e]) && (s.entries[e].building ==> s.entries[e].refs == 0) && (e in which || EntryOk(s.entries[e]))
    ensures EntriesOk(RetireAll(s, which))
  {
    forall e | e in s.entries ensures EntryOk(RetireAll(s, which).entries[e]) {
      assert ClosedOnce(s.entries[e]);
    }
  }

  lemma RetireAllKeeps(s: Catalogs, which: set<nat>)
    requires MapOk(s) && HoldersOk(s) && CountOk(s)
    requires which <= s.entries.Keys
    requires forall e :: e in s.entries ==>
      ClosedOnce(s.entries[e]) && (s.entries[e].building ==> s.entries[e].refs == 0) && (e in which || EntryOk(s.entries[e]))
    ensures MapOk(RetireAll(s, which)) && EntriesOk(RetireAll(s, which))
    ensures HoldersOk(RetireAll(s, which)) && CountOk(RetireAll(s, which))
    ensures forall k :: k in RetireAll(s, which).byKey <==> k in s.byKey && s.byKey[k] !in which
  {
    var s' := RetireAll(s, which);
    RetireAllMap(s, which);
    RetireAllEntries(s, which);
    SameUnreleased(s.entries, s'.entries);
    SameHolders(s, s');
  }

  lemma RetireMappedKeeps(s: Catalogs, picked: Key -> bool)
    requires MapOk(s) && EntriesOk(s) && HoldersOk(s) && CountOk(s)
    ensures MapOk(RetireMapped(s, picked)) && EntriesOk(RetireMapped(s, picked))
    ensures HoldersOk(RetireMapped(s, picked)) && CountOk(RetireMapped(s, picked))
    ensures forall k :: k in RetireMapped(s, picked).byKey <==> k in s.byKey && !picked(k)
  {
    RetireAllKeeps(s, set k | k in s.byKey && picked(k) :: s.byKey[k]);
  }

  /** A new value for one entry that leaves its key and its place in the map alone. */
  lemma OneEntryKeeps(s: Catalogs, s': Catalogs, e: nat, x: Entry)
    requires MapOk(s) && EntriesOk(s) && e in s.entries
    requires s'.byKey == s.byKey && s'.entries == s.entries[e := x]
    requires x.key == s.entries[e].key && x.retired == s.entries[e].retired && EntryOk(x)
    ensures MapOk(s') && EntriesOk(s')
  {
    SameMap(s, s');
  }

  lemma ReservedHolders(s: Catalogs, key: Key, now: nat, newId: nat)
    requires HoldersOk(s) && newId !in s.entries
    ensures HoldersOk(Reserved(s, key, now, newId))
  {
    var s' := Reserved(s, key, now, newId);
    assert HoldersOf(s', newId) == {};
    assert forall i :: i in s.entries ==> HoldersOf(s', i) == HoldersOf(s, i);
  }

  lemma ReservedMap(s: Catalogs, key: Key, now: nat, newId: nat)
    requires MapOk(s) && key !in s.byKey && newId !in s.entries
    ensures MapOk(Reserved(s, key, now, newId))
  {
  }

  lemma ReservedCount(s: Catalogs, key: Key, now: nat, newId: nat)
    requires CountOk(s) && s.resourceCount < MAX_CATALOGS && newId !in s.entries
    ensures CountOk(Reserved(s, key, now, newId))
  {
    assert Unreleased(Reserved(s, key, now, newId).entries) == Unreleased(s.entries) + {newId};
  }

  lemma ReservedFlags(s: Catalogs, key: Key, now: nat, newId: nat)
    requires FlagsOk(s) && !s.stopped && !s.strictBlocked && !IsClosed(s, key.owner)
    ensures FlagsOk(Reserved(s, key, now, newId))
  {
  }

  lemma EvictedFlags(s: Catalogs, which: set<nat>)
    requires FlagsOk(s) && which <= s.entries.Keys
    ensures FlagsOk(RetireAll(s, which))
  {
  }

  lemma PrepareKeeps(s: Catalogs, key: Key, now: nat, pick: nat, newId: nat)
    requires Inv(s) && Enabled(s, Prepare(key, now, pick, newId))
    ensures Inv(PrepareAttempt(s, key, now, pick, newId).0)
  {
    match PrepareAttempt(s, key, now, pick, newId).1
    case Evicted(victim) =>
      RetireAllKeeps(s, {victim});
      EvictedFlags(s, {victim});
    case Started(_) =>
      ReservedMap(s, key, now, newId);
      ReservedHolders(s, key, now, newId);
      ReservedCount(s, key, now, newId);
      ReservedFlags(s, key, now, newId);
    case _ =>
  }

  lemma BuiltStands(s: Catalogs, e: nat)
    requires MapOk(s) && EntriesOk(s) && HoldersOk(s) && CountOk(s) && e in s.entries && s.entries[e].building
    ensures
      var built := s.(entries := s.entries[e := s.entries[e].(building := false)]);
      && MapOk(built) && HoldersOk(built) && CountOk(built)
      && forall i :: i in built.entries ==>
           ClosedOnce(built.entries[i]) && (built.entries[i].building ==> built.entries[i].refs == 0) && (i == e || EntryOk(built.entries[i]))
  {
    var built := s.(entries := s.entries[e := s.entries[e].(building := false)]);
    SameMap(s, built);
    SameUnreleased(s.entries, built.entries);
    SameHolders(s, built);
    assert EntryOk(s.entries[e]);
  }

  lemma RefusedBuildKeeps(s: Catalogs, e: nat)
    requires Inv(s) && e in s.entries && s.entries[e].building
    ensures Inv(RetireAll(s.(entries := s.entries[e := s.entries[e].(building := false)]), {e}))
  {
    var built := s.(entries := s.entries[e := s.entries[e].(building := false)]);
    BuiltStands(s, e);
    RetireAllKeeps(built, {e});
    EvictedFlags(built, {e});
  }

  lemma BuildKeeps(s: Catalogs, e: nat, now: nat)
    requires Inv(s) && Enabled(s, Build(e, now))
    ensures Inv(BuildDone(s, e, now).0)
  {
    if BuildDone(s, e, now).1 == Kept {
      var s' := BuildDone(s, e, now).0;
      OneEntryKeeps(s, s', e, s'.entries[e]);
      SameUnreleased(s.entries, s'.entries);
      SameHolders(s, s');
    } else {
      RefusedBuildKeeps(s, e);
    }
  }

  lemma TakenHolders(s: Catalogs, s': Catalogs, test: nat, e: nat, x: Entry)
    requires HoldersOk(s) && e in s.entries && test !in s.holders && x.refs == s.entries[e].refs + 1
    requires s'.holders == s.holders[test := e] && s'.entries == s.entries[e := x]
    ensures HoldersOk(s')
  {
    assert HoldersOf(s', e) == HoldersOf(s, e) + {test};
    assert forall i :: i in s.entries && i != e ==> HoldersOf(s', i) == HoldersOf(s, i);
  }

  lemma GivenHolders(s: Catalogs, s': Catalogs, test: nat, e: nat, x: Entry)
    requires HoldersOk(s) && test in s.holders && e == s.holders[test] && x.refs == s.entries[e].refs - 1
    requires s'.holders == s.holders - {test} && s'.entries == s.entries[e := x]
    ensures HoldersOk(s')
  {
    assert HoldersOf(s', e) == HoldersOf(s, e) - {test};
    assert forall i :: i in s.entries && i != e ==> HoldersOf(s', i) == HoldersOf(s, i);
  }

  lemma LookKeeps(s: Catalogs, test: nat, e: nat, cancelled: bool)
    requires Inv(s) && Enabled(s, Look(test, e, cancelled))
    ensures Inv(Acquire(s, test, e, cancelled).0)
  {
    if Acquire(s, test, e, cancelled).1 == Found {
      FoundKeeps(s, test, e);
    }
  }

  lemma FoundKeeps(s: Catalogs, test: nat, e: nat)
    requires MapOk(s) && EntriesOk(s) && HoldersOk(s) && CountOk(s)
    requires e in s.entries && !s.entries[e].retired && !s.entries[e].building && test !in s.holders
    ensures var s' := s.(entries := s.entries[e := s.entries[e].(refs := s.entries[e].refs + 1, timer := false)],
                         holders := s.holders[test := e]);
            MapOk(s') && EntriesOk(s') && HoldersOk(s') && CountOk(s')
  {
    var x := s.entries[e].(refs := s.entries[e].refs + 1, timer := false);
    var s' := s.(entries := s.entries[e := x], holders := s.holders[test := e]);
    assert EntryOk(s.entries[e]);
    OneEntryKeeps(s, s', e, x);
    TakenHolders(s, s', test, e, x);
    SameUnreleased(s.entries, s'.entries);
  }

  lemma ReturnKeeps(s: Catalogs, test: nat, e: nat, now: nat)
    requires Inv(s) && Enabled(s, Return(test, e, now))
    ensures Inv(GiveBack(s, test, e, now))
  {
    HeldEntryIsReferenced(s, test);
    var s' := GiveBack(s, test, e, now);
    assert EntryOk(s.entries[e]);
    OneEntryKeeps(s, s', e, s'.entries[e]);
    GivenHolders(s, s', test, e, s'.entries[e]);
    SameUnreleased(s.entries, s'.entries);
  }

  lemma CloseOneKeeps(s: Catalogs, e: nat)
    requires Inv(s) && Enabled(s, CloseOne(e))
    ensures Inv(CloseProxies(s, e))
  {
    var s' := CloseProxies(s, e);
    OneEntryKeeps(s, s', e, s'.entries[e]);
    SameUnreleased(s.entries, s'.entries);
    SameHolders(s, s');
  }

  lemma FinishOneKeeps(s: Catalogs, e: nat)
    requires Inv(s) && Enabled(s, FinishOne(e))
    ensures Inv(FinishClose(s, e))
  {
    var s' := FinishClose(s, e);
    OneEntryKeeps(s, s', e, s'.entries[e]);
    FinishedCount(s, e);
    SameHolders(s, s');
  }

  lemma FinishedCount(s: Catalogs, e: nat)
    requires CountOk(s) && e in s.entries && !s.entries[e].released && s.entries[e].finishing > 0
    ensures CountOk(FinishClose(s, e))
  {
    assert Unreleased(FinishClose(s, e).entries) == Unreleased(s.entries) - {e};
  }

  lemma FlagChangeKeeps(s: Catalogs, s': Catalogs)
    requires MapOk(s) && EntriesOk(s) && HoldersOk(s) && CountOk(s)
    requires s' == s.(strictBlocked := s'.strictBlocked, stopped := s'.stopped, closedOwners := s'.closedOwners)
    ensures MapOk(s') && EntriesOk(s') && HoldersOk(s') && CountOk(s')
  {
    SameHolders(s, s');
  }

  lemma OwnerGoneKeeps(s: Catalogs, owner: Option<nat>)
    requires Inv(s)
    ensures Inv(CloseOwner(s, owner))
  {
    var marked := s.(closedOwners := if owner.Some? then s.closedOwners + {owner.value} else s.closedOwners);
    FlagChangeKeeps(s, marked);
    RetireMappedKeeps(marked, (k: Key) => k.owner == owner);
  }

  lemma ClearKeeps(s: Catalogs, stopping: bool)
    requires Inv(s)
    ensures Inv(Clear(s, stopping))
  {
    var marked := s.(stopped := s.stopped || stopping);
    FlagChangeKeeps(s, marked);
    RetireMappedKeeps(marked, (k: Key) => true);
  }

  lemma StrictBlockKeeps(s: Catalogs, blocked: bool)
    requires Inv(s)
    ensures Inv(SetStrictBlocked(s, blocked))
  {
    var marked := s.(strictBlocked := blocked);
    FlagChangeKeeps(s, marked);
    if blocked {
      RetireMappedKeeps(marked, (k: Key) => true);
    }
  }

  lemma StepKeeps(s: Catalogs, step: Step)
    requires Inv(s) && Enabled(s, step)
    ensures Inv(Apply(s, step))
  {
    match step
    case Prepare(key, now, pick, newId) => PrepareKeeps(s, key, now, pick, newId);
    case Build(e, now) => BuildKeeps(s, e, now);
    case ExpireTimer(e, now) => RetireAllKeeps(s, {e});
    case ReleaseKey(key) => if key in s.byKey { RetireAllKeeps(s, {s.byKey[key]}); }
    case OwnerGone(owner) => OwnerGoneKeeps(s, owner);
    case ClearAll(stopping) => ClearKeeps(s, stopping);
    case ResumeAll => FlagChangeKeeps(s, Resume(s));
    case StrictBlock(blocked) => StrictBlockKeeps(s, blocked);
    case Look(test, e, cancelled) => LookKeeps(s, test, e, cancelled);
    case Return(test, e, now) => ReturnKeeps(s, test, e, now);
    case CloseOne(e) => CloseOneKeeps(s, e);
    case FinishOne(e) => FinishOneKeeps(s, e);
  }

  /** Every step of a run is one the program can take where it stands. */
  predicate Possible(s: Catalogs, steps: seq<Step>)
    requires Inv(s)
    decreases |steps|
  {
    steps == [] || (Enabled(s, steps[0]) && (StepKeeps(s, steps[0]); Possible(Apply(s, steps[0]), steps[1..])))
  }

  function After(s: Catalogs, steps: seq<Step>): (r: Catalogs)
    requires Inv(s) && Possible(s, steps)
    ensures Inv(r)
    decreases |steps|
  {
    if steps == [] then s else
      StepKeeps(s, steps[0]);
      After(Apply(s, steps[0]), steps[1..])
  }

  lemma EmptyOk()
    ensures Inv(EMPTY)
  {
    assert Unreleased(EMPTY.entries) == {};
  }

  predicate PossibleRun(steps: seq<Step>) {
    EmptyOk();
    Possible(EMPTY, steps)
  }

  /** The catalogs after a run of the program from its start. */
  function RunOf(steps: seq<Step>): (r: Catalogs)
    requires PossibleRun(steps)
    ensures Inv(r)
  {
    EmptyOk();
    After(EMPTY, steps)
  }

  predicate CloseQueued(s: Catalogs) {
    exists e :: e in s.entries && (s.entries[e].listed > 0 || s.entries[e].finishing > 0)
  }

  /** The lifetime promise, for every interleaving of critical sections. */
  lemma CatalogLifetime(steps: seq<Step>)
    requires PossibleRun(steps)
    ensures
      var s := RunOf(steps);
      && (forall e :: e in s.entries ==> s.entries[e].closes <= 1 && (s.entries[e].closes == 1 ==> Unused(s.entries[e])))
      && (forall t :: t in s.holders ==> s.holders[t] in s.entries && s.entries[s.holders[t]].closes == 0)
      && s.resourceCount == |Unreleased(s.entries)| <= MAX_CATALOGS
      && (s.strictBlocked || s.stopped ==> s.byKey == map[])
      && (forall k :: k in s.byKey ==> !IsClosed(s, k.owner))
      && (forall e :: e in s.entries && !s.entries[e].retired && Idle(s.entries[e]) ==> s.entries[e].timer)
    ensures
      var s := RunOf(steps);
      !CloseQueued(s) ==> forall e :: e in s.entries ==>
        && s.entries[e].closes == (if Unused(s.entries[e]) then 1 else 0)
        && s.entries[e].released == Unused(s.entries[e])
  {
    var s := RunOf(steps);
    forall t | t in s.holders ensures s.holders[t] in s.entries && s.entries[s.holders[t]].closes == 0 {
      HeldEntryIsReferenced(s, t);
      assert EntryOk(s.entries[s.holders[t]]);
    }
    forall e | e in s.entries
      ensures s.entries[e].closes <= 1 && (s.entries[e].closes == 1 ==> Unused(s.entries[e]))
      ensures !s.entries[e].retired && Idle(s.entries[e]) ==> s.entries[e].timer
    {
      assert EntryOk(s.entries[e]);
    }
  }

  /** What a run never takes back: an entry stays retired and out of the map, a closed owner stays closed. */
  predicate Later(s: Catalogs, t: Catalogs) {
    && s.closedOwners <= t.closedOwners
    && (forall e :: e in s.entries ==> e in t.entries)
    && (forall e :: e in s.entries ==> t.entries[e].key == s.entries[e].key && s.entries[e].closes <= t.entries[e].closes)
    && (forall e :: e in s.entries && s.entries[e].retired ==> t.entries[e].retired)
    && (forall e :: e in s.entries && t.entries[e].building ==> s.entries[e].building)
  }

  lemma RetireAllIsLater(s: Catalogs, which: set<nat>)
    requires which <= s.entries.Keys
    ensures Later(s, RetireAll(s, which))
  {
  }

  lemma PrepareIsLater(s: Catalogs, key: Key, now: nat, pick: nat, newId: nat)
    requires WellMapped(s) && Enabled(s, Prepare(key, now, pick, newId))
    ensures Later(s, PrepareAttempt(s, key, now, pick, newId).0)
  {
    match PrepareAttempt(s, key, now, pick, newId).1
    case Evicted(victim) => RetireAllIsLater(s, {victim});
    case _ =>
  }

  lemma OneEntryIsLater(s: Catalogs, s': Catalogs, e: nat, x: Entry)
    requires e in s.entries && s'.entries == s.entries[e := x] && s'.closedOwners == s.closedOwners
    requires x.key == s.entries[e].key && x.retired == s.entries[e].retired && x.closes >= s.entries[e].closes
    requires x.building ==> s.entries[e].building
    ensures Later(s, s')
  {
  }

  lemma LaterTwice(a: Catalogs, b: Catalogs, c: Catalogs)
    requires Later(a, b) && Later(b, c)
    ensures Later(a, c)
  {
  }

  lemma BuildIsLater(s: Catalogs, e: nat, now: nat)
    requires Enabled(s, Build(e, now))
    ensures Later(s, BuildDone(s, e, now).0)
  {
    if BuildRefusal(s, s.entries[e]) == Kept {
      OneEntryIsLater(s, BuildDone(s, e, now).0, e, BuildDone(s, e, now).0.entries[e]);
    } else {
      var built := s.(entries := s.entries[e := s.entries[e].(building := false)]);
      OneEntryIsLater(s, built, e, built.entries[e]);
      RetireAllIsLater(built, {e});
      LaterTwice(s, built, RetireAll(built, {e}));
    }
  }

  lemma RetireMappedIsLater(s: Catalogs, marked: Catalogs, picked: Key -> bool)
    requires WellMapped(s) && s.closedOwners <= marked.closedOwners
    requires marked.entries == s.entries && marked.byKey == s.byKey
    ensures Later(s, RetireMapped(marked, picked))
  {
    RetireAllIsLater(marked, set k | k in marked.byKey && picked(k) :: marked.byKey[k]);
  }

  lemma OwnerGoneIsLater(s: Catalogs, owner: Option<nat>)
    requires WellMapped(s)
    ensures Later(s, CloseOwner(s, owner))
  {
    RetireMappedIsLater(s, s.(closedOwners := if owner.Some? then s.closedOwners + {owner.value} else s.closedOwners),
                        (k: Key) => k.owner == owner);
  }

  lemma ReturnIsLater(s: Catalogs, test: nat, e: nat, now: nat)
    requires e in s.entries
    ensures Later(s, GiveBack(s, test, e, now))
  {
    OneEntryIsLater(s, GiveBack(s, test, e, now), e, GiveBack(s, test, e, now).entries[e]);
  }

  lemma LookIsLater(s: Catalogs, test: nat, e: nat, cancelled: bool)
    requires e in s.entries
    ensures Later(s, Acquire(s, test, e, cancelled).0)
  {
    if Acquire(s, test, e, cancelled).1 == Found {
      OneEntryIsLater(s, Acquire(s, test, e, cancelled).0, e, Acquire(s, test, e, cancelled).0.entries[e]);
    }
  }

  lemma CloseOneIsLater(s: Catalogs, e: nat)
    requires e in s.entries && s.entries[e].listed > 0
    ensures Later(s, CloseProxies(s, e))
  {
    OneEntryIsLater(s, CloseProxies(s, e), e, CloseProxies(s, e).entries[e]);
  }

  lemma FinishOneIsLater(s: Catalogs, e: nat)
    requires e in s.entries && s.entries[e].finishing > 0
    ensures Later(s, FinishClose(s, e))
  {
    OneEntryIsLater(s, FinishClose(s, e), e, FinishClose(s, e).entries[e]);
  }

  lemma StepIsLater(s: Catalogs, step: Step)
    requires WellMapped(s) && Enabled(s, step)
    ensures Later(s, Apply(s, step))
  {
    match step
    case Prepare(key, now, pick, newId) => PrepareIsLater(s, key, now, pick, newId);
    case Build(e, now) => BuildIsLater(s, e, now);
    case ExpireTimer(e, now) => RetireAllIsLater(s, {e});
    case ReleaseKey(key) => if key in s.byKey { RetireAllIsLater(s, {s.byKey[key]}); }
    case OwnerGone(owner) => OwnerGoneIsLater(s, owner);
    case ClearAll(stopping) => RetireMappedIsLater(s, s.(stopped := s.stopped || stopping), (k: Key) => true);
    case ResumeAll =>
    case StrictBlock(blocked) => RetireMappedIsLater(s, s.(strictBlocked := true), (k: Key) => true);
    case Look(test, e, cancelled) => LookIsLater(s, test, e, cancelled);
    case Return(test, e, now) => ReturnIsLater(s, test, e, now);
    case CloseOne(e) => CloseOneIsLater(s, e);
    case FinishOne(e) => FinishOneIsLater(s, e);
  }

  lemma {:induction false} RunIsLater(s: Catalogs, steps: seq<Step>)
    requires Inv(s) && Possible(s, steps)
    ensures Later(s, After(s, steps))
    decreases |steps|
  {
    if steps != [] {
      StepKeeps(s, steps[0]);
      StepIsLater(s, steps[0]);
      RunIsLater(Apply(s, steps[0]), steps[1..]);
    }
  }

  /** Once an owner is closed no later prepare of that owner gets an entry, and no
      entry of it is ever in the map again. */
  lemma ClosedOwnerStaysOut(s: Catalogs, owner: nat, steps: seq<Step>, id: string)
    requires Inv(s) && Possible(s, [OwnerGone(Some(owner))] + steps)
    ensures
      var later := After(s, [OwnerGone(Some(owner))] + steps);
      && Key(Some(owner), id) !in later.byKey
      && forall now, pick, newId :: Enabled(later, Prepare(Key(Some(owner), id), now, pick, newId)) ==>
           PrepareAttempt(later, Key(Some(owner), id), now, pick, newId).1 == SessionClosed
  {
    var run := [OwnerGone(Some(owner))] + steps;
    assert run[1..] == steps;
    OwnerGoneKeeps(s, Some(owner));
    RunIsLater(CloseOwner(s, Some(owner)), steps);
    assert After(s, run) == After(CloseOwner(s, Some(owner)), steps);
    assert IsClosed(After(s, run), Some(owner));
  }

  lemma VictimIsListed(s: Catalogs, victim: nat)
    requires Inv(s) && victim in Mapped(s) && Idle(s.entries[victim])
    ensures Inv(RetireAll(s, {victim})) && RetireAll(s, {victim}).entries[victim].listed == 1
    ensures forall k :: k in RetireAll(s, {victim}).byKey ==> s.byKey[k] != victim
  {
    RetireAllKeeps(s, {victim});
    EvictedFlags(s, {victim});
    assert EntryOk(s.entries[victim]);
  }

  /** What the evicting thread does before its next attempt. */
  function Closed(s: Catalogs, e: nat): Catalogs
    requires e in s.entries && s.entries[e].listed > 0
  {
    FinishClose(CloseProxies(s, e), e)
  }

  lemma ClosedKeeps(s: Catalogs, e: nat)
    requires Inv(s) && e in s.entries && s.entries[e].listed > 0
    ensures Inv(Closed(s, e))
    ensures Closed(s, e) == s.(entries := Closed(s, e).entries, resourceCount := s.resourceCount - 1)
  {
    CloseOneKeeps(s, e);
    FinishOneKeeps(CloseProxies(s, e), e);
  }

  /** A preparation nobody races is refused, or starts at its second attempt at the
      latest: the entry it evicts is closed before it tries again. */
  lemma UncontendedPrepareStarts(s: Catalogs, key: Key, now: nat, pick: nat, newId: nat)
    requires Inv(s) && Enabled(s, Prepare(key, now, pick, newId))
    requires PrepareAttempt(s, key, now, pick, newId).1.Evicted?
    ensures
      var (evicted, attempt) := PrepareAttempt(s, key, now, pick, newId);
      && attempt.victim in evicted.entries && evicted.entries[attempt.victim].listed > 0
      && Inv(Closed(evicted, attempt.victim))
      && PrepareAttempt(Closed(evicted, attempt.victim), key, now, pick, newId).1 == Started(newId)
  {
    var victim := PrepareAttempt(s, key, now, pick, newId).1.victim;
    VictimIsListed(s, victim);
    ClosedKeeps(RetireAll(s, {victim}), victim);
    RetryStarts(Closed(RetireAll(s, {victim}), victim), key, now, pick, newId);
  }

  lemma RetryStarts(s: Catalogs, key: Key, now: nat, pick: nat, newId: nat)
    requires WellMapped(s) && s.resourceCount < MAX_CATALOGS && key !in s.byKey
    requires !s.stopped && !s.strictBlocked && !IsClosed(s, key.owner)
    ensures PrepareAttempt(s, key, now, pick, newId).1 == Started(newId)
  {
  }
}
