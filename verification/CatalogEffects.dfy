/** What each critical section of the catalogs does and what it leaves alone, entry by
    entry, from every reachable state. */
module CatalogEffects {
  import opened Wrappers
  import opened Catalog

  /** In use, or still being built. */
  predicate Busy(x: Entry) {
    x.refs != 0 || x.building
  }

  /** Exactly the entries of `gone` were taken out of the map and retired, the unused
      ones among them handed out to be closed; nothing else of any entry changed. */
  ghost predicate RetiredExactly(s: Catalogs, s': Catalogs, gone: set<nat>) {
    && gone <= s.entries.Keys && s'.entries.Keys == s.entries.Keys
    && (forall k :: k in s'.byKey <==> k in s.byKey && s.byKey[k] !in gone)
    && (forall k :: k in s'.byKey ==> s'.byKey[k] == s.byKey[k])
    && (forall e :: e in s.entries && e !in gone ==> s'.entries[e] == s.entries[e])
    && (forall e :: e in gone ==>
          var x := s.entries[e];
          s'.entries[e] == x.(retired := true, timer := false, disposed := !Busy(x), listed := if Busy(x) then 0 else 1))
    && s'.resourceCount == s.resourceCount && s'.holders == s.holders
  }

  lemma RetireAllExactly(s: Catalogs, gone: set<nat>)
    requires Inv(s) && gone <= s.entries.Keys && forall e :: e in gone ==> !s.entries[e].retired
    ensures RetiredExactly(s, RetireAll(s, gone), gone)
  {
    forall e | e in gone ensures !s.entries[e].disposed && s.entries[e].listed == 0 { assert EntryOk(s.entries[e]); }
  }

  /** Flags and closed owners together. */
  function Flags(s: Catalogs): (bool, bool, set<nat>) {
    (s.strictBlocked, s.stopped, s.closedOwners)
  }

  // ----- Preparation ---------------------------------------------------------

  /** A preparation is refused for good before anything else: with its session closed or
      the Core stopping, then in strict mode. A refusal changes nothing. */
  lemma PrepareRefusesExactly(s: Catalogs, key: Key, now: nat, pick: nat, newId: nat)
    requires Inv(s) && Enabled(s, Prepare(key, now, pick, newId))
    ensures var (s', attempt) := PrepareAttempt(s, key, now, pick, newId);
            var gone := s.stopped || (key.owner.Some? && key.owner.value in s.closedOwners);
            && (attempt == SessionClosed <==> gone)
            && (attempt == StrictUnsupported <==> !gone && s.strictBlocked)
            && (!attempt.Started? && !attempt.Evicted? ==> s' == s)
  {
  }

  /** Otherwise it is refused as overloaded exactly if its own entry is busy, or the key
      is new, every reservation is taken and every mapped entry is busy. It evicts its own
      idle entry, or for a new key at capacity an idle one used least recently; and it
      starts exactly for a new key with a reservation left. */
  lemma PrepareDecidesExactly(s: Catalogs, key: Key, now: nat, pick: nat, newId: nat)
    requires Inv(s) && Enabled(s, Prepare(key, now, pick, newId))
    requires !s.stopped && !s.strictBlocked && !(key.owner.Some? && key.owner.value in s.closedOwners)
    ensures var (s', attempt) := PrepareAttempt(s, key, now, pick, newId);
            var full := s.resourceCount >= 3;
            var allBusy := forall k :: k in s.byKey ==> Busy(s.entries[s.byKey[k]]);
            && (attempt == Overloaded <==> if key in s.byKey then Busy(s.entries[s.byKey[key]]) else full && allBusy)
            && (attempt.Started? <==> key !in s.byKey && !full)
            && (attempt.Evicted? ==>
                  && RetiredExactly(s, s', {attempt.victim}) && Flags(s') == Flags(s)
                  && (exists k :: k in s.byKey && s.byKey[k] == attempt.victim)
                  && !Busy(s.entries[attempt.victim])
                  && (if key in s.byKey then attempt.victim == s.byKey[key] else
                        full && forall k :: k in s.byKey && !Busy(s.entries[s.byKey[k]]) ==>
                                  s.entries[attempt.victim].lastUsed <= s.entries[s.byKey[k]].lastUsed))
            && (attempt.Started? ==>
                  && attempt.entry == newId && s'.resourceCount == s.resourceCount + 1
                  && s'.byKey == s.byKey[key := newId] && Flags(s') == Flags(s) && s'.holders == s.holders
                  && s'.entries == s.entries[newId := Entry(key, now, 0, true, false, false, false, 0, 0, 0, false)])
  {
    var attempt := PrepareAttempt(s, key, now, pick, newId).1;
    if attempt.Evicted? { RetireAllExactly(s, {attempt.victim}); }
  }

  /** A preparation that nobody races and that is not refused has started by its second
      attempt, the evicted entry being closed and released in between. */
  lemma LonePreparationStarts(s: Catalogs, key: Key, now: nat, pick: nat, newId: nat)
    requires Inv(s) && Enabled(s, Prepare(key, now, pick, newId))
    requires !s.stopped && !s.strictBlocked && !(key.owner.Some? && key.owner.value in s.closedOwners)
    requires if key in s.byKey then !Busy(s.entries[s.byKey[key]])
             else s.resourceCount >= 3 ==> exists k :: k in s.byKey && !Busy(s.entries[s.byKey[k]])
    ensures var (s', attempt) := PrepareAttempt(s, key, now, pick, newId);
            if attempt.Evicted? then
              && attempt.victim in s'.entries && s'.entries[attempt.victim].listed > 0 && Inv(Closed(s', attempt.victim))
              && PrepareAttempt(Closed(s', attempt.victim), key, now, pick, newId).1 == Started(newId)
            else attempt == Started(newId)
  {
    PrepareDecidesExactly(s, key, now, pick, newId);
    if PrepareAttempt(s, key, now, pick, newId).1.Evicted? { UncontendedPrepareStarts(s, key, now, pick, newId); }
  }

  /** A build is kept exactly if nothing blocked, closed or retired it meanwhile; then it
      counts as used now and may expire. */
  lemma BuildKeepsExactly(s: Catalogs, e: nat, now: nat)
    requires Inv(s) && Enabled(s, Build(e, now))
    ensures var (s', built) := BuildDone(s, e, now);
            var x := s.entries[e];
            var gone := s.stopped || (x.key.owner.Some? && x.key.owner.value in s.closedOwners);
            && built == (if s.strictBlocked then StrictModeUnsupported else if gone then SessionGone
                         else if x.retired then CatalogMissing else Kept)
            && (built == Kept ==> s' == s.(entries := s.entries[e := x.(building := false, lastUsed := now, timer := true)]))
  {
  }

  /** A build that is not kept is retired and handed out to be closed. */
  lemma BuildRefusalRetires(s: Catalogs, e: nat, now: nat)
    requires Inv(s) && Enabled(s, Build(e, now)) && BuildDone(s, e, now).1 != Kept
    ensures var s' := BuildDone(s, e, now).0;
            && s'.entries.Keys == s.entries.Keys && s'.resourceCount == s.resourceCount && s'.holders == s.holders
            && Flags(s') == Flags(s)
            && (forall i :: i in s.entries && i != e ==> s'.entries[i] == s.entries[i])
            && s'.entries[e] == s.entries[e].(building := false, retired := true, timer := false, disposed := true, listed := 1)
            && (forall k :: k in s'.byKey <==> k in s.byKey && s.byKey[k] != e)
            && (forall k :: k in s'.byKey ==> s'.byKey[k] == s.byKey[k])
  {
    assert EntryOk(s.entries[e]);
    assert BuildDone(s, e, now).0 == RetireAll(s.(entries := s.entries[e := s.entries[e].(building := false)]), {e});
  }

  // ----- Retiring ------------------------------------------------------------

  /** An expiry retires its entry exactly if that is still mapped, unused and at least
      600 seconds old. */
  lemma ExpiryRetiresExactly(s: Catalogs, e: nat, now: nat)
    requires Inv(s) && e in s.entries
    ensures var x := s.entries[e];
            if !x.retired && !Busy(x) && now - x.lastUsed >= 600 then RetiredExactly(s, Expire(s, e, now), {e}) && Flags(Expire(s, e, now)) == Flags(s)
            else Expire(s, e, now) == s
  {
    assert EntryOk(s.entries[e]);
    if !s.entries[e].retired { RetireAllExactly(s, {e}); }
  }

  lemma ReleaseRetiresExactly(s: Catalogs, key: Key)
    requires Inv(s)
    ensures Flags(Release(s, key)) == Flags(s)
    ensures if key in s.byKey then RetiredExactly(s, Release(s, key), {s.byKey[key]}) else Release(s, key) == s
  {
    if key in s.byKey { RetireAllExactly(s, {s.byKey[key]}); }
  }

  lemma MappedAreLive(s: Catalogs, picked: Key -> bool, gone: set<nat>)
    requires MapOk(s) && forall e :: e in gone <==> e in s.entries && !s.entries[e].retired && picked(s.entries[e].key)
    ensures gone == set k | k in s.byKey && picked(k) :: s.byKey[k]
  {
  }

  lemma MappedRetiresExactly(s: Catalogs, flagged: Catalogs, picked: Key -> bool, gone: set<nat>)
    requires Inv(s) && flagged == s.(strictBlocked := flagged.strictBlocked, stopped := flagged.stopped, closedOwners := flagged.closedOwners)
    requires forall e :: e in gone <==> e in s.entries && !s.entries[e].retired && picked(s.entries[e].key)
    ensures RetiredExactly(s, RetireMapped(flagged, picked), gone) && Flags(RetireMapped(flagged, picked)) == Flags(flagged)
  {
    MappedAreLive(s, picked, gone);
    RetireAllExactly(s, gone);
  }

  /** The live entries of one owner, or those without one. */
  function EntriesOf(s: Catalogs, owner: Option<nat>): set<nat> {
    set e | e in s.entries && !s.entries[e].retired && s.entries[e].key.owner == owner
  }

  function LiveEntries(s: Catalogs): set<nat> {
    set e | e in s.entries && !s.entries[e].retired
  }

  /** Closing an owner retires exactly its own live entries and remembers it. */
  lemma OwnerGoneRetiresExactly(s: Catalogs, owner: Option<nat>)
    requires Inv(s)
    ensures RetiredExactly(s, CloseOwner(s, owner), EntriesOf(s, owner))
    ensures Flags(CloseOwner(s, owner)) == (s.strictBlocked, s.stopped, if owner.Some? then s.closedOwners + {owner.value} else s.closedOwners)
  {
    MappedRetiresExactly(s, s.(closedOwners := CloseOwner(s, owner).closedOwners), (k: Key) => k.owner == owner, EntriesOf(s, owner));
  }

  /** Clearing retires every live entry, and stops new ones only when asked to. */
  lemma ClearRetiresExactly(s: Catalogs, stopping: bool)
    requires Inv(s)
    ensures RetiredExactly(s, Clear(s, stopping), LiveEntries(s))
    ensures Flags(Clear(s, stopping)) == (s.strictBlocked, s.stopped || stopping, s.closedOwners)
  {
    MappedRetiresExactly(s, s.(stopped := s.stopped || stopping), (k: Key) => true, LiveEntries(s));
  }

  /** Resuming only lifts the stop. */
  lemma ResumeRetiresNothing(s: Catalogs)
    ensures RetiredExactly(s, Resume(s), {}) && Flags(Resume(s)) == (s.strictBlocked, false, s.closedOwners)
  {
  }

  /** Entering strict mode retires every live entry; leaving it only lifts the block. */
  lemma StrictBlockRetiresExactly(s: Catalogs, blocked: bool)
    requires Inv(s)
    ensures Flags(SetStrictBlocked(s, blocked)) == (blocked, s.stopped, s.closedOwners)
    ensures RetiredExactly(s, SetStrictBlocked(s, blocked), if blocked then LiveEntries(s) else {})
  {
    if blocked { MappedRetiresExactly(s, s.(strictBlocked := true), (k: Key) => true, LiveEntries(s)); }
    else { assert SetStrictBlocked(s, blocked) == s.(strictBlocked := false); }
  }

  // ----- References ----------------------------------------------------------

  /** A test gets a live entry and one reference on it, unless strict mode blocks, the
      entry is retired, or the test's context has ended, in this order. */
  lemma LookupFindsExactly(s: Catalogs, test: nat, e: nat, cancelled: bool)
    requires Inv(s) && Enabled(s, Look(test, e, cancelled))
    ensures var (s', found) := Acquire(s, test, e, cancelled);
            var x := s.entries[e];
            && found == (if s.strictBlocked then Blocked else if x.retired then NotFound
                         else if cancelled then DeadlineExceeded else Found)
            && (found != Found ==> s' == s)
            && (found == Found ==>
                  && s' == s.(entries := s'.entries, holders := s'.holders)
                  && s'.entries == s.entries[e := x.(refs := x.refs + 1, timer := false)]
                  && s'.holders == s.holders[test := e])
  {
  }

  /** A reference given back makes the entry used now; the last one arms its expiry, or
      hands a retired entry out to be closed. */
  lemma ReturnGivesExactly(s: Catalogs, test: nat, e: nat, now: nat)
    requires Inv(s) && Enabled(s, Return(test, e, now))
    ensures var s' := GiveBack(s, test, e, now);
            var x := s.entries[e];
            var last := x.refs == 1;
            && s' == s.(entries := s'.entries, holders := s'.holders)
            && s'.holders == (map t | t in s.holders && t != test :: s.holders[t])
            && s'.entries == s.entries[e := x.(refs := x.refs - 1, lastUsed := now, timer := last && !x.retired,
                                               disposed := last && x.retired, listed := if last && x.retired then 1 else 0)]
  {
    HeldEntryIsReferenced(s, test);
    assert EntryOk(s.entries[e]);
  }

  /** Closing the proxies and then releasing the reservation each do that and no more. */
  lemma CloseReleasesExactly(s: Catalogs, e: nat)
    requires Inv(s) && e in s.entries
    ensures s.entries[e].listed > 0 ==>
              CloseProxies(s, e) == s.(entries := s.entries[e := s.entries[e].(listed := 0, closes := 1, finishing := 1)])
    ensures s.entries[e].finishing > 0 ==>
              FinishClose(s, e) == s.(entries := s.entries[e := s.entries[e].(finishing := 0, released := true)],
                                      resourceCount := s.resourceCount - 1)
  {
    assert EntryOk(s.entries[e]);
  }
}
