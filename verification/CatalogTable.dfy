/** The catalog table as the Core keeps it: fields changed in place, one method per
    critical section, each proved equal to the step of module Catalog it stands for. */
module CatalogTableModule {
  import opened Wrappers
  import opened Catalog

  lemma RetireOneMore(s: Catalogs, done: set<nat>, e: nat)
    requires done <= s.entries.Keys && e in s.entries && e !in done
    ensures RetireAll(RetireAll(s, done), {e}) == RetireAll(s, done + {e})
  {
  }

  function Picked(s: Catalogs, keys: set<Key>, picked: Key -> bool): (r: set<nat>)
    requires Keyed(s)
    ensures r <= s.entries.Keys
  {
    set k | k in s.byKey && k in keys && picked(k) :: s.byKey[k]
  }

  lemma PickNone(s: Catalogs, picked: Key -> bool)
    requires Keyed(s)
    ensures Picked(s, {}, picked) == {} && RetireAll(s, {}) == s
  {
  }

  lemma PickOneMore(s: Catalogs, keys: set<Key>, k: Key, picked: Key -> bool)
    requires Keyed(s) && k in s.byKey && k !in keys && picked(k)
    ensures var now := RetireAll(s, Picked(s, keys, picked));
            && Keyed(now) && k in now.byKey && now.byKey[k] in now.entries
            && RetireAll(now, {now.byKey[k]}) == RetireAll(s, Picked(s, keys + {k}, picked))
  {
    assert Picked(s, keys + {k}, picked) == Picked(s, keys, picked) + {s.byKey[k]};
    RetireOneMore(s, Picked(s, keys, picked), s.byKey[k]);
  }

  lemma SkipOne(s: Catalogs, keys: set<Key>, k: Key, picked: Key -> bool)
    requires Keyed(s) && !picked(k)
    ensures Picked(s, keys + {k}, picked) == Picked(s, keys, picked)
  {
  }

  lemma PickAll(s: Catalogs, picked: Key -> bool)
    requires Keyed(s)
    ensures RetireAll(s, Picked(s, s.byKey.Keys, picked)) == RetireMapped(s, picked)
  {
    assert Picked(s, s.byKey.Keys, picked) == set k | k in s.byKey && picked(k) :: s.byKey[k];
  }

  predicate Keyed(s: Catalogs) {
    forall k :: k in s.byKey ==> s.byKey[k] in s.entries && s.entries[s.byKey[k]].key == k
  }

  class CatalogTable {
    var entries: map<nat, Entry>
    var byKey: map<Key, nat>
    var resourceCount: int
    var strictBlocked: bool
    var stopped: bool
    var closedOwners: set<nat>
    var holders: map<nat, nat>

    function State(): Catalogs
      reads this
    {
      Catalogs(entries, byKey, resourceCount, strictBlocked, stopped, closedOwners, holders)
    }

    constructor ()
      ensures State() == EMPTY
    {
      entries, byKey, resourceCount := map[], map[], 0;
      strictBlocked, stopped, closedOwners, holders := false, false, {}, map[];
    }

    method DisposeLocked(e: nat)
      requires e in entries
      modifies `entries
      ensures entries == old(entries)[e := Disposed(old(entries)[e])]
    {
      var entry := entries[e];
      if entry.retired && !entry.building && entry.refs == 0 && !entry.disposed {
        entries := entries[e := entry.(disposed := true, listed := entry.listed + 1)];
      }
    }

    method RetireLocked(e: nat)
      requires e in entries && Keyed(State())
      modifies this
      ensures State() == RetireAll(old(State()), {e})
    {
      var key := entries[e].key;
      if key in byKey && byKey[key] == e {
        byKey := byKey - {key};
      }
      entries := entries[e := entries[e].(retired := true, timer := false)];
      DisposeLocked(e);
      assert entries == RetireAll(old(State()), {e}).entries;
      assert byKey == RetireAll(old(State()), {e}).byKey;
    }

    method RetireIf(k: Key, picked: Key -> bool, ghost before: Catalogs, ghost seen: set<Key>)
      requires Keyed(before) && k in before.byKey && k !in seen
      requires State() == RetireAll(before, Picked(before, seen, picked))
      modifies this
      ensures State() == RetireAll(before, Picked(before, seen + {k}, picked))
    {
      if picked(k) {
        PickOneMore(before, seen, k, picked);
        RetireLocked(byKey[k]);
      } else {
        SkipOne(before, seen, k, picked);
      }
    }

    method RetireMatching(picked: Key -> bool)
      requires Keyed(State())
      modifies this
      ensures State() == RetireMapped(old(State()), picked)
    {
      ghost var before := State();
      var todo := byKey.Keys;
      PickNone(before, picked);
      while todo != {}
        invariant todo <= before.byKey.Keys
        invariant State() == RetireAll(before, Picked(before, before.byKey.Keys - todo, picked))
        decreases |todo|
      {
        var k :| k in todo;
        RetireIf(k, picked, before, before.byKey.Keys - todo);
        assert before.byKey.Keys - (todo - {k}) == before.byKey.Keys - todo + {k};
        todo := todo - {k};
      }
      assert before.byKey.Keys - todo == before.byKey.Keys;
      PickAll(before, picked);
    }

    /** The least recently used entry that is neither building nor in use. */
    method FindVictim() returns (victim: Option<nat>)
      requires Keyed(State())
      ensures victim.None? <==> !SomeIdle(State())
      ensures victim.Some? ==> IsVictim(State(), victim.value)
    {
      victim := None;
      var todo := byKey.Keys;
      while todo != {}
        invariant todo <= byKey.Keys
        invariant victim.None? ==> forall k :: k in byKey && k !in todo ==> !Idle(entries[byKey[k]])
        invariant victim.Some? ==> victim.value in byKey.Values && Idle(entries[victim.value])
        invariant victim.Some? ==> forall k :: k in byKey && k !in todo && Idle(entries[byKey[k]]) ==>
          entries[victim.value].lastUsed <= entries[byKey[k]].lastUsed
        decreases |todo|
      {
        var k :| k in todo;
        todo := todo - {k};
        var candidate := byKey[k];
        if Idle(entries[candidate]) && (victim.None? || entries[candidate].lastUsed < entries[victim.value].lastUsed) {
          victim := Some(candidate);
        }
      }
    }

    /** One attempt of a preparation; `pick` is the victim the search found, if any. */
    method TryPrepare(key: Key, now: nat, newId: nat) returns (attempt: Attempt, ghost pick: nat)
      requires Keyed(State()) && newId !in entries
      modifies this
      ensures Enabled(old(State()), Prepare(key, now, pick, newId))
      ensures (State(), attempt) == PrepareAttempt(old(State()), key, now, pick, newId)
    {
      var found := FindVictim();
      pick := if found.Some? then found.value else 0;
      if stopped || IsClosed(State(), key.owner) {
        return SessionClosed, pick;
      }
      if strictBlocked {
        return StrictUnsupported, pick;
      }
      if key in byKey {
        var same := byKey[key];
        if !Idle(entries[same]) {
          return Overloaded, pick;
        }
        RetireLocked(same);
        return Evicted(same), pick;
      }
      if resourceCount >= MAX_CATALOGS {
        if found.None? {
          return Overloaded, pick;
        }
        RetireLocked(found.value);
        return Evicted(found.value), pick;
      }
      entries := entries[newId := NewEntry(key, now)];
      byKey := byKey[key := newId];
      resourceCount := resourceCount + 1;
      attempt := Started(newId);
    }

    method FinishBuild(e: nat, now: nat) returns (built: Built)
      requires Keyed(State()) && e in entries && entries[e].building
      modifies this
      ensures (State(), built) == BuildDone(old(State()), e, now)
    {
      built := Kept;
      if strictBlocked {
        built := StrictModeUnsupported;
      } else if stopped || IsClosed(State(), entries[e].key.owner) {
        built := SessionGone;
      } else if entries[e].retired {
        built := CatalogMissing;
      }
      entries := entries[e := entries[e].(building := false)];
      if built == Kept {
        entries := entries[e := entries[e].(lastUsed := now, timer := true)];
        assert entries == BuildDone(old(State()), e, now).0.entries;
      } else {
        RetireLocked(e);
      }
    }

    method ExpireEntry(e: nat, now: nat)
      requires Keyed(State()) && e in entries
      modifies this
      ensures State() == Expire(old(State()), e, now)
    {
      var entry := entries[e];
      if entry.key in byKey && byKey[entry.key] == e && Idle(entry) && now >= entry.lastUsed + CATALOG_IDLE_TTL {
        RetireLocked(e);
      }
    }

    method ReleaseCatalog(key: Key)
      requires Keyed(State())
      modifies this
      ensures State() == Release(old(State()), key)
    {
      if key in byKey {
        RetireLocked(byKey[key]);
      }
    }

    method CloseCatalogOwner(owner: Option<nat>)
      requires Keyed(State())
      modifies this
      ensures State() == CloseOwner(old(State()), owner)
    {
      if owner.Some? {
        closedOwners := closedOwners + {owner.value};
      }
      RetireMatching((k: Key) => k.owner == owner);
    }

    method ClearCatalogs(stopping: bool)
      requires Keyed(State())
      modifies this
      ensures State() == Clear(old(State()), stopping)
    {
      if stopping {
        stopped := true;
      }
      RetireMatching((k: Key) => true);
    }

    method SetBlocked(blocked: bool)
      requires Keyed(State())
      modifies this
      ensures State() == SetStrictBlocked(old(State()), blocked)
    {
      strictBlocked := blocked;
      if blocked {
        RetireMatching((k: Key) => true);
      }
    }

    method LookUp(test: nat, e: nat, cancelled: bool) returns (found: Lookup)
      requires e in entries
      modifies this
      ensures (State(), found) == Acquire(old(State()), test, e, cancelled)
    {
      var entry := entries[e];
      if strictBlocked {
        return Blocked;
      }
      if entry.retired || entry.key !in byKey || byKey[entry.key] != e {
        return NotFound;
      }
      if cancelled {
        return DeadlineExceeded;
      }
      entries := entries[e := entry.(refs := entry.refs + 1, timer := false)];
      holders := holders[test := e];
      found := Found;
    }

    method ReturnReference(test: nat, e: nat, now: nat)
      requires e in entries
      modifies this
      ensures State() == GiveBack(old(State()), test, e, now)
    {
      holders := holders - {test};
      entries := entries[e := entries[e].(refs := entries[e].refs - 1, lastUsed := now)];
      DisposeLocked(e);
      if !entries[e].retired && entries[e].refs == 0 {
        entries := entries[e := entries[e].(timer := true)];
      }
    }
  }
}
